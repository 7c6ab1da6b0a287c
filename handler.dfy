/**
 * The HTTP entry point: method dispatch, validation of the submission, the two
 * messages sent to the chat, and the collapse of every failure into one reply.
 */
module Handler {
  import opened Wrappers
  import opened Js
  import opened Submission
  import opened Formatter

  // ---------------------------------------------------------------------------
  // The outside world: the HTTP response and the Telegram Bot API

  datatype JsonBody = ErrorJson(error: string) | SuccessJson(success: bool, message: string)

  /** What the response carries: nothing (`end()`) or a JSON object (`json(...)`). */
  datatype Payload = NoBody | JsonPayload(body: JsonBody)

  /** The response object handed to the handler; it can be finished once. */
  class Response {
    var statusCode: nat
    var payload: Payload
    var finished: bool

    /** A fresh response: status 200, nothing written yet. */
    constructor ()
      ensures statusCode == 200 && payload == NoBody && !finished
    {
      statusCode := 200;
      payload := NoBody;
      finished := false;
    }

    method Status(code: nat)
      modifies this
      ensures statusCode == code && payload == old(payload) && finished == old(finished)
    {
      statusCode := code;
    }

    /** Sends a JSON body and finishes the response. */
    method Json(body: JsonBody)
      requires !finished
      modifies this
      ensures statusCode == old(statusCode) && payload == JsonPayload(body) && finished
    {
      payload := JsonPayload(body);
      finished := true;
    }

    /** Finishes the response without a body. */
    method End()
      requires !finished
      modifies this
      ensures statusCode == old(statusCode) && payload == old(payload) && finished
    {
      finished := true;
    }
  }

  /** One `sendMessage` call: the bot token, the chat, the text and the `parse_mode` option. */
  datatype Outgoing = Outgoing(token: string, chatId: string, text: string, parseMode: string)

  /**
   * The Bot API as this program sees it: every call is logged in `sent`, and the
   * calls whose position in the log is in `failsOn` are rejected (network error,
   * bad token or chat, a text the API refuses).
   */
  class Telegram {
    const failsOn: set<nat>
    var sent: seq<Outgoing>

    constructor (failsOn: set<nat>)
      ensures this.failsOn == failsOn && sent == []
    {
      this.failsOn := failsOn;
      sent := [];
    }

    method SendMessage(token: string, chatId: string, text: string, parseMode: string) returns (ok: bool)
      modifies this
      ensures sent == old(sent) + [Outgoing(token, chatId, text, parseMode)]
      ensures ok <==> |old(sent)| !in failsOn
    {
      ok := |sent| !in failsOn;
      sent := sent + [Outgoing(token, chatId, text, parseMode)];
    }
  }

  // ---------------------------------------------------------------------------
  // The handler as a function of the request and of the two send outcomes

  /** The status, the body and the messages sent for one request. */
  datatype Outcome = Outcome(status: nat, payload: Payload, sent: seq<Outgoing>)

  const MethodNotAllowed := "Method not allowed"
  const MissingFields := "Missing required fields"
  const SendFailed := "Failed to send message to Telegram"
  const ReportSent := "Report sent to Telegram"

  /** The validation of the body: name, email and total truthy, score anything but undefined. */
  predicate FieldsPresent(b: Body) {
    !IsFalsy(b.name) && !IsFalsy(b.email) && !b.score.Undefined? && !IsFalsy(b.total)
  }

  /** Every exception inside the `try` ends here. */
  function Failure(sent: seq<Outgoing>): Outcome {
    Outcome(500, JsonPayload(ErrorJson(SendFailed)), sent)
  }

  /**
   * The handler. `firstOk` and `secondOk` say whether the API accepts the report
   * and the summary; `formatDate` is the locale rendering of the timestamp.
   */
  function Handle(req: Request, token: string, chatId: string, formatDate: JsValue -> string,
                  firstOk: bool, secondOk: bool): Outcome
  {
    if req.verb == "OPTIONS" then Outcome(200, NoBody, [])
    else if req.verb != "POST" then Outcome(405, JsonPayload(ErrorJson(MethodNotAllowed)), [])
    else if req.body.None? then Failure([])
    else
      var b := req.body.value;
      if !FieldsPresent(b) then Outcome(400, JsonPayload(ErrorJson(MissingFields)), [])
      else
        Deliver(token, chatId,
                TelegramMessage(b.name, b.email, b.score, b.total, b.percentage, b.results, formatDate(b.timestamp)),
                Summary(b.name, b.score, b.total, b.percentage), firstOk, secondOk)
  }

  /** The part after validation: send the report (if one could be built), then the summary. */
  function Deliver(token: string, chatId: string, message: Option<string>, summary: string,
                   firstOk: bool, secondOk: bool): Outcome
  {
    match message
    case None => Failure([])
    case Some(report) =>
      var first := Outgoing(token, chatId, report, "HTML");
      if !firstOk then Failure([first])
      else
        var second := Outgoing(token, chatId, summary, "HTML");
        if !secondOk then Failure([first, second])
        else Outcome(200, JsonPayload(SuccessJson(true, ReportSent)), [first, second])
  }

  /** Serves one request on `res`, sending through `api` with the configured token and chat. */
  method HandleRequest(req: Request, res: Response, api: Telegram, token: string, chatId: string,
                       formatDate: JsValue -> string)
    requires !res.finished && res.payload == NoBody
    modifies res, api
    ensures var n := |old(api.sent)|;
            var o := Handle(req, token, chatId, formatDate, n !in api.failsOn, n + 1 !in api.failsOn);
            && res.statusCode == o.status && res.payload == o.payload && res.finished
            && api.sent == old(api.sent) + o.sent
  {
    if req.verb == "OPTIONS" {
      res.Status(200);
      res.End();
      return;
    }
    if req.verb != "POST" {
      res.Status(405);
      res.Json(ErrorJson(MethodNotAllowed));
      return;
    }
    if req.body.None? {
      res.Status(500);
      res.Json(ErrorJson(SendFailed));
      return;
    }
    var b := req.body.value;
    if !FieldsPresent(b) {
      res.Status(400);
      res.Json(ErrorJson(MissingFields));
      return;
    }
    var message := CreateTelegramMessage(b.name, b.email, b.score, b.total, b.percentage, b.results,
                                         formatDate(b.timestamp));
    SendReport(res, api, token, chatId, message, Summary(b.name, b.score, b.total, b.percentage));
  }

  /** Sends the report and then the summary, stopping at the first rejection, and answers. */
  method SendReport(res: Response, api: Telegram, token: string, chatId: string, message: Option<string>, summary: string)
    requires !res.finished
    modifies res, api
    ensures var n := |old(api.sent)|;
            var o := Deliver(token, chatId, message, summary, n !in api.failsOn, n + 1 !in api.failsOn);
            && res.statusCode == o.status && res.payload == o.payload && res.finished
            && api.sent == old(api.sent) + o.sent
  {
    if message.None? {
      res.Status(500);
      res.Json(ErrorJson(SendFailed));
      return;
    }
    var ok := api.SendMessage(token, chatId, message.value, "HTML");
    if !ok {
      res.Status(500);
      res.Json(ErrorJson(SendFailed));
      return;
    }
    ok := api.SendMessage(token, chatId, summary, "HTML");
    if !ok {
      res.Status(500);
      res.Json(ErrorJson(SendFailed));
      return;
    }
    res.Status(200);
    res.Json(SuccessJson(true, ReportSent));
  }

  // ---------------------------------------------------------------------------
  // Properties of the handler

  /** A preflight request is answered 200 with no body and sends nothing. */
  lemma Preflight(req: Request, token: string, chatId: string, formatDate: JsValue -> string, firstOk: bool, secondOk: bool)
    requires req.verb == "OPTIONS"
    ensures Handle(req, token, chatId, formatDate, firstOk, secondOk) == Outcome(200, NoBody, [])
  {
  }

  /** Any method but OPTIONS and POST is refused with 405 and sends nothing. */
  lemma OnlyPost(req: Request, token: string, chatId: string, formatDate: JsValue -> string, firstOk: bool, secondOk: bool)
    ensures var o := Handle(req, token, chatId, formatDate, firstOk, secondOk);
            o.status == 405 <==> req.verb != "OPTIONS" && req.verb != "POST"
    ensures var o := Handle(req, token, chatId, formatDate, firstOk, secondOk);
            o.status == 405 ==> o.payload == JsonPayload(ErrorJson(MethodNotAllowed)) && o.sent == []
  {
  }

  /** A POST with a body is refused with 400 exactly when the validation fails, and then nothing is sent. */
  lemma Validation(req: Request, token: string, chatId: string, formatDate: JsValue -> string, firstOk: bool, secondOk: bool)
    requires req.verb == "POST" && req.body.Some?
    ensures var o := Handle(req, token, chatId, formatDate, firstOk, secondOk);
            o.status == 400 <==> !FieldsPresent(req.body.value)
    ensures var o := Handle(req, token, chatId, formatDate, firstOk, secondOk);
            o.status == 400 ==> o.payload == JsonPayload(ErrorJson(MissingFields)) && o.sent == []
  {
  }

  /** A score of 0, and even a null score, passes the check; a total of 0 does not. */
  lemma ValidationEdges(b: Body)
    requires !IsFalsy(b.name) && !IsFalsy(b.email)
    ensures b.total.Num? && b.total.n != 0 && (b.score == Num(0) || b.score == Null) ==> FieldsPresent(b)
    ensures b.total == Num(0) || b.total == Str("") || b.total == Null ==> !FieldsPresent(b)
    ensures b.score.Undefined? ==> !FieldsPresent(b)
  {
  }

  /** After validation at most two messages go out, in HTML mode: the report, then the summary. */
  lemma DeliverSends(token: string, chatId: string, message: Option<string>, summary: string, firstOk: bool, secondOk: bool)
    ensures var o := Deliver(token, chatId, message, summary, firstOk, secondOk);
            && |o.sent| <= 2
            && (forall m :: m in o.sent ==> m.token == token && m.chatId == chatId && m.parseMode == "HTML")
            && (|o.sent| >= 1 ==> message == Some(o.sent[0].text))
            && (|o.sent| == 2 ==> o.sent[1].text == summary)
  {
  }

  /**
   * At most two messages are sent, both to the configured chat with the
   * configured token and in HTML mode: the report first, then the summary.
   */
  lemma SendOrder(req: Request, token: string, chatId: string, formatDate: JsValue -> string, firstOk: bool, secondOk: bool)
    ensures var o := Handle(req, token, chatId, formatDate, firstOk, secondOk);
            && |o.sent| <= 2
            && (forall m :: m in o.sent ==> m.token == token && m.chatId == chatId && m.parseMode == "HTML")
    ensures var o := Handle(req, token, chatId, formatDate, firstOk, secondOk);
            |o.sent| >= 1 ==>
              && req.verb == "POST" && req.body.Some? && FieldsPresent(req.body.value)
              && var b := req.body.value;
                 && Some(o.sent[0].text)
                    == TelegramMessage(b.name, b.email, b.score, b.total, b.percentage, b.results, formatDate(b.timestamp))
                 && (|o.sent| == 2 ==> o.sent[1].text == Summary(b.name, b.score, b.total, b.percentage))
  {
    if req.verb == "POST" && req.body.Some? && FieldsPresent(req.body.value) {
      var b := req.body.value;
      DeliverSends(token, chatId,
                   TelegramMessage(b.name, b.email, b.score, b.total, b.percentage, b.results, formatDate(b.timestamp)),
                   Summary(b.name, b.score, b.total, b.percentage), firstOk, secondOk);
    }
  }

  /** When the report is rejected the summary is never attempted. */
  lemma FirstFailureStops(req: Request, token: string, chatId: string, formatDate: JsValue -> string, secondOk: bool)
    ensures var o := Handle(req, token, chatId, formatDate, false, secondOk);
            |o.sent| <= 1 && (|o.sent| == 1 ==> o.status == 500)
  {
  }

  /**
   * A POST is answered 200 exactly when both messages went out and were
   * accepted; every failure after the method checks, other than validation, is
   * the same 500 reply.
   */
  lemma SuccessIffBothSent(req: Request, token: string, chatId: string, formatDate: JsValue -> string, firstOk: bool, secondOk: bool)
    requires req.verb == "POST"
    ensures var o := Handle(req, token, chatId, formatDate, firstOk, secondOk);
            o.status == 200 <==> |o.sent| == 2 && firstOk && secondOk
    ensures var o := Handle(req, token, chatId, formatDate, firstOk, secondOk);
            o.status == 200 ==> o.payload == JsonPayload(SuccessJson(true, ReportSent))
    ensures var o := Handle(req, token, chatId, formatDate, firstOk, secondOk);
            o.status != 200 && o.status != 400 ==> o == Failure(o.sent)
  {
  }

  /** The only status codes the handler produces. */
  lemma StatusCodes(req: Request, token: string, chatId: string, formatDate: JsValue -> string, firstOk: bool, secondOk: bool)
    ensures Handle(req, token, chatId, formatDate, firstOk, secondOk).status in {200, 400, 405, 500}
  {
  }
}
