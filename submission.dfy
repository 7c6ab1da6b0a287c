/** The records a quiz front end posts: the submission body and its answers. */
module Submission {
  import opened Wrappers
  import opened Js

  /**
   * One answered question. `category` is the JSON field `type`, a tense code
   * such as "PC"; `questionText` must be a string for the report to be built.
   */
  datatype AnswerResult = AnswerResult(
    questionText: JsValue,
    selected: JsValue,
    correct: JsValue,
    isCorrect: bool,
    category: string)

  /** The destructured fields of the request body; `results` is None when it is not an array. */
  datatype Body = Body(
    name: JsValue,
    email: JsValue,
    score: JsValue,
    total: JsValue,
    percentage: JsValue,
    results: Option<seq<AnswerResult>>,
    timestamp: JsValue)

  /** An inbound HTTP request (`verb` is its method); `body` is None when it is undefined or null. */
  datatype Request = Request(verb: string, body: Option<Body>)
}
