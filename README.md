# Quiz submission relay to Telegram — a Dafny model

The program is a serverless HTTP endpoint (`api/telegram.js`). A quiz front end
posts a student's result to it: name, email, score, total, percentage, the
per-question results and a timestamp. The endpoint answers CORS preflights and
refuses every method other than POST. It then checks that the required fields
are present and builds an HTML report. The report holds a status label picked
by percentage band, a per-tense tally, a per-question breakdown and a closing
assessment. The endpoint sends the report to a Telegram chat, then sends a
one-line summary, and answers 200. Any failure after validation is answered
500 with one fixed message.

The model is organised in these modules:

- `Js` (js.dfy): the primitive JavaScript values a field of a request body
  can hold. It models their truthiness and how `>=` compares them with a number. It also models how a
  template literal writes them, decimal digits included, and how those digits
  read back.
- `Submission` (submission.dfy): the request, its body and one answered question.
- `TenseStats` (tense_stats.dfy): the `reduce` that tallies answers per tense.
  - `TallyOf` is a specification fold.
  - `TallyByCategory` is the same tally built step by step, proved equal to it.
  - Lemmas state its invariants.
- `Formatter` (formatter.dfy): `createTelegramMessage`,
  `getPerformanceMessage`, `getDetailedFeedback` and the summary line.
- `Handler` (handler.dfy): the handler.
  - `Response` is the mutable response object.
  - `Telegram` stands for the Bot API. It logs every `sendMessage` call and
    rejects those whose position is in a fixed set.
  - `Handle` is the handler as a function of the request and of the two send
    outcomes.
  - `HandleRequest` is the imperative handler, proved to match `Handle`.

## Model

| member | source | states |
|---|---|---|
| Js.NatDigitsRoundTrip | api/telegram.js:81 | the decimal digits written for a count read back as that count |
| Js.DecimalRoundTrip | api/telegram.js:40 | `${n}` of any integer, sign included, reads back as `n` |
| TenseStats.Record | api/telegram.js:64-70 | one reduce step adds the answer's tense to the keys and adds at most one new key |
| TenseStats.TallyWellFormed | api/telegram.js:63-71 | the tally's keys are distinct and match the map, and every entry has 1 <= total and correct <= total |
| TenseStats.CountAnswer | api/telegram.js:64-70 | the in-place step (create the entry at 0/0, increment total, increment correct if correct) equals the reduce step |
| TenseStats.TallyByCategory | api/telegram.js:63-71 | the loop over the answers builds exactly the tally of the fold |
| TenseStats.CorrectOf | api/telegram.js:69 | the correct answers of a tense never exceed its answers |
| TenseStats.OccursIffCounted | api/telegram.js:65-66 | a tense has a nonzero count exactly when some answer carries it |
| TenseStats.TallyKeys | api/telegram.js:63-73 | a tense is a key of the tally exactly when some answer carries it |
| TenseStats.TallyEntries | api/telegram.js:68-69 | each entry holds the number of answers of that tense and the number of those answered correctly |
| TenseStats.TallyFirstAppearance | api/telegram.js:63-73 | the keys are ordered by the first answer that carries each tense |
| TenseStats.SumUpdate | api/telegram.js:68-69 | bumping one key's entry raises the sum over the keys by exactly that change |
| TenseStats.TallySums | api/telegram.js:63-71 | the totals add up to the number of answers and the corrects add up to the number of correct answers |
| Formatter.PerformanceMessage | api/telegram.js:109-114 | the status label is the label of the band at 90, 75 and 60 inclusive |
| Formatter.DetailedFeedback | api/telegram.js:116-126 | the assessment is the text of the same band, so it always agrees with the status label |
| Formatter.TierBands | api/telegram.js:109-126 | the four bands are exactly p >= 90, 75 <= p < 90, 60 <= p < 75 and p < 60 |
| Formatter.TierMonotone | api/telegram.js:109-126 | a higher percentage never gets a lower band |
| Formatter.NonNumericTier | api/telegram.js:109-126 | a missing or non-numeric percentage fails every comparison and gets the lowest band |
| Formatter.ReadFractionOf | api/telegram.js:81 | "head a/b" splits back into its head and the two counts |
| Formatter.ReadFiguresOf | api/telegram.js:81 | "head a/b (p%)" splits back into its head, the two counts and the percentage |
| Formatter.RoundPercent | api/telegram.js:81 | the rounded percentage lies in 0..100 |
| Formatter.RoundPercentNearest | api/telegram.js:81 | the percentage is within half a unit of 100 * correct / total, and halves round up |
| Formatter.RoundPercentUnique | api/telegram.js:81 | no other integer is within half a unit with halves going up, so `RoundPercent` is exactly the round-half-up of 100 * correct / total on exact numbers |
| Formatter.DisplayNameLookup | api/telegram.js:75-81 | PC, GT, WL and PS are shown by their names; any other code is shown as it is |
| Formatter.CategoryLineFigures | api/telegram.js:81 | a per-tense line is the display name, ": ", correct/total and the rounded percentage |
| Formatter.CategoryLines | api/telegram.js:73-82 | one line per tally key, in key order, each that key's line |
| Formatter.Join | api/telegram.js:83 | joining no lines gives the empty text, and joining one line gives that line |
| Formatter.Truncate | api/telegram.js:59 | a text of 50 characters or fewer is kept whole; a longer one is cut to its first 50 characters |
| Formatter.QuestionLineHeader | api/telegram.js:57-59 | a question line starts with the check mark exactly when the answer is correct, then its number |
| Formatter.ReadHeaderOf | api/telegram.js:59 | the icon and the number read back from the head of a question line |
| Formatter.QuestionLineText | api/telegram.js:59 | after the header comes the truncated text followed by "...", even when nothing was cut |
| Formatter.QuestionLines | api/telegram.js:57-60 | one entry per answer, in input order, the i-th numbered i + 1 |
| Formatter.BuildReport | api/telegram.js:50-107 | the status and the assessment come from the percentage's band; no answers give empty tense and question sections |
| Formatter.SectionsInOrder | api/telegram.js:85-106 | the report shows the status, the tense section, the question breakdown and, under its heading, the assessment, in that order |
| Formatter.MessageFails | api/telegram.js:57-59 | no report is built exactly when `results` is not an array or a question text is not a string |
| Formatter.CreateTelegramMessage | api/telegram.js:50-107 | the report built with the in-place tally is the specified report |
| Formatter.SummaryFigures | api/telegram.js:40 | with non-negative integer figures the summary ends in "score/total (percentage%)" and those figures read back |
| Handler.Response.Status | api/telegram.js:11 | sets the status code and nothing else |
| Handler.Response.Json | api/telegram.js:17 | writes the JSON body and finishes the response, keeping the status |
| Handler.Response.End | api/telegram.js:11 | finishes the response with no body, keeping the status |
| Handler.Telegram.SendMessage | api/telegram.js:37 | logs the call with its chat, text and parse mode; it succeeds unless that attempt is one the API rejects |
| Handler.HandleRequest | api/telegram.js:3-48 | the status, the body and the messages sent are those of `Handle` for the API's verdicts on the next two calls |
| Handler.SendReport | api/telegram.js:36-46 | sends the report and then the summary, stopping at the first rejection, and answers as `Deliver` does |
| Handler.Preflight | api/telegram.js:10-13 | OPTIONS is answered 200 with no body and sends nothing |
| Handler.OnlyPost | api/telegram.js:15-18 | the status is 405 exactly for methods other than OPTIONS and POST, with "Method not allowed" and nothing sent |
| Handler.Validation | api/telegram.js:23-26 | a POST with a body is answered 400 exactly when name, email or total is falsy or score is undefined, and then nothing is sent |
| Handler.ValidationEdges | api/telegram.js:24 | a score of 0 or null passes, a total of 0, "" or null fails, and an undefined score fails |
| Handler.DeliverSends | api/telegram.js:36-41 | after validation at most two messages go out, both HTML to the configured chat: the report first, the summary second |
| Handler.SendOrder | api/telegram.js:33-41 | over the whole handler, the first message is the built report and the second is the summary, and only valid POSTs send |
| Handler.FirstFailureStops | api/telegram.js:37-41 | when the report is rejected the summary is never attempted and the answer is 500 |
| Handler.SuccessIffBothSent | api/telegram.js:20-47 | a POST is answered 200 exactly when both messages were sent and accepted; every other non-400 answer is the one 500 reply |
| Handler.StatusCodes | api/telegram.js:3-48 | the handler answers only 200, 400, 405 or 500 |

## Left out

- The three CORS headers (lines 5-7) are not modelled. They are set identically on every path.
- The `console.error` call in the error path is not modelled. It is logging only.
- The real Telegram network call is not modelled. `Telegram` stands in for it with a fixed set of rejected attempts, and a rejected promise becomes a `false` result.
- `process.env` is not read. The bot token and the chat id are parameters. A missing variable shows up only as rejected sends.
- `new TelegramBot(token)` is not modelled as its own step. The token travels with each `Outgoing` call.
- `new Date(timestamp).toLocaleString(...)` depends on locale and time zone. It is the parameter `formatDate`.
- Object and array field values are not modelled. They are truthy, so they pass the field check, and `${v}` writes them through `toString` ("[object Object]", or the joined elements). An array percentage compares through its elements in `>=`, and an array or object question text makes `substring` throw. The "exactly when" claims of the validation lemmas hold for primitive field values.
- Numbers are modelled as integers. Fractional scores and percentages, NaN and Infinity are not modelled.
- Numbers of 1e21 or more would be written by JavaScript in exponent form. `Display` always writes full decimal digits.
- `>=` between a numeric string and a number is not modelled. JavaScript would convert the string; `AtLeast` treats every string as not a number.
- `substring` counts UTF-16 code units. `Truncate` counts Dafny characters, so a text with characters outside the Basic Multilingual Plane may be cut at a different place.
- `isCorrect` is taken as a boolean, and `type` as a string. A missing or non-string `type` would become the key "undefined" or a converted key.
- Keys that exist on every JavaScript object, such as "constructor", would make `!acc[type]` false. They are not modelled.
- `Object.entries` would list integer-like keys first. The model keeps insertion order for all keys.
- A `null` element inside `results` would throw on `r.isCorrect`. It is not modelled; the answers are records.
- Formatter.RoundPercent: floating-point rounding is not modelled. The code computes `correct/total*100` in doubles before `Math.round`, so a product just below a half rounds down. For example, 23/40 gives 57.49999999999999 and shows 57% in JavaScript, while the model's exact round-half-up gives 58%. The same happens for 29/200, which gives 14% in JavaScript and 15% in the model.
- Formatter.RoundPercent: division by a zero total cannot happen, because each tally entry has total >= 1. The model therefore requires total >= 1 and has no 0/0 case. The code itself has no guard for it.
