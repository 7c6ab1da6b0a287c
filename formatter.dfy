/**
 * The report formatter: the three-tier classification, the per-tense and
 * per-question breakdowns, the detailed report and the one-line summary.
 */
module Formatter {
  import opened Wrappers
  import opened Js
  import opened Submission
  import opened TenseStats

  // ---------------------------------------------------------------------------
  // The pictographs of the messages

  const Memo: char := '\U{1F4DD}'
  const BustInSilhouette: char := '\U{1F464}'
  const BarChart: char := '\U{1F4CA}'
  const ChartIncreasing: char := '\U{1F4C8}'
  const Clipboard: char := '\U{1F4CB}'
  const Trophy: char := '\U{1F3C6}'
  const GlowingStar: char := '\U{1F31F}'
  const ThumbsUp: char := '\U{1F44D}'
  const Books: char := '\U{1F4DA}'
  const FlexedBiceps: char := '\U{1F4AA}'
  const CheckMark: char := '\U{2705}'
  const CrossMark: char := '\U{274C}'
  const Bullet: char := '\U{2022}'

  // ---------------------------------------------------------------------------
  // Classification

  datatype Tier = Excellent | GoodJob | FairAttempt | NeedsPractice

  /** Higher is better. */
  function Rank(t: Tier): nat {
    match t
    case Excellent => 3
    case GoodJob => 2
    case FairAttempt => 1
    case NeedsPractice => 0
  }

  /** The tier of a percentage: inclusive lower bounds 90, 75 and 60. */
  function TierOf(percentage: JsValue): Tier {
    if AtLeast(percentage, 90) then Excellent
    else if AtLeast(percentage, 75) then GoodJob
    else if AtLeast(percentage, 60) then FairAttempt
    else NeedsPractice
  }

  function StatusLabel(t: Tier): string {
    match t
    case Excellent => [GlowingStar] + " Excellent!"
    case GoodJob => [ThumbsUp] + " Good job!"
    case FairAttempt => [Books] + " Fair attempt"
    case NeedsPractice => [FlexedBiceps] + " Needs practice"
  }

  function FeedbackText(t: Tier): string {
    match t
    case Excellent => "Outstanding! You have mastered all future tenses. Ready for advanced topics!"
    case GoodJob => "Very good! You understand most concepts well. Focus on the questions you missed."
    case FairAttempt => "Good effort! Review the explanations for incorrect answers and try again."
    case NeedsPractice => "Keep practicing! Study each tense carefully and take the test again."
  }

  /** The status line of the report, with its own chain of comparisons. */
  function PerformanceMessage(percentage: JsValue): (status: string)
    ensures status == StatusLabel(TierOf(percentage))
  {
    if AtLeast(percentage, 90) then StatusLabel(Excellent)
    else if AtLeast(percentage, 75) then StatusLabel(GoodJob)
    else if AtLeast(percentage, 60) then StatusLabel(FairAttempt)
    else StatusLabel(NeedsPractice)
  }

  /** The closing assessment of the report, with its own chain of comparisons. */
  function DetailedFeedback(percentage: JsValue): (text: string)
    ensures text == FeedbackText(TierOf(percentage))
  {
    if AtLeast(percentage, 90) then FeedbackText(Excellent)
    else if AtLeast(percentage, 75) then FeedbackText(GoodJob)
    else if AtLeast(percentage, 60) then FeedbackText(FairAttempt)
    else FeedbackText(NeedsPractice)
  }

  lemma TierBands(p: int)
    ensures TierOf(Num(p)) == Excellent <==> 90 <= p
    ensures TierOf(Num(p)) == GoodJob <==> 75 <= p < 90
    ensures TierOf(Num(p)) == FairAttempt <==> 60 <= p < 75
    ensures TierOf(Num(p)) == NeedsPractice <==> p < 60
  {
  }

  lemma TierMonotone(p: int, q: int)
    requires p <= q
    ensures Rank(TierOf(Num(p))) <= Rank(TierOf(Num(q)))
  {
  }

  /** A percentage that is not a number falls to the lowest tier. */
  lemma NonNumericTier(percentage: JsValue)
    requires !percentage.Num?
    ensures TierOf(percentage) == NeedsPractice
  {
  }

  // ---------------------------------------------------------------------------
  // Lines of figures "a/b (p%)" and reading them back

  /** The figures at the end of a category line or of the summary. */
  datatype Figures = Figures(head: string, first: nat, second: nat, percent: nat)

  /** Splits `head + a + "/" + b` into its head and its two numbers. */
  function ReadFraction(s: string): Option<(string, nat, nat)> {
    match SplitNumber(s)
    case None => None
    case Some((s1, b)) =>
      match DropSuffix(s1, "/")
      case None => None
      case Some(s2) =>
        match SplitNumber(s2)
        case None => None
        case Some((head, a)) => Some((head, a, b))
  }

  /** Splits `head + a + "/" + b + " (" + p + "%)"` into its parts, with a, b and p numbers. */
  function ReadFigures(s: string): Option<Figures> {
    match DropSuffix(s, "%)")
    case None => None
    case Some(s1) =>
      match SplitNumber(s1)
      case None => None
      case Some((s2, p)) =>
        match DropSuffix(s2, " (")
        case None => None
        case Some(s3) =>
          match ReadFraction(s3)
          case None => None
          case Some((head, a, b)) => Some(Figures(head, a, b, p))
  }

  lemma ReadFractionOf(head: string, a: nat, b: nat)
    requires head == [] || !IsDigit(head[|head| - 1])
    ensures ReadFraction(head + NatDigits(a) + "/" + NatDigits(b)) == Some((head, a, b))
  {
    var x2 := head + NatDigits(a);
    var x1 := x2 + "/";
    assert SplitNumber(x1 + NatDigits(b)) == Some((x1, b)) by {
      assert x1[|x1| - 1] == '/';
      SplitNumberOf(x1, b);
    }
    assert DropSuffix(x1, "/") == Some(x2) by { DropSuffixOf(x2, "/"); }
    assert SplitNumber(x2) == Some((head, a)) by { SplitNumberOf(head, a); }
  }

  lemma ReadFiguresOf(head: string, a: nat, b: nat, p: nat)
    requires head == [] || !IsDigit(head[|head| - 1])
    ensures ReadFigures(head + NatDigits(a) + "/" + NatDigits(b) + " (" + NatDigits(p) + "%)")
         == Some(Figures(head, a, b, p))
  {
    var x3 := head + NatDigits(a) + "/" + NatDigits(b);
    var x2 := x3 + " (";
    var x1 := x2 + NatDigits(p);
    assert DropSuffix(x1 + "%)", "%)") == Some(x1) by { DropSuffixOf(x1, "%)"); }
    assert SplitNumber(x1) == Some((x2, p)) by {
      assert x2[|x2| - 1] == '(';
      SplitNumberOf(x2, p);
    }
    assert DropSuffix(x2, " (") == Some(x3) by { DropSuffixOf(x3, " ("); }
    ReadFractionOf(head, a, b);
  }

  // ---------------------------------------------------------------------------
  // Performance by tense

  /** `Math.round(correct / total * 100)` on exact numbers: the nearest integer, halves rounded up. */
  function RoundPercent(correct: nat, total: nat): (r: nat)
    requires 1 <= total && correct <= total
    ensures r <= 100
  {
    (200 * correct + total) / (2 * total)
  }

  /** The rounded percentage is within half a unit of `100 * correct / total`, halves going up. */
  lemma RoundPercentNearest(correct: nat, total: nat)
    requires 1 <= total && correct <= total
    ensures var r := RoundPercent(correct, total);
            2 * total * r - total <= 200 * correct < 2 * total * r + total
  {
  }

  /** Only one integer is within half a unit of `100 * correct / total`, with halves going up. */
  lemma RoundPercentUnique(correct: nat, total: nat, r: int)
    requires 1 <= total && correct <= total
    requires 2 * total * r - total <= 200 * correct < 2 * total * r + total
    ensures r == RoundPercent(correct, total)
  {
    var q := RoundPercent(correct, total);
    RoundPercentNearest(correct, total);
    // both lie in the same half-open interval of width 2 * total
    assert 2 * total * r - 2 * total * q < 2 * total;
    assert 2 * total * q - 2 * total * r < 2 * total;
    ScaledGapBelowOne(2 * total, r - q);
    ScaledGapBelowOne(2 * total, q - r);
  }

  lemma ScaledGapBelowOne(m: int, d: int)
    requires 0 < m && m * d < m
    ensures d < 1
  {
  }

  /** The display name of a tense code; unknown codes are shown as they are. */
  function DisplayName(code: string): string {
    if code == "PC" then "Present Continuous"
    else if code == "GT" then "Going To"
    else if code == "WL" then "Will"
    else if code == "PS" then "Present Simple"
    else code
  }

  lemma DisplayNameLookup(code: string)
    ensures code == "PC" ==> DisplayName(code) == "Present Continuous"
    ensures code == "GT" ==> DisplayName(code) == "Going To"
    ensures code == "WL" ==> DisplayName(code) == "Will"
    ensures code == "PS" ==> DisplayName(code) == "Present Simple"
    ensures code !in ["PC", "GT", "WL", "PS"] ==> DisplayName(code) == code
  {
  }

  predicate ValidCounts(n: Counts) {
    1 <= n.total && n.correct <= n.total
  }

  /** One line of the per-tense section: "name: correct/total (percent%)". */
  function CategoryLine(code: string, n: Counts): string
    requires ValidCounts(n)
  {
    DisplayName(code) + ": " + NatDigits(n.correct) + "/" + NatDigits(n.total)
      + " (" + NatDigits(RoundPercent(n.correct, n.total)) + "%)"
  }

  /** A category line reads back as its display name, its two counts and its percentage. */
  lemma CategoryLineFigures(code: string, n: Counts)
    requires ValidCounts(n)
    ensures ReadFigures(CategoryLine(code, n))
         == Some(Figures(DisplayName(code) + ": ", n.correct, n.total, RoundPercent(n.correct, n.total)))
  {
    ReadFiguresOf(DisplayName(code) + ": ", n.correct, n.total, RoundPercent(n.correct, n.total));
  }

  predicate AllValid(keys: seq<string>, counts: map<string, Counts>) {
    forall i :: 0 <= i < |keys| ==> keys[i] in counts && ValidCounts(counts[keys[i]])
  }

  /** One line per key, in key order. */
  function CategoryLines(keys: seq<string>, counts: map<string, Counts>): (lines: seq<string>)
    requires AllValid(keys, counts)
    ensures |lines| == |keys|
    ensures forall i :: 0 <= i < |keys| ==> lines[i] == CategoryLine(keys[i], counts[keys[i]])
  {
    if keys == [] then []
    else CategoryLines(keys[..|keys| - 1], counts) + [CategoryLine(keys[|keys| - 1], counts[keys[|keys| - 1]])]
  }

  /** `lines.join(sep)`. */
  function Join(lines: seq<string>, sep: string): (s: string)
    ensures lines == [] ==> s == []
    ensures |lines| == 1 ==> s == lines[0]
  {
    if lines == [] then []
    else if |lines| == 1 then lines[0]
    else Join(lines[..|lines| - 1], sep) + sep + lines[|lines| - 1]
  }

  /** The per-tense section of the report. */
  function TenseBreakdown(t: Tally): string
    requires WellFormed(t)
  {
    Join(CategoryLines(t.order, t.counts), "\n")
  }

  // ---------------------------------------------------------------------------
  // Per-question breakdown

  function Icon(isCorrect: bool): char {
    if isCorrect then CheckMark else CrossMark
  }

  /** `text.substring(0, 50)`: the first fifty characters, or all of a shorter text. */
  function Truncate(text: string): (shown: string)
    ensures |text| <= 50 ==> shown == text
    ensures |text| > 50 ==> |shown| == 50
    ensures shown <= text
  {
    if |text| <= 50 then text else text[..50]
  }

  predicate AllTexts(rs: seq<AnswerResult>) {
    forall i :: 0 <= i < |rs| ==> rs[i].questionText.Str?
  }

  /** The header of a question line: icon, " Q", the question's number and ": ". */
  function QuestionHeader(isCorrect: bool, number: nat): string {
    [Icon(isCorrect)] + " Q" + NatDigits(number) + ": "
  }

  /** The rest of a question's entry: the chosen and the correct answer. */
  function AnswersLine(r: AnswerResult): string {
    "\n   Your answer: \"" + Display(r.selected) + "\" | Correct: \"" + Display(r.correct) + "\"\n"
  }

  /** The lines of one answered question; the ellipsis is appended even to short texts. */
  function QuestionLine(r: AnswerResult, number: nat): string
    requires r.questionText.Str?
  {
    QuestionHeader(r.isCorrect, number) + Truncate(r.questionText.s) + "..." + AnswersLine(r)
  }

  /** Reads the correctness and the number back from the head of a question line. */
  function ReadHeader(line: string): Option<(bool, nat)> {
    if |line| < 3 || (line[0] != CheckMark && line[0] != CrossMark) || line[1..3] != " Q" then None
    else
      var digits := LeadingDigits(line[3..]);
      if digits == [] || 3 + |digits| == |line| || line[3 + |digits|] != ':' then None
      else Some((line[0] == CheckMark, DigitsValue(digits)))
  }

  /** The icon of a question line is the check mark exactly when the answer is correct, and its number reads back. */
  lemma QuestionLineHeader(r: AnswerResult, number: nat)
    requires r.questionText.Str?
    ensures ReadHeader(QuestionLine(r, number)) == Some((r.isCorrect, number))
  {
    var tail := QuestionLine(r, number)[|QuestionHeader(r.isCorrect, number)|..];
    assert QuestionLine(r, number) == QuestionHeader(r.isCorrect, number) + tail;
    ReadHeaderOf(r.isCorrect, number, tail);
  }

  lemma ReadHeaderOf(isCorrect: bool, number: nat, tail: string)
    ensures ReadHeader(QuestionHeader(isCorrect, number) + tail) == Some((isCorrect, number))
  {
    var line := QuestionHeader(isCorrect, number) + tail;
    var D := NatDigits(number);
    var rest := ": " + tail;
    assert line == [Icon(isCorrect)] + " Q" + (D + rest);
    assert line[3..] == D + rest;
    LeadingDigitsOf(D, rest);
    NatDigitsRoundTrip(number);
  }

  /** Right after the header, a question line shows the truncated text followed by "...". */
  lemma QuestionLineText(r: AnswerResult, number: nat)
    requires r.questionText.Str?
    ensures PlacedAt(QuestionLine(r, number), Truncate(r.questionText.s) + "...", |QuestionHeader(r.isCorrect, number)|)
  {
    PlacedInMiddle(QuestionHeader(r.isCorrect, number) + Truncate(r.questionText.s), "...", AnswersLine(r));
  }

  /** One line per answer, in input order, numbered from 1. */
  function QuestionLines(rs: seq<AnswerResult>): (lines: seq<string>)
    requires AllTexts(rs)
    ensures |lines| == |rs|
    ensures forall i :: 0 <= i < |rs| ==> lines[i] == QuestionLine(rs[i], i + 1)
  {
    if rs == [] then []
    else QuestionLines(rs[..|rs| - 1]) + [QuestionLine(rs[|rs| - 1], |rs|)]
  }

  function QuestionBreakdown(rs: seq<AnswerResult>): string
    requires AllTexts(rs)
  {
    Join(QuestionLines(rs), "\n")
  }

  // ---------------------------------------------------------------------------
  // The detailed report and the summary

  /** The variable parts of the detailed report, already rendered as text. */
  datatype Report = Report(
    name: string,
    email: string,
    date: string,
    score: string,
    total: string,
    percentage: string,
    status: string,
    byTense: string,
    breakdown: string,
    assessment: string)

  /** The sections of the report; `date` is the locale rendering of the timestamp. */
  function BuildReport(name: JsValue, email: JsValue, score: JsValue, total: JsValue, percentage: JsValue,
                       rs: seq<AnswerResult>, date: string): (rep: Report)
    requires AllTexts(rs)
    ensures rep.status == StatusLabel(TierOf(percentage))
    ensures rep.assessment == FeedbackText(TierOf(percentage))
    ensures rs == [] ==> rep.byTense == [] && rep.breakdown == []
  {
    TallyWellFormed(rs);
    ReportWith(name, email, score, total, percentage, rs, TallyOf(rs), date)
  }

  /** The sections of the report, given the tally of the answers. */
  function ReportWith(name: JsValue, email: JsValue, score: JsValue, total: JsValue, percentage: JsValue,
                      rs: seq<AnswerResult>, t: Tally, date: string): Report
    requires AllTexts(rs) && WellFormed(t)
  {
    Report(Display(name), Display(email), date, Display(score), Display(total), Display(percentage),
           PerformanceMessage(percentage), TenseBreakdown(t), QuestionBreakdown(rs), DetailedFeedback(percentage))
  }

  /** The report up to the status label. */
  function ReportHead(rep: Report): string {
    "\n" + [Memo] + " <b>NEW TEST SUBMISSION</b>\n\n" + [BustInSilhouette] + " <b>Student Information:</b>\n"
      + [Bullet] + " Name: " + rep.name + "\n" + [Bullet] + " Email: " + rep.email
      + "\n" + [Bullet] + " Date: " + rep.date
      + "\n\n" + [BarChart] + " <b>Results:</b>\n" + [Bullet] + " Score: " + rep.score + "/" + rep.total
      + "\n" + [Bullet] + " Percentage: " + rep.percentage + "%\n" + [Bullet] + " Status: "
  }

  const TenseHeading := "\n\n" + [ChartIncreasing] + " <b>Performance by Tense:</b>\n"
  const BreakdownHeading := "\n\n" + [Clipboard] + " <b>Detailed Breakdown:</b>\n"
  const AssessmentHeading := "\n\n" + [Trophy] + " <b>Overall Assessment:</b>\n"

  /** The text of the detailed report. */
  function Render(rep: Report): string {
    ReportHead(rep) + rep.status + TenseHeading + rep.byTense + BreakdownHeading + rep.breakdown
      + AssessmentHeading + rep.assessment + "\n"
  }

  /** `part` occurs in `s` starting at index `at`. */
  predicate PlacedAt(s: string, part: string, at: nat) {
    at + |part| <= |s| && forall i :: 0 <= i < |part| ==> s[at + i] == part[i]
  }

  lemma PlacedInMiddle(a: string, part: string, b: string)
    ensures PlacedAt(a + part + b, part, |a|)
  {
  }

  /** Where the parts `a`, `b`, `c` and `d` lie in `p + a + m1 + b + m2 + c + m3 + d + e`. */
  lemma PartsInOrder(p: string, a: string, m1: string, b: string, m2: string, c: string, m3: string, d: string, e: string)
    returns (i: nat, j: nat, k: nat, l: nat)
    ensures var s := p + a + m1 + b + m2 + c + m3 + d + e;
            && i == |p| && j == i + |a| + |m1| && k == j + |b| + |m2| && l == k + |c| + |m3|
            && PlacedAt(s, a, i) && PlacedAt(s, b, j) && PlacedAt(s, c, k) && PlacedAt(s, d, l)
            && PlacedAt(s, m3, l - |m3|)
  {
    i, j, k, l := |p|, |p| + |a| + |m1|, |p| + |a| + |m1| + |b| + |m2|, |p| + |a| + |m1| + |b| + |m2| + |c| + |m3|;
  }

  /** The status, the per-tense section, the question breakdown and the assessment appear in this order. */
  lemma SectionsInOrder(rep: Report) returns (i: nat, j: nat, k: nat, l: nat)
    ensures PlacedAt(Render(rep), rep.status, i)
    ensures i + |rep.status| < j && PlacedAt(Render(rep), rep.byTense, j)
    ensures j + |rep.byTense| < k && PlacedAt(Render(rep), rep.breakdown, k)
    ensures k + |rep.breakdown| < l && PlacedAt(Render(rep), rep.assessment, l)
    ensures |AssessmentHeading| <= l && PlacedAt(Render(rep), AssessmentHeading, l - |AssessmentHeading|)
  {
    i, j, k, l := PartsInOrder(ReportHead(rep), rep.status, TenseHeading, rep.byTense, BreakdownHeading,
                               rep.breakdown, AssessmentHeading, rep.assessment, "\n");
  }

  /** The detailed report, or None where the source would throw: `results` is not an array or a question text is not a string. */
  function TelegramMessage(name: JsValue, email: JsValue, score: JsValue, total: JsValue, percentage: JsValue,
                           results: Option<seq<AnswerResult>>, date: string): Option<string>
  {
    if results.Some? && AllTexts(results.value)
    then Some(Render(BuildReport(name, email, score, total, percentage, results.value, date)))
    else None
  }

  /** No report exactly when `results` is missing or one of the question texts is not a string. */
  lemma MessageFails(name: JsValue, email: JsValue, score: JsValue, total: JsValue, percentage: JsValue,
                     results: Option<seq<AnswerResult>>, date: string)
    ensures TelegramMessage(name, email, score, total, percentage, results, date) == None
        <==> results.None? || !AllTexts(results.value)
  {
  }

  /** Builds the detailed report, running the tally in place. */
  method CreateTelegramMessage(name: JsValue, email: JsValue, score: JsValue, total: JsValue, percentage: JsValue,
                               results: Option<seq<AnswerResult>>, date: string) returns (message: Option<string>)
    ensures message == TelegramMessage(name, email, score, total, percentage, results, date)
  {
    if results.Some? && AllTexts(results.value) {
      var rs := results.value;
      var order, counts := TallyByCategory(rs);
      TallyWellFormed(rs);
      var rep := ReportWith(name, email, score, total, percentage, rs, Tally(order, counts), date);
      assert rep == BuildReport(name, email, score, total, percentage, rs, date);
      message := Some(Render(rep));
    } else {
      MessageFails(name, email, score, total, percentage, results, date);
      message := None;
    }
  }

  const SummaryHead := [BarChart] + " <b>Quick Summary</b>\n"

  /** The one-line summary sent after the report. */
  function Summary(name: JsValue, score: JsValue, total: JsValue, percentage: JsValue): string {
    SummaryHead + Display(name) + " scored " + Display(score) + "/" + Display(total) + " (" + Display(percentage) + "%)"
  }

  /** With numeric score, total and percentage, the summary reads back as exactly those three figures. */
  lemma SummaryFigures(name: JsValue, score: nat, total: nat, percentage: nat)
    ensures ReadFigures(Summary(name, Num(score), Num(total), Num(percentage)))
         == Some(Figures(SummaryHead + Display(name) + " scored ", score, total, percentage))
  {
    ReadFiguresOf(SummaryHead + Display(name) + " scored ", score, total, percentage);
  }
}
