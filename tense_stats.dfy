/**
 * The per-tense tally of a submission: for every category code, how many
 * answers had it and how many of those were correct, with the codes kept in
 * the order in which they first appear (the insertion order of a JavaScript
 * object's string keys).
 */
module TenseStats {
  import opened Submission

  datatype Counts = Counts(correct: nat, total: nat)

  /** The accumulator object: its keys in insertion order and the entry per key. */
  datatype Tally = Tally(order: seq<string>, counts: map<string, Counts>)

  predicate Distinct(xs: seq<string>) {
    forall i, j :: 0 <= i < j < |xs| ==> xs[i] != xs[j]
  }

  /** What every tally built from answers satisfies. */
  predicate WellFormed(t: Tally) {
    && Distinct(t.order)
    && (forall k :: k in t.order ==> k in t.counts)
    && (forall k :: k in t.counts ==> k in t.order)
    && (forall k :: k in t.counts ==> 1 <= t.counts[k].total && t.counts[k].correct <= t.counts[k].total)
  }

  const Empty := Tally([], map[])

  /** The reducer callback: create the entry if missing, count the answer, count it correct if it is. */
  function Record(t: Tally, r: AnswerResult): (u: Tally)
    ensures r.category in u.counts
    ensures |u.order| <= |t.order| + 1
    ensures (forall k :: k in t.order ==> k in t.counts) ==> (forall k :: k in u.order ==> k in u.counts)
  {
    var c := r.category;
    var prior := if c in t.counts then t.counts[c] else Counts(0, 0);
    var bumped := Counts(prior.correct + (if r.isCorrect then 1 else 0), prior.total + 1);
    Tally(if c in t.counts then t.order else t.order + [c], t.counts[c := bumped])
  }

  /** The tally of `rs`: `rs.reduce(Record, {})`; it has at most one key per answer, and an entry for each. */
  function TallyOf(rs: seq<AnswerResult>): (t: Tally)
    ensures |t.order| <= |rs|
    ensures forall k :: k in t.order ==> k in t.counts
  {
    if rs == [] then Empty else Record(TallyOf(rs[..|rs| - 1]), rs[|rs| - 1])
  }

  lemma RecordWellFormed(t: Tally, r: AnswerResult)
    requires WellFormed(t)
    ensures WellFormed(Record(t, r))
  {
  }

  /** Every tally is well formed: distinct keys, one entry per key, 1 <= total and correct <= total. */
  lemma {:induction false} TallyWellFormed(rs: seq<AnswerResult>)
    ensures WellFormed(TallyOf(rs))
  {
    if rs != [] {
      TallyWellFormed(rs[..|rs| - 1]);
      RecordWellFormed(TallyOf(rs[..|rs| - 1]), rs[|rs| - 1]);
    }
  }

  /** The reducer callback run on the accumulator in place. */
  method CountAnswer(order: seq<string>, counts: map<string, Counts>, r: AnswerResult)
    returns (order': seq<string>, counts': map<string, Counts>)
    ensures Tally(order', counts') == Record(Tally(order, counts), r)
  {
    order', counts' := order, counts;
    if r.category !in counts' {
      counts' := counts'[r.category := Counts(0, 0)];
      order' := order' + [r.category];
    }
    var entry := counts'[r.category];
    entry := entry.(total := entry.total + 1);
    if r.isCorrect {
      entry := entry.(correct := entry.correct + 1);
    }
    counts' := counts'[r.category := entry];
  }

  /** The reduce at the source: the tally of all answers, in input order. */
  method TallyByCategory(rs: seq<AnswerResult>) returns (order: seq<string>, counts: map<string, Counts>)
    ensures Tally(order, counts) == TallyOf(rs)
  {
    order, counts := [], map[];
    var i := 0;
    while i < |rs|
      invariant 0 <= i <= |rs|
      invariant Tally(order, counts) == TallyOf(rs[..i])
    {
      order, counts := CountAnswer(order, counts, rs[i]);
      assert rs[..i + 1][..i] == rs[..i];
      i := i + 1;
    }
    assert rs[..i] == rs;
  }

  // ---------------------------------------------------------------------------
  // An independent description of the tally, by counting

  /** How many answers have category `c`. */
  function CountOf(rs: seq<AnswerResult>, c: string): nat {
    if rs == [] then 0
    else CountOf(rs[..|rs| - 1], c) + (if rs[|rs| - 1].category == c then 1 else 0)
  }

  /** How many answers have category `c` and are correct. */
  function CorrectOf(rs: seq<AnswerResult>, c: string): (n: nat)
    ensures n <= CountOf(rs, c)
  {
    if rs == [] then 0
    else CorrectOf(rs[..|rs| - 1], c) + (if rs[|rs| - 1].category == c && rs[|rs| - 1].isCorrect then 1 else 0)
  }

  /** How many answers are correct. */
  function NumCorrect(rs: seq<AnswerResult>): nat {
    if rs == [] then 0
    else NumCorrect(rs[..|rs| - 1]) + (if rs[|rs| - 1].isCorrect then 1 else 0)
  }

  predicate Occurs(rs: seq<AnswerResult>, c: string) {
    exists i :: 0 <= i < |rs| && rs[i].category == c
  }

  /** Some answer of category `a` comes before every answer of category `b`. */
  predicate AppearsBefore(rs: seq<AnswerResult>, a: string, b: string) {
    exists k :: 0 <= k < |rs| && rs[k].category == a && forall m :: 0 <= m <= k ==> rs[m].category != b
  }

  lemma {:induction false} OccursIffCounted(rs: seq<AnswerResult>, c: string)
    ensures Occurs(rs, c) <==> CountOf(rs, c) > 0
  {
    if rs != [] {
      var p := rs[..|rs| - 1];
      OccursIffCounted(p, c);
      if Occurs(p, c) {
        var i :| 0 <= i < |p| && p[i].category == c;
        assert rs[i].category == c;
      }
      if Occurs(rs, c) && rs[|rs| - 1].category != c {
        var i :| 0 <= i < |rs| && rs[i].category == c;
        assert p[i].category == c;
      }
    }
  }

  /** The keys of the tally are exactly the codes that occur among the answers. */
  lemma TallyKeys(rs: seq<AnswerResult>, c: string)
    ensures c in TallyOf(rs).order <==> Occurs(rs, c)
  {
    TallyWellFormed(rs);
    TallyEntries(rs, c);
    OccursIffCounted(rs, c);
  }

  lemma {:induction false} TallyEntries(rs: seq<AnswerResult>, c: string)
    ensures c in TallyOf(rs).counts <==> CountOf(rs, c) > 0
    ensures c in TallyOf(rs).counts ==> TallyOf(rs).counts[c] == Counts(CorrectOf(rs, c), CountOf(rs, c))
  {
    if rs != [] {
      TallyEntries(rs[..|rs| - 1], c);
    }
  }

  lemma {:induction false} TallyFirstAppearance(rs: seq<AnswerResult>, i: nat, j: nat)
    requires i < j < |TallyOf(rs).order|
    ensures AppearsBefore(rs, TallyOf(rs).order[i], TallyOf(rs).order[j])
  {
    var p := rs[..|rs| - 1];
    var r := rs[|rs| - 1];
    var order, prior := TallyOf(rs).order, TallyOf(p).order;
    assert order == if r.category in TallyOf(p).counts then prior else prior + [r.category];
    var a, b := order[i], order[j];
    if j < |prior| {
      assert a == prior[i] && b == prior[j];
      TallyFirstAppearance(p, i, j);
      var k :| 0 <= k < |p| && p[k].category == a && forall m :: 0 <= m <= k ==> p[m].category != b;
      assert rs[k].category == a && forall m :: 0 <= m <= k ==> rs[m].category != b;
    } else {
      // b is the code of the last answer, met here for the first time
      assert b == r.category && b !in TallyOf(p).counts && a == prior[i];
      assert Occurs(p, a) by { TallyKeys(p, a); }
      assert !Occurs(p, b) by {
        TallyEntries(p, b);
        OccursIffCounted(p, b);
      }
      var k :| 0 <= k < |p| && p[k].category == a;
      forall m | 0 <= m <= k ensures rs[m].category != b {
        assert rs[m] == p[m];
      }
    }
  }

  // ---------------------------------------------------------------------------
  // Sums over the entries, in key order

  /** The sum of `field` over the entries of `keys`. */
  function Sum(keys: seq<string>, counts: map<string, Counts>, field: Counts -> nat): nat
    requires forall k :: k in keys ==> k in counts
  {
    if keys == [] then 0
    else Sum(keys[..|keys| - 1], counts, field) + field(counts[keys[|keys| - 1]])
  }

  lemma {:induction false} SumAgree(keys: seq<string>, m1: map<string, Counts>, m2: map<string, Counts>, field: Counts -> nat)
    requires forall k :: k in keys ==> k in m1 && k in m2 && m1[k] == m2[k]
    ensures Sum(keys, m1, field) == Sum(keys, m2, field)
  {
    if keys != [] {
      SumAgree(keys[..|keys| - 1], m1, m2, field);
    }
  }

  lemma {:induction false} SumUpdate(keys: seq<string>, counts: map<string, Counts>, c: string, v: Counts, field: Counts -> nat)
    requires Distinct(keys) && c in keys
    requires forall k :: k in keys ==> k in counts
    ensures Sum(keys, counts[c := v], field) + field(counts[c]) == Sum(keys, counts, field) + field(v)
  {
    var p := keys[..|keys| - 1];
    var x := keys[|keys| - 1];
    if x == c {
      assert c !in p;
      SumAgree(p, counts[c := v], counts, field);
    } else {
      assert c in p by {
        var i :| 0 <= i < |keys| && keys[i] == c;
        assert p[i] == c;
      }
      SumUpdate(p, counts, c, v, field);
    }
  }

  function TotalOf(c: Counts): nat { c.total }
  function CorrectCount(c: Counts): nat { c.correct }

  lemma {:induction false} TallySums(rs: seq<AnswerResult>)
    ensures Sum(TallyOf(rs).order, TallyOf(rs).counts, TotalOf) == |rs|
    ensures Sum(TallyOf(rs).order, TallyOf(rs).counts, CorrectCount) == NumCorrect(rs)
  {
    if rs != [] {
      var p := rs[..|rs| - 1];
      var r := rs[|rs| - 1];
      var pt, t := TallyOf(p), TallyOf(rs);
      TallySums(p);
      TallyWellFormed(p);
      var c := r.category;
      if c in pt.counts {
        SumUpdate(pt.order, pt.counts, c, t.counts[c], TotalOf);
        SumUpdate(pt.order, pt.counts, c, t.counts[c], CorrectCount);
      } else {
        SumAgree(pt.order, t.counts, pt.counts, TotalOf);
        SumAgree(pt.order, t.counts, pt.counts, CorrectCount);
        assert t.order[..|t.order| - 1] == pt.order;
      }
    }
  }
}
