/**
 * The primitive JavaScript values a field of a JSON request body can hold,
 * their truthiness, and how a template literal `${v}` renders them.
 * Numbers are integers in this model; objects and arrays are not modelled.
 */
module Js {
  import opened Wrappers

  datatype JsValue = Undefined | Null | Bool(b: bool) | Num(n: int) | Str(s: string)

  /** `!v` in JavaScript: undefined, null, false, 0 and "" are falsy. */
  predicate IsFalsy(v: JsValue) {
    match v
    case Undefined => true
    case Null => true
    case Bool(b) => !b
    case Num(n) => n == 0
    case Str(s) => s == ""
  }

  /** The relational comparison `v >= k`: the value is converted to a number first. */
  predicate AtLeast(v: JsValue, k: int) {
    match v
    case Num(n) => n >= k
    case Null => 0 >= k
    case Bool(b) => (if b then 1 else 0) >= k
    // undefined converts to NaN, and NaN >= k is false
    case Undefined => false
    // numeric strings are not converted in this model
    case Str(_) => false
  }

  predicate IsDigit(c: char) {
    '0' <= c <= '9'
  }

  predicate AllDigits(s: string) {
    forall i :: 0 <= i < |s| ==> IsDigit(s[i])
  }

  function DigitChar(d: nat): (c: char)
    requires d < 10
    ensures IsDigit(c) && c as int - '0' as int == d
  {
    (d + '0' as int) as char
  }

  /** The decimal digits of `n`, most significant first, without leading zeros. */
  function NatDigits(n: nat): (s: string)
    ensures 1 <= |s| && AllDigits(s)
    ensures n < 10 <==> |s| == 1
  {
    if n < 10 then [DigitChar(n)] else NatDigits(n / 10) + [DigitChar(n % 10)]
  }

  /** The value of a string of decimal digits. */
  function DigitsValue(s: string): nat
    requires AllDigits(s)
  {
    if s == [] then 0
    else DigitsValue(s[..|s| - 1]) * 10 + (s[|s| - 1] as int - '0' as int)
  }

  /** How `${n}` writes an integer. */
  function Decimal(n: int): string {
    if n < 0 then "-" + NatDigits(-n) else NatDigits(n)
  }

  /** Reads back an optionally signed decimal integer. */
  function ParseDecimal(s: string): Option<int> {
    if 2 <= |s| && s[0] == '-' && AllDigits(s[1..]) then Some(0 - DigitsValue(s[1..]) as int)
    else if 1 <= |s| && AllDigits(s) then Some(DigitsValue(s))
    else None
  }

  /** How `${v}` writes a value of the request body. */
  function Display(v: JsValue): string {
    match v
    case Undefined => "undefined"
    case Null => "null"
    case Bool(b) => if b then "true" else "false"
    case Num(n) => Decimal(n)
    case Str(s) => s
  }

  lemma {:induction false} NatDigitsRoundTrip(n: nat)
    ensures DigitsValue(NatDigits(n)) == n
  {
    if n >= 10 {
      NatDigitsRoundTrip(n / 10);
      var s := NatDigits(n);
      assert s[..|s| - 1] == NatDigits(n / 10);
    }
  }

  lemma DecimalRoundTrip(n: int)
    ensures ParseDecimal(Decimal(n)) == Some(n)
  {
    if n < 0 {
      var d := NatDigits(-n);
      assert ParseDecimal("-" + d) == Some(n) by {
        assert ("-" + d)[1..] == d;
        NatDigitsRoundTrip(-n);
      }
    } else {
      NatDigitsRoundTrip(n);
    }
  }

  /** The longest prefix of `s` made of digits. */
  function LeadingDigits(s: string): (d: string)
    ensures AllDigits(d) && d <= s
    ensures |d| < |s| ==> !IsDigit(s[|d|])
  {
    if s == [] || !IsDigit(s[0]) then [] else [s[0]] + LeadingDigits(s[1..])
  }

  /** The longest suffix of `s` made of digits. */
  function TrailingDigits(s: string): (d: string)
    ensures AllDigits(d) && |d| <= |s| && d == s[|s| - |d|..]
    ensures |d| < |s| ==> !IsDigit(s[|s| - |d| - 1])
  {
    if s == [] || !IsDigit(s[|s| - 1]) then []
    else TrailingDigits(s[..|s| - 1]) + [s[|s| - 1]]
  }

  lemma {:induction false} LeadingDigitsOf(d: string, rest: string)
    requires AllDigits(d)
    requires rest == [] || !IsDigit(rest[0])
    ensures LeadingDigits(d + rest) == d
  {
    if d != [] {
      assert (d + rest)[1..] == d[1..] + rest;
      LeadingDigitsOf(d[1..], rest);
    } else {
      assert d + rest == rest;
    }
  }

  lemma {:induction false} TrailingDigitsOf(head: string, d: string)
    requires AllDigits(d)
    requires head == [] || !IsDigit(head[|head| - 1])
    ensures TrailingDigits(head + d) == d
  {
    if d != [] {
      assert (head + d)[..|head + d| - 1] == head + d[..|d| - 1];
      TrailingDigitsOf(head, d[..|d| - 1]);
    } else {
      assert head + d == head;
    }
  }

  /** `s` without `suffix` at its end, if it ends with it. */
  function DropSuffix(s: string, suffix: string): Option<string> {
    if |suffix| <= |s| && s[|s| - |suffix|..] == suffix then Some(s[..|s| - |suffix|]) else None
  }

  /** Splits the number written at the end of `s` from what precedes it. */
  function SplitNumber(s: string): Option<(string, nat)> {
    var d := TrailingDigits(s);
    if d == [] then None else Some((s[..|s| - |d|], DigitsValue(d)))
  }

  lemma DropSuffixOf(x: string, suffix: string)
    ensures DropSuffix(x + suffix, suffix) == Some(x)
  {
    assert (x + suffix)[|x|..] == suffix;
    assert (x + suffix)[..|x|] == x;
  }

  lemma SplitNumberOf(head: string, n: nat)
    requires head == [] || !IsDigit(head[|head| - 1])
    ensures SplitNumber(head + NatDigits(n)) == Some((head, n))
  {
    TrailingDigitsOf(head, NatDigits(n));
    NatDigitsRoundTrip(n);
    assert (head + NatDigits(n))[..|head|] == head;
  }
}
