/** The two shapes every generated identifier takes: `PREFIX-NNN` (account codes, company ids,
    item codes) and `PREFIX-YYYYMMDD-NNN` (sales and purchase invoice numbers), with their
    decoders. */
module Numbering {
  import opened Wrappers
  import opened Text
  import opened Decimal
  import opened Calendar

  /** `${prefix}-${String(n).padStart(3, '0')}`. */
  function Code(prefix: string, n: nat): string {
    prefix + "-" + Pad3(n)
  }

  /** `prefix` followed by `-` and exactly three digits: the grammar the codes are meant to have. */
  predicate ThreeDigitCode(prefix: string, s: string) {
    |s| == |prefix| + 4 && s[..|prefix| + 1] == prefix + "-" && AllDigits(s[|prefix| + 1..])
  }

  /** Grammar of a code: below 1000 the number part is exactly three digits; from 1000 on it is
      the plain decimal and the code is longer. */
  lemma CodeGrammar(prefix: string, n: nat)
    ensures n < 1000 <==> ThreeDigitCode(prefix, Code(prefix, n))
    ensures n >= 1000 ==> Code(prefix, n) == prefix + "-" + Digits(n)
  {
    Pad3Shape(n);
    var s := Code(prefix, n);
    assert s[..|prefix| + 1] == prefix + "-" && s[|prefix| + 1..] == Pad3(n);
  }

  /** The position of the last occurrence of `c` in `s`, if any. */
  function LastIndexOf(s: string, c: char): (r: Option<nat>)
    ensures r.Some? ==> r.value < |s| && s[r.value] == c
    ensures r.Some? ==> forall j :: r.value < j < |s| ==> s[j] != c
    ensures r.None? ==> c !in s
  {
    if s == [] then None
    else if s[|s| - 1] == c then Some(|s| - 1)
    else LastIndexOf(s[..|s| - 1], c)
  }

  /** Reads a `PREFIX-N` code back into its prefix (everything before the last `-`) and its number. */
  function DecodeCode(s: string): Option<(string, nat)> {
    match LastIndexOf(s, '-')
    case None => None
    case Some(k) =>
      var tail := s[k + 1..];
      if tail != [] && AllDigits(tail) then Some((s[..k], Value(tail))) else None
  }

  /** Round trip: decoding a generated code gives back its prefix and its number, whatever the prefix holds. */
  lemma CodeRoundTrip(prefix: string, n: nat)
    ensures DecodeCode(Code(prefix, n)) == Some((prefix, n))
  {
    var s := Code(prefix, n);
    var digits := Pad3(n);
    Pad3Shape(n);
    assert s[|prefix|] == '-';
    assert forall j :: |prefix| < j < |s| ==> s[j] == digits[j - |prefix| - 1];
    var k := LastIndexOf(s, '-').value;
    assert k == |prefix|;
    assert s[k + 1..] == digits && s[..k] == prefix;
  }

  /** Different prefixes or different numbers always give different codes. */
  lemma CodeInjective(p1: string, n1: nat, p2: string, n2: nat)
    requires Code(p1, n1) == Code(p2, n2)
    ensures p1 == p2 && n1 == n2
  {
    CodeRoundTrip(p1, n1);
    CodeRoundTrip(p2, n2);
  }

  /** `${year}${month}${day}` with month and day padded to two digits. */
  function DateSegment(d: Date): string {
    Digits(d.year) + Pad2(d.month) + Pad2(d.day)
  }

  /** `${prefix}-${YYYYMMDD}-${String(n).padStart(3, '0')}`. */
  function DatedCode(prefix: string, d: Date, n: nat): string {
    prefix + "-" + DateSegment(d) + "-" + Pad3(n)
  }

  /** `prefix`, `-`, eight digits, `-`, three digits. */
  predicate DatedGrammar(prefix: string, s: string) {
    var p := |prefix|;
    |s| == p + 13 && s[..p + 1] == prefix + "-" && AllDigits(s[p + 1..p + 9]) &&
    s[p + 9] == '-' && AllDigits(s[p + 10..])
  }

  /** Reads a dated number back into its day and its number, if it has `prefix` and the dated shape. */
  function DecodeDated(prefix: string, s: string): Option<(Date, nat)> {
    var p := |prefix|;
    if |s| >= p + 11 && s[..p + 1] == prefix + "-" && s[p + 9] == '-' then
      var seg, tail := s[p + 1..p + 9], s[p + 10..];
      if AllDigits(seg) && tail != [] && AllDigits(tail) then
        Some((Date(Value(seg[..4]), Value(seg[4..6]), Value(seg[6..])), Value(tail)))
      else None
    else None
  }

  lemma DateSegmentShape(d: Date)
    requires Plausible(d)
    ensures var seg := DateSegment(d);
      |seg| == 8 && AllDigits(seg) &&
      Value(seg[..4]) == d.year && Value(seg[4..6]) == d.month && Value(seg[6..]) == d.day
  {
    var seg := DateSegment(d);
    ValueOfDigits(d.year);
    DigitsWidth(d.year, 4);
    DigitsWidth(d.year, 3);
    assert Pow10(3) == 1000 && Pow10(4) == 10000 by { assert Pow10(1) == 10; }
    Pad2Shape(d.month);
    Pad2Shape(d.day);
    assert seg[..4] == Digits(d.year);
    assert seg[4..6] == Pad2(d.month);
    assert seg[6..] == Pad2(d.day);
  }

  /** Grammar of a dated number: for a plausible day and a number below 1000 it is
      `prefix-` then eight digits, `-` and three digits. */
  lemma DatedCodeGrammar(prefix: string, d: Date, n: nat)
    requires Plausible(d) && n < 1000
    ensures DatedGrammar(prefix, DatedCode(prefix, d, n))
  {
    DateSegmentShape(d);
    Pad3Shape(n);
    var s, p := DatedCode(prefix, d, n), |prefix|;
    assert s[..p + 1] == prefix + "-";
    assert s[p + 1..p + 9] == DateSegment(d);
    assert s[p + 10..] == Pad3(n);
  }

  /** Round trip: decoding a dated number gives back the day and the number. */
  lemma DatedRoundTrip(prefix: string, d: Date, n: nat)
    requires Plausible(d)
    ensures DecodeDated(prefix, DatedCode(prefix, d, n)) == Some((d, n))
  {
    DateSegmentShape(d);
    Pad3Shape(n);
    var s, p := DatedCode(prefix, d, n), |prefix|;
    assert s[..p + 1] == prefix + "-";
    assert s[p + 1..p + 9] == DateSegment(d);
    assert s[p + 10..] == Pad3(n);
  }

  /** Numbers generated on different days never collide, even with equal daily counts. */
  lemma DatedCodesOfDifferentDaysDiffer(prefix: string, d1: Date, n1: nat, d2: Date, n2: nat)
    requires Plausible(d1) && Plausible(d2) && d1 != d2
    ensures DatedCode(prefix, d1, n1) != DatedCode(prefix, d2, n2)
  {
    DatedRoundTrip(prefix, d1, n1);
    DatedRoundTrip(prefix, d2, n2);
  }
}
