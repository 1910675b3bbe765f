/** Decimal rendering and parsing of non-negative integers: `String(n)`, `padStart(w, '0')`
    and `parseInt`, as the code generators combine them. */
module Decimal {
  import opened Wrappers
  import opened Text

  predicate IsDigit(c: char) { '0' <= c <= '9' }

  predicate AllDigits(s: string) { forall i :: 0 <= i < |s| ==> IsDigit(s[i]) }

  function DigitValue(c: char): nat
    requires IsDigit(c)
  {
    c as int - '0' as int
  }

  function DigitChar(d: nat): (c: char)
    requires d < 10
    ensures IsDigit(c) && DigitValue(c) == d
  {
    ('0' as int + d) as char
  }

  function Pow10(k: nat): (p: nat)
    ensures p >= 1
  {
    if k == 0 then 1 else 10 * Pow10(k - 1)
  }

  /** `String(n)`: the decimal digits of `n`, most significant first, without leading zeros. */
  function Digits(n: nat): (s: string)
    ensures 1 <= |s| && AllDigits(s)
    ensures |s| > 1 ==> s[0] != '0'
  {
    if n < 10 then [DigitChar(n)] else Digits(n / 10) + [DigitChar(n % 10)]
  }

  /** The number a string of decimal digits denotes, read left to right as `parseInt` does. */
  function Value(s: string): nat
    requires AllDigits(s)
  {
    if s == [] then 0 else 10 * Value(s[..|s| - 1]) + DigitValue(s[|s| - 1])
  }

  /** `parseInt(s)` on a string that starts with its digits: the value of the leading run of
      digits, or NaN (`None`) when there is none. */
  function ParseInt(s: string): (r: Option<nat>)
    ensures s != [] && AllDigits(s) ==> r == Some(Value(s))
  {
    var k := LeadingDigits(s);
    assert s[..|s|] == s;
    if k == 0 then None else Some(Value(s[..k]))
  }

  function LeadingDigits(s: string): (k: nat)
    ensures k <= |s| && AllDigits(s[..k])
    ensures k < |s| ==> !IsDigit(s[k])
    ensures AllDigits(s) ==> k == |s|
  {
    if s == [] || !IsDigit(s[0]) then 0
    else
      var k := 1 + LeadingDigits(s[1..]);
      assert s[..k] == [s[0]] + s[1..][..k - 1];
      k
  }

  /** `s.padStart(width, '0')`. */
  function PadStart(s: string, width: nat): (r: string)
    ensures |r| == if |s| >= width then |s| else width
  {
    if |s| >= width then s else seq(width - |s|, _ => '0') + s
  }

  /** `String(n).padStart(3, '0')`, the sequence part of every generated code. */
  function Pad3(n: nat): string { PadStart(Digits(n), 3) }

  /** `String(n).padStart(2, '0')`, the month and day of a dated number. */
  function Pad2(n: nat): string { PadStart(Digits(n), 2) }

  lemma {:induction false} ValueOfDigits(n: nat)
    ensures Value(Digits(n)) == n
  {
    if n >= 10 {
      ValueOfDigits(n / 10);
      var s := Digits(n);
      assert s[..|s| - 1] == Digits(n / 10);
    }
  }

  lemma {:induction false} ValueOfZeros(k: nat)
    ensures AllDigits(seq(k, _ => '0')) && Value(seq(k, _ => '0')) == 0
  {
    if k > 0 {
      ValueOfZeros(k - 1);
      assert seq(k, _ => '0')[..k - 1] == seq(k - 1, _ => '0');
    }
  }

  /** Leading zeros do not change the value, which is why `parseInt` undoes `padStart`. */
  lemma {:induction false} ValueIgnoresLeadingZeros(k: nat, s: string)
    requires AllDigits(s)
    ensures AllDigits(seq(k, _ => '0') + s)
    ensures Value(seq(k, _ => '0') + s) == Value(s)
  {
    var z := seq(k, _ => '0');
    if s == [] {
      ValueOfZeros(k);
      assert z + s == z;
    } else {
      ValueIgnoresLeadingZeros(k, s[..|s| - 1]);
      assert (z + s)[..|z + s| - 1] == z + s[..|s| - 1];
    }
  }

  /** A number has at most `k` digits exactly when it is below 10^k. */
  lemma {:induction false} DigitsWidth(n: nat, k: nat)
    requires k >= 1
    ensures |Digits(n)| <= k <==> n < Pow10(k)
  {
    if k == 1 {
      assert Pow10(1) == 10;
    } else {
      assert Pow10(k) == 10 * Pow10(k - 1);
      if n >= 10 {
        DigitsWidth(n / 10, k - 1);
      } else {
        PowAtLeastTen(k);
      }
    }
  }

  lemma {:induction false} PowAtLeastTen(k: nat)
    requires k >= 1
    ensures Pow10(k) >= 10
  {
    if k > 1 { PowAtLeastTen(k - 1); }
  }

  lemma ValueBelowPow(s: string)
    requires AllDigits(s)
    ensures Value(s) < Pow10(|s|)
  {
    if s != [] {
      ValueBelowPow(s[..|s| - 1]);
    }
  }

  /** Reading the first digit apart: the value of `c` followed by `t` is `c` times 10^|t| plus the value of `t`. */
  lemma {:induction false} ValueOfFirstDigit(s: string)
    requires s != [] && AllDigits(s)
    ensures Value(s) == DigitValue(s[0]) * Pow10(|s| - 1) + Value(s[1..])
  {
    if |s| > 1 {
      var init, tail := s[..|s| - 1], s[1..];
      ValueOfFirstDigit(init);
      assert init[0] == s[0];
      assert init[1..] == tail[..|tail| - 1];
      assert tail[|tail| - 1] == s[|s| - 1];
      assert Value(s) == 10 * Value(init) + DigitValue(s[|s| - 1]);
      assert Value(tail) == 10 * Value(init[1..]) + DigitValue(s[|s| - 1]);
      assert Pow10(|s| - 1) == 10 * Pow10(|s| - 2);
      ShiftDigit(DigitValue(s[0]), Pow10(|s| - 2), Value(init[1..]), DigitValue(s[|s| - 1]));
    } else {
      assert s[..0] == [] && s[1..] == [];
    }
  }

  lemma ShiftDigit(d: int, p: int, v: int, e: int)
    ensures 10 * (d * p + v) + e == d * (10 * p) + (10 * v + e)
  {
  }

  lemma MulGap(a: nat, b: nat, p: nat)
    requires a < b
    ensures a * p + p <= b * p
  {
    var k := b - a - 1;
    assert b == a + 1 + k;
    assert b * p == a * p + p + k * p;
  }

  /** For digit strings of one length, string order is numeric order. */
  lemma {:induction false} LexOrderIsNumericOrder(s: string, t: string)
    requires AllDigits(s) && AllDigits(t) && |s| == |t|
    ensures LexLess(s, t) <==> Value(s) < Value(t)
  {
    if s != [] {
      ValueOfFirstDigit(s);
      ValueOfFirstDigit(t);
      ValueBelowPow(s[1..]);
      ValueBelowPow(t[1..]);
      LexOrderIsNumericOrder(s[1..], t[1..]);
      var p := Pow10(|s| - 1);
      var a, b := DigitValue(s[0]), DigitValue(t[0]);
      if a < b {
        MulGap(a, b, p);
      } else if b < a {
        MulGap(b, a, p);
      }
    }
  }

  /** `padStart(width, '0')` applied to `String(n)`: digits only, value `n`, and exactly `width`
      characters as long as `n` has no more than `width` digits; otherwise `String(n)` unchanged. */
  lemma PadShape(n: nat, width: nat)
    requires width >= 1
    ensures AllDigits(PadStart(Digits(n), width))
    ensures Value(PadStart(Digits(n), width)) == n
    ensures n < Pow10(width) ==> |PadStart(Digits(n), width)| == width
    ensures n >= Pow10(width) ==> PadStart(Digits(n), width) == Digits(n) && |Digits(n)| > width
  {
    var d := Digits(n);
    ValueOfDigits(n);
    DigitsWidth(n, width);
    if |d| < width {
      ValueIgnoresLeadingZeros(width - |d|, d);
    }
  }

  /** pad3 gives exactly three digits below 1000, and the plain decimal, neither padded nor
      cut, from 1000 on. Either way it denotes `n`. */
  lemma Pad3Shape(n: nat)
    ensures AllDigits(Pad3(n)) && Value(Pad3(n)) == n
    ensures n < 1000 ==> |Pad3(n)| == 3
    ensures n >= 1000 ==> Pad3(n) == Digits(n) && |Pad3(n)| >= 4
  {
    assert Pow10(3) == 1000 by { assert Pow10(1) == 10; }
    PadShape(n, 3);
  }

  lemma Pad2Shape(n: nat)
    ensures AllDigits(Pad2(n)) && Value(Pad2(n)) == n
    ensures n < 100 ==> |Pad2(n)| == 2
  {
    assert Pow10(2) == 100 by { assert Pow10(1) == 10; }
    PadShape(n, 2);
  }

  /** Round trip: `parseInt` reads back the number `padStart` wrote. */
  lemma Pad3RoundTrip(n: nat)
    ensures ParseInt(Pad3(n)) == Some(n)
  {
    Pad3Shape(n);
  }

  /** Distinct numbers get distinct pad3 renderings. */
  lemma Pad3Injective(a: nat, b: nat)
    requires Pad3(a) == Pad3(b)
    ensures a == b
  {
    Pad3Shape(a);
    Pad3Shape(b);
  }

  /** Below 1000, the string order of pad3 renderings is the numeric order. */
  lemma Pad3Order(a: nat, b: nat)
    requires a < 1000 && b < 1000
    ensures LexLess(Pad3(a), Pad3(b)) <==> a < b
  {
    Pad3Shape(a);
    Pad3Shape(b);
    LexOrderIsNumericOrder(Pad3(a), Pad3(b));
  }
}
