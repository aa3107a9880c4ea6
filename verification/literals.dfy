/**
 * Number literals as the calculator's scanner sees them: a maximal run of
 * ASCII digits and '.' characters, handed to Java's Double.parseDouble.
 * On such a run parseDouble succeeds exactly when the run holds at least
 * one digit and at most one '.', and then denotes the decimal value of
 * the digits before the point plus the fraction after it.
 */
module Literals {

  datatype Option<T> = None | Some(value: T)

  predicate IsDigit(c: char) {
    '0' <= c <= '9'
  }

  /** The characters the scanner gathers into one number token. */
  predicate IsNumberChar(c: char) {
    IsDigit(c) || c == '.'
  }

  predicate AllDigits(s: string) {
    forall k :: 0 <= k < |s| ==> IsDigit(s[k])
  }

  predicate AllNumberChars(s: string) {
    forall k :: 0 <= k < |s| ==> IsNumberChar(s[k])
  }

  /** Number of occurrences of `c` in `s`. */
  function CountChar(s: string, c: char): (n: nat)
    ensures n <= |s|
  {
    if s == [] then 0 else (if s[0] == c then 1 else 0) + CountChar(s[1..], c)
  }

  /** The strings of digits and points that parseDouble accepts. */
  predicate IsDecimalLiteral(s: string) {
    && AllNumberChars(s)
    && CountChar(s, '.') <= 1
    && exists k :: 0 <= k < |s| && IsDigit(s[k])
  }

  function Pow10(n: nat): (p: nat)
    ensures p >= 1
  {
    if n == 0 then 1 else 10 * Pow10(n - 1)
  }

  function DigitValue(c: char): (d: nat)
    requires IsDigit(c)
    ensures d < 10
  {
    c as int - '0' as int
  }

  /** The natural number a string of decimal digits denotes (0 for ""). */
  function DigitsValue(s: string): (n: nat)
    requires AllDigits(s)
  {
    if s == [] then 0 else 10 * DigitsValue(s[..|s| - 1]) + DigitValue(s[|s| - 1])
  }

  /** Position of the first '.' in `s`, or |s| when there is none. */
  function DotIndex(s: string): (k: nat)
    ensures k <= |s|
    ensures k < |s| ==> s[k] == '.'
    ensures forall j :: 0 <= j < k ==> s[j] != '.'
  {
    if s == [] then 0 else if s[0] == '.' then 0 else 1 + DotIndex(s[1..])
  }

  lemma {:induction false} CountCharSplit(a: string, b: string, c: char)
    ensures CountChar(a + b, c) == CountChar(a, c) + CountChar(b, c)
  {
    if a == [] {
      assert a + b == b;
    } else {
      assert (a + b)[1..] == a[1..] + b;
      CountCharSplit(a[1..], b, c);
    }
  }

  /** A character occurs nowhere exactly when its count is zero. */
  lemma {:induction false} CountCharZero(s: string, c: char)
    ensures CountChar(s, c) == 0 <==> c !in s
  {
    if s != [] {
      CountCharZero(s[1..], c);
      assert s == [s[0]] + s[1..];
    }
  }

  /** A run of digits holds no point, and its first point is past its end. */
  lemma {:induction false} DigitsThenRest(a: string, rest: string)
    requires AllDigits(a)
    ensures CountChar(a, '.') == 0
    ensures DotIndex(a + rest) == |a| + DotIndex(rest)
  {
    if a != [] {
      assert (a + rest)[0] == a[0];
      assert (a + rest)[1..] == a[1..] + rest;
      DigitsThenRest(a[1..], rest);
    } else {
      assert a + rest == rest;
    }
  }

  /** `x` divided by 10^k, one decimal place at a time. */
  function Shift(x: real, k: nat): real
  {
    if k == 0 then x else Shift(x, k - 1) / 10.0
  }

  /** Shifting by k places is division by 10^k. */
  lemma {:induction false} ShiftScales(x: real, k: nat)
    ensures Shift(x, k) * Pow10(k) as real == x
  {
    if k > 0 {
      ShiftScales(x, k - 1);
      assert Pow10(k) as real == 10.0 * Pow10(k - 1) as real;
    }
  }

  /** The digits before the point of a literal. */
  function WholePart(s: string): string
  {
    s[..DotIndex(s)]
  }

  /** The digits after the point of a literal ("" when there is no point). */
  function FractionPart(s: string): string
  {
    var k := DotIndex(s);
    if k < |s| then s[k + 1..] else []
  }

  lemma LiteralPartsAreDigits(s: string)
    requires IsDecimalLiteral(s)
    ensures AllDigits(WholePart(s)) && AllDigits(FractionPart(s))
  {
    var k := DotIndex(s);
    if k < |s| {
      assert s == s[..k] + [s[k]] + s[k + 1..];
      CountCharSplit(s[..k] + [s[k]], s[k + 1..], '.');
      CountCharSplit(s[..k], [s[k]], '.');
      assert CountChar(s[k + 1..], '.') == 0;
      CountCharZero(s[k + 1..], '.');
    }
  }

  /** The decimal value of a literal: its whole part plus its fraction. */
  function LiteralValue(s: string): real
    requires IsDecimalLiteral(s)
  {
    LiteralPartsAreDigits(s);
    DigitsValue(WholePart(s)) as real + Shift(DigitsValue(FractionPart(s)) as real, |FractionPart(s)|)
  }

  /**
   * Double.parseDouble restricted to the runs the scanner produces:
   * None where Java throws NumberFormatException.
   */
  function ParseDecimal(s: string): (r: Option<real>)
    ensures r.Some? <==> IsDecimalLiteral(s)
  {
    if IsDecimalLiteral(s) then Some(LiteralValue(s)) else None
  }

  /** A literal reads as the value of its whole part plus its fraction. */
  lemma ParseParts(s: string)
    requires IsDecimalLiteral(s)
    ensures AllDigits(WholePart(s)) && AllDigits(FractionPart(s))
    ensures ParseDecimal(s) == Some(DigitsValue(WholePart(s)) as real
                                    + Shift(DigitsValue(FractionPart(s)) as real, |FractionPart(s)|))
  {
    LiteralPartsAreDigits(s);
  }

  /** Appending digits `b` to `a` shifts `a` left by |b| places. */
  lemma {:induction false} DigitsConcat(a: string, b: string)
    requires AllDigits(a) && AllDigits(b)
    ensures AllDigits(a + b)
    ensures DigitsValue(a + b) == DigitsValue(a) * Pow10(|b|) + DigitsValue(b)
  {
    if b == [] {
      assert a + b == a;
    } else {
      var b' := b[..|b| - 1];
      var d := DigitValue(b[|b| - 1]);
      assert (a + b)[..|a + b| - 1] == a + b';
      assert (a + b)[|a + b| - 1] == b[|b| - 1];
      DigitsConcat(a, b');
      Regroup(DigitsValue(a), DigitsValue(b'), Pow10(|b'|), d);
    }
  }

  /** The arithmetic of appending one digit `d`. */
  lemma Regroup(x: nat, y: nat, p: nat, d: nat)
    ensures 10 * (x * p + y) + d == x * (10 * p) + (10 * y + d)
  {
  }

  /** Shifting distributes over a sum. */
  lemma {:induction false} ShiftAdd(x: real, y: real, k: nat)
    ensures Shift(x + y, k) == Shift(x, k) + Shift(y, k)
    decreases k
  {
    if k > 0 {
      ShiftAdd(x, y, k - 1);
    }
  }

  /** Shifting undoes a scaling by 10^k. */
  lemma ShiftUnscale(x: real, k: nat)
    ensures Shift(x * Pow10(k) as real, k) == x
  {
    var p := Pow10(k) as real;
    var y := x * p;
    ShiftScales(y, k);
    Cancel(Shift(y, k), x, p);
    assert y == x * Pow10(k) as real;
    assert Shift(y, k) == Shift(x * Pow10(k) as real, k);
  }

  /** A factor of at least 1 can be cancelled. */
  lemma Cancel(a: real, b: real, p: real)
    requires p >= 1.0 && a * p == b * p
    ensures a == b
  {
    assert (a - b) * p == 0.0;
  }

  /** Appended digits `vf` of k places are the fraction after shifting. */
  lemma Recombine(vw: nat, vf: nat, k: nat)
    ensures Shift((vw * Pow10(k) + vf) as real, k) == vw as real + Shift(vf as real, k)
  {
    CastSum(vw, Pow10(k), vf);
    ShiftAdd(vw as real * Pow10(k) as real, vf as real, k);
    ShiftUnscale(vw as real, k);
  }

  /** Converting to real commutes with product and sum. */
  lemma CastSum(a: nat, b: nat, c: nat)
    ensures (a * b + c) as real == a as real * b as real + c as real
  {
  }

  /**
   * A literal is the whole number its digits spell with the point removed,
   * shifted right by as many places as the literal has fraction digits.
   */
  lemma ScaledValue(s: string)
    requires IsDecimalLiteral(s)
    ensures AllDigits(WholePart(s) + FractionPart(s))
    ensures ParseDecimal(s) ==
            Some(Shift(DigitsValue(WholePart(s) + FractionPart(s)) as real, |FractionPart(s)|))
  {
    ParseParts(s);
    DigitsConcat(WholePart(s), FractionPart(s));
    Recombine(DigitsValue(WholePart(s)), DigitsValue(FractionPart(s)), |FractionPart(s)|);
  }

  /** A run without a point reads as the whole number its digits denote. */
  lemma ParseWholeNumber(s: string)
    requires s != [] && AllDigits(s)
    ensures ParseDecimal(s) == Some(DigitsValue(s) as real)
  {
    assert IsDigit(s[0]);
    DigitsThenRest(s, []);
    assert s + [] == s;
    assert IsDecimalLiteral(s);
    assert WholePart(s) == s;
    assert FractionPart(s) == [];
  }

  /** The run `whole.fraction`. */
  function WithPoint(whole: string, fraction: string): string
  {
    whole + ['.'] + fraction
  }

  /** The point of `a.b` is its only one, and the first. */
  lemma PointPosition(a: string, b: string)
    requires AllDigits(a) && AllDigits(b)
    ensures CountChar(WithPoint(a, b), '.') == 1
    ensures DotIndex(WithPoint(a, b)) == |a|
  {
    var rest := ['.'] + b;
    assert WithPoint(a, b) == a + rest;
    DigitsThenRest(a, rest);
    DigitsThenRest(b, []);
    CountCharSplit(a, rest, '.');
    CountCharSplit(['.'], b, '.');
  }

  /** `a.b` is a literal, with `a` before its point and `b` after it. */
  lemma PointLiteralParts(a: string, b: string)
    requires AllDigits(a) && AllDigits(b) && |a| + |b| > 0
    ensures IsDecimalLiteral(WithPoint(a, b))
    ensures WholePart(WithPoint(a, b)) == a && FractionPart(WithPoint(a, b)) == b
  {
    var s := WithPoint(a, b);
    PointPosition(a, b);
    assert AllNumberChars(s);
    assert IsDigit(s[if |a| > 0 then 0 else 1]);
    assert s[..|a|] == a;
    assert s[|a| + 1..] == b;
  }

  /** A run `a.b` reads as the value of `a` plus `b` scaled down by 10^|b|. */
  lemma ParseWithPoint(a: string, b: string)
    requires AllDigits(a) && AllDigits(b) && |a| + |b| > 0
    ensures ParseDecimal(WithPoint(a, b)) ==
            Some(DigitsValue(a) as real + Shift(DigitsValue(b) as real, |b|))
  {
    var s := WithPoint(a, b);
    PointLiteralParts(a, b);
    ParseParts(s);
  }

  /** The decimal numeral of a natural number, most significant digit first. */
  function Numeral(n: nat): (s: string)
    ensures s != [] && AllDigits(s)
  {
    if n < 10 then ['0' + n as char]
    else Numeral(n / 10) + ['0' + (n % 10) as char]
  }

  /** parseDouble reads back the numeral of every natural number. */
  lemma {:induction false} NumeralRoundTrip(n: nat)
    ensures ParseDecimal(Numeral(n)) == Some(n as real)
  {
    NumeralValue(n);
    ParseWholeNumber(Numeral(n));
  }

  lemma {:induction false} NumeralValue(n: nat)
    ensures DigitsValue(Numeral(n)) == n
  {
    var s := Numeral(n);
    if n >= 10 {
      NumeralValue(n / 10);
      assert s[..|s| - 1] == Numeral(n / 10);
    }
  }
}
