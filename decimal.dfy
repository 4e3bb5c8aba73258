/** Decimal numerals: `String(n)`, `parseInt(s, 10)`, and `x.toFixed(1)` on an
    exact quotient. */
module Decimal {
  import opened Options
  import opened Strings

  function DigitValue(c: char): (d: nat)
    requires IsDigit(c)
    ensures d < 10
  {
    c as int - '0' as int
  }

  function DigitChar(d: nat): (c: char)
    requires d < 10
    ensures IsDigit(c) && DigitValue(c) == d
  {
    ('0' as int + d) as char
  }

  predicate AllDigits(s: string)
  {
    forall i :: 0 <= i < |s| ==> IsDigit(s[i])
  }

  /** The value of a string of decimal digits, most significant first. */
  function DigitsValue(s: string): nat
    requires AllDigits(s)
  {
    if s == [] then 0 else DigitsValue(s[..|s| - 1]) * 10 + DigitValue(s[|s| - 1])
  }

  /** `String(n)` for a non-negative integer: digits without leading zeros. */
  function NatToString(n: nat): (s: string)
    ensures |s| >= 1 && AllDigits(s)
    ensures s[0] == '0' ==> n == 0
  {
    if n < 10 then [DigitChar(n)] else NatToString(n / 10) + [DigitChar(n % 10)]
  }

  /** A numeral as `String` writes it: digits, and no leading zero unless
      the number is zero. */
  predicate Numeral(ds: string)
  {
    ds != [] && AllDigits(ds) && (|ds| > 1 ==> ds[0] != '0')
  }

  lemma {:induction false} NatToStringNumeral(n: nat)
    ensures Numeral(NatToString(n))
  {
    if n >= 10 {
      NatToStringNumeral(n / 10);
      assert NatToString(n)[0] == NatToString(n / 10)[0];
    }
  }

  /** A numeral is determined by its value: it is the numeral `String`
      writes for that value. */
  lemma {:induction false} NumeralUnique(ds: string)
    requires Numeral(ds)
    ensures ds == NatToString(DigitsValue(ds))
  {
    if |ds| > 1 {
      var init, last := ds[..|ds| - 1], ds[|ds| - 1];
      assert init[0] == ds[0];
      assert Numeral(init);
      NumeralUnique(init);
      NumeralPositive(init);
      NumeralStep(init, last, ds);
    }
  }

  lemma NumeralStep(init: string, last: char, ds: string)
    requires Numeral(init) && init == NatToString(DigitsValue(init)) && DigitsValue(init) > 0
    requires IsDigit(last) && ds == init + [last]
    ensures DigitsValue(ds) == DigitsValue(init) * 10 + DigitValue(last)
    ensures ds == NatToString(DigitsValue(ds))
  {
    assert ds[..|ds| - 1] == init;
    var n := DigitsValue(ds);
    assert n / 10 == DigitsValue(init) && n % 10 == DigitValue(last);
    assert DigitChar(DigitValue(last)) == last;
  }

  /** A numeral of more than one digit starts with a non-zero digit, so its
      value is positive; a one-digit numeral other than "0" is positive. */
  lemma {:induction false} NumeralPositive(ds: string)
    requires Numeral(ds) && ds[0] != '0'
    ensures DigitsValue(ds) > 0
  {
    if |ds| > 1 {
      var init := ds[..|ds| - 1];
      assert init[0] == ds[0];
      NumeralPositive(init);
    }
  }

  /** Reading back the numeral of `n` gives `n`. */
  lemma {:induction false} NatToStringValue(n: nat)
    ensures DigitsValue(NatToString(n)) == n
  {
    if n >= 10 {
      NatToStringValue(n / 10);
      var s := NatToString(n);
      assert s[..|s| - 1] == NatToString(n / 10);
    }
  }

  function IntToString(i: int): (s: string)
    ensures |s| >= 1
  {
    if i < 0 then "-" + NatToString(-i) else NatToString(i)
  }

  /** The longest prefix of `s` made of decimal digits. */
  function DigitPrefix(s: string): (r: string)
    ensures AllDigits(r) && r <= s
    ensures |r| < |s| ==> !IsDigit(s[|r|])
  {
    if s != [] && IsDigit(s[0]) then [s[0]] + DigitPrefix(s[1..]) else []
  }

  lemma {:induction false} DigitPrefixOfDigits(ds: string, rest: string)
    requires AllDigits(ds)
    requires rest == [] || !IsDigit(rest[0])
    ensures DigitPrefix(ds + rest) == ds
  {
    if ds != [] {
      assert (ds + rest)[1..] == ds[1..] + rest;
      DigitPrefixOfDigits(ds[1..], rest);
    } else {
      assert ds + rest == rest;
    }
  }

  /** The text after an optional leading sign. */
  function Unsigned(t: string): string
  {
    if t != [] && (t[0] == '-' || t[0] == '+') then t[1..] else t
  }

  /** `parseInt(s, 10)`, with `None` for NaN: leading white space is skipped,
      one sign is allowed, and the longest run of digits after it is read. */
  function ParseInt(s: string): (r: Option<int>)
    ensures r.None? <==> DigitPrefix(Unsigned(TrimStart(s))) == []
    ensures r.Some? && !StartsWith(TrimStart(s), "-") ==> r.value >= 0
  {
    var t := TrimStart(s);
    var digits := DigitPrefix(Unsigned(t));
    var v: int := if digits == [] then 0 else DigitsValue(digits);
    if digits == [] then None
    else if StartsWith(t, "-") then Some(-v)
    else Some(v)
  }

  /** `parseInt` reads back a numeral followed by anything but a digit. */
  lemma ParseIntOfNat(n: nat, rest: string)
    requires rest == [] || !IsDigit(rest[0])
    ensures ParseInt(NatToString(n) + rest) == Some(n)
  {
    var ds := NatToString(n);
    var s := ds + rest;
    assert s[0] == ds[0] && IsDigit(ds[0]);
    NotSpaceStart(s);
    assert Unsigned(s) == s;
    assert !StartsWith(s, "-") by { assert s[..1] == [s[0]]; }
    DigitPrefixOfDigits(ds, rest);
    NatToStringValue(n);
  }

  lemma NotSpaceStart(s: string)
    requires s != [] && IsDigit(s[0])
    ensures TrimStart(s) == s
  {}

  lemma ParseIntOfInt(i: int)
    ensures ParseInt(IntToString(i)) == Some(i)
  {
    if i < 0 {
      ParseIntOfNegative(-i);
    } else {
      ParseIntOfNat(i, []);
      assert NatToString(i) + [] == NatToString(i);
    }
  }

  lemma ParseIntOfNegative(n: nat)
    requires n > 0
    ensures ParseInt("-" + NatToString(n)) == Some(-(n as int))
  {
    var ds := NatToString(n);
    var s := "-" + ds;
    assert s[0] == '-' && !IsSpace(s[0]);
    assert TrimStart(s) == s;
    assert StartsWith(s, "-") by { assert s[..1] == "-"; }
    assert Unsigned(s) == ds;
    DigitPrefixOfDigits(ds, []);
    assert ds + [] == ds;
    NatToStringValue(n);
  }

  function Abs(i: int): nat { if i < 0 then -i else i }

  /** `a / b` rounded to the nearest integer, halves rounded up. */
  function RoundDiv(a: nat, b: nat): (r: nat)
    requires b > 0
    ensures 2 * r * b <= 2 * a + b < 2 * r * b + 2 * b
  {
    (2 * a + b) / (2 * b)
  }

  /** `t` is the nearest integer to `x`, halves rounded away from zero: the
      choice `Number.prototype.toFixed` makes. */
  ghost predicate RoundsTo(x: real, t: int)
  {
    if x >= 0.0 then t as real - 0.5 <= x < t as real + 0.5
    else t as real - 0.5 < x <= t as real + 0.5
  }

  /** The quotient `num / den` is negative. */
  predicate Negative(num: int, den: int)
  {
    (num < 0 && den > 0) || (num > 0 && den < 0)
  }

  lemma QuotientBounds(a: nat, b: nat, m: nat)
    requires b > 0
    requires 2 * m * b <= 2 * a + b < 2 * m * b + 2 * b
    ensures m as real - 0.5 <= a as real / b as real < m as real + 0.5
  {
    IntMulReal(m, b);
    ScaledBounds(a as real, b as real, m as real);
  }

  lemma ScaledBounds(a: real, b: real, m: real)
    requires b > 0.0
    requires 2.0 * (m * b) <= 2.0 * a + b < 2.0 * (m * b) + 2.0 * b
    ensures m - 0.5 <= a / b < m + 0.5
  {
    var q := a / b;
    DivMul(a, b);
    assert (m - 0.5) * b == m * b - 0.5 * b;
    assert (m + 0.5) * b == m * b + 0.5 * b;
    MulCancel(m - 0.5, q, b);
    MulCancelStrict(q, m + 0.5, b);
  }

  lemma IntMulReal(x: int, y: int)
    ensures (x * y) as real == x as real * y as real
  {}

  lemma DivMul(a: real, b: real)
    requires b > 0.0
    ensures (a / b) * b == a
  {}

  lemma MulCancel(x: real, y: real, c: real)
    requires c > 0.0 && x * c <= y * c
    ensures x <= y
  {}

  lemma MulCancelStrict(x: real, y: real, c: real)
    requires c > 0.0 && x * c < y * c
    ensures x < y
  {}

  /** `num / den` in tenths, rounded as `toFixed(1)` rounds. */
  function SignedTenths(num: int, den: int): (t: int)
    requires den != 0
    ensures RoundsTo((10 * num) as real / den as real, t)
  {
    var m: int := RoundDiv(10 * Abs(num), Abs(den));
    QuotientBounds(10 * Abs(num), Abs(den), m);
    QuotientSign(10 * num, den);
    if Negative(num, den) then -m else m
  }

  lemma QuotientSign(a: int, b: int)
    requires b != 0
    ensures a as real / b as real ==
      if Negative(a, b) then -(Abs(a) as real / Abs(b) as real) else Abs(a) as real / Abs(b) as real
  {
    var ar, br := Abs(a) as real, Abs(b) as real;
    if a < 0 { NegateNumerator(ar, br); }
    if b < 0 { NegateDenominator(a as real, br); }
    if a < 0 && b < 0 { NegateDenominator(-ar, br); }
  }

  lemma NegateNumerator(x: real, y: real)
    requires y > 0.0
    ensures (-x) / y == -(x / y)
  {}

  lemma NegateDenominator(x: real, y: real)
    requires y > 0.0
    ensures x / (-y) == -(x / y)
  {}

  /** A numeral with one decimal place, for `t` tenths. */
  function OneDecimal(t: nat): string
  {
    NatToString(t / 10) + "." + [DigitChar(t % 10)]
  }

  /** Reads `[-]digits.digit` as a number of tenths. */
  function ParseTenths(s: string): Option<int>
  {
    if |s| < 3 || s[|s| - 2] != '.' || !IsDigit(s[|s| - 1]) then None
    else
      var whole := s[..|s| - 2];
      var digits := if whole[0] == '-' then whole[1..] else whole;
      if digits == [] || !AllDigits(digits) then None
      else
        var v := DigitsValue(digits) * 10 + DigitValue(s[|s| - 1]);
        Some(if whole[0] == '-' then -v else v)
  }

  lemma ParseTenthsOfOneDecimal(sign: string, t: nat)
    requires sign == "" || sign == "-"
    ensures ParseTenths(sign + OneDecimal(t)) == Some(if sign == "-" then -(t as int) else t)
  {
    var ds := NatToString(t / 10);
    var d := DigitChar(t % 10);
    NatToStringValue(t / 10);
    assert DigitsValue(ds) * 10 + DigitValue(d) == t;
    assert sign + OneDecimal(t) == (sign + ds) + ['.', d];
    ParseTenthsOfParts(sign, ds, d);
  }

  /** Reads `sign`, the digits `ds`, a point and the digit `d`. */
  lemma ParseTenthsOfParts(sign: string, ds: string, d: char)
    requires sign == "" || sign == "-"
    requires ds != [] && AllDigits(ds) && IsDigit(d)
    ensures var v := DigitsValue(ds) * 10 + DigitValue(d);
      ParseTenths((sign + ds) + ['.', d]) == Some(if sign == "-" then -v else v)
  {
    var s := (sign + ds) + ['.', d];
    assert s[|s| - 2] == '.' && s[|s| - 1] == d;
    var whole := s[..|s| - 2];
    assert whole == sign + ds;
    assert whole[0] == '-' <==> sign == "-" by {
      if sign == "" { assert whole[0] == ds[0]; }
    }
    var digits := if whole[0] == '-' then whole[1..] else whole;
    assert digits == ds;
  }

  /** `s` is written as `toFixed(1)` writes: an optional '-', a numeral
      without leading zeros, a point and one digit. */
  predicate TenthsNumeral(s: string)
  {
    && |s| >= 3 && s[|s| - 2] == '.' && IsDigit(s[|s| - 1])
    && var whole := s[..|s| - 2];
      Numeral(if whole[0] == '-' then whole[1..] else whole)
  }

  lemma TenthsNumeralOfOneDecimal(sign: string, t: nat)
    requires sign == "" || sign == "-"
    ensures TenthsNumeral(sign + OneDecimal(t))
  {
    var ds := NatToString(t / 10);
    var d := DigitChar(t % 10);
    NatToStringNumeral(t / 10);
    assert sign + OneDecimal(t) == (sign + ds) + ['.', d];
    TenthsNumeralOfParts(sign, ds, d);
  }

  lemma TenthsNumeralOfParts(sign: string, ds: string, d: char)
    requires sign == "" || sign == "-"
    requires Numeral(ds) && IsDigit(d)
    ensures TenthsNumeral((sign + ds) + ['.', d])
  {
    var s := (sign + ds) + ['.', d];
    assert s[|s| - 2] == '.' && s[|s| - 1] == d;
    var whole := s[..|s| - 2];
    assert whole == sign + ds;
    assert whole[0] == '-' <==> sign == "-" by {
      if sign == "" { assert whole[0] == ds[0]; }
    }
  }

  /** A one-decimal numeral is the sign followed by `OneDecimal` of the
      tenths it reads as: the value and the sign pin the text. */
  lemma TenthsNumeralText(s: string)
    requires TenthsNumeral(s)
    ensures ParseTenths(s).Some?
    ensures s == (if s[0] == '-' then "-" else "") + OneDecimal(Abs(ParseTenths(s).value))
  {
    var sign, ds, d := TenthsParts(s);
    ParseTenthsOfParts(sign, ds, d);
    OneDecimalOfParts(ds, d);
  }

  /** Splits a one-decimal numeral into its sign, its whole numeral and its
      tenths digit. */
  lemma TenthsParts(s: string) returns (sign: string, ds: string, d: char)
    requires TenthsNumeral(s)
    ensures sign == "" || sign == "-"
    ensures Numeral(ds) && IsDigit(d)
    ensures s == (sign + ds) + ['.', d]
    ensures s[0] == '-' <==> sign == "-"
  {
    var whole := s[..|s| - 2];
    d := s[|s| - 1];
    sign := if whole[0] == '-' then "-" else "";
    ds := if whole[0] == '-' then whole[1..] else whole;
    assert whole == sign + ds;
    assert s == whole + ['.', d];
  }

  lemma OneDecimalOfParts(ds: string, d: char)
    requires Numeral(ds) && IsDigit(d)
    ensures OneDecimal(DigitsValue(ds) * 10 + DigitValue(d)) == ds + ['.', d]
  {
    NumeralUnique(ds);
    var t := DigitsValue(ds) * 10 + DigitValue(d);
    assert t / 10 == DigitsValue(ds) && t % 10 == DigitValue(d);
    assert DigitChar(DigitValue(d)) == d;
  }

  /** Two one-decimal numerals with the same sign and value are the same
      text. */
  lemma TenthsTextUnique(a: string, b: string)
    requires TenthsNumeral(a) && TenthsNumeral(b)
    requires ParseTenths(a) == ParseTenths(b) && (a[0] == '-' <==> b[0] == '-')
    ensures a == b
  {
    TenthsNumeralText(a);
    TenthsNumeralText(b);
  }

  /** `(num / den).toFixed(1)` for the exact quotient. */
  function ToFixed1(num: int, den: int): (r: string)
    requires den != 0
    ensures ParseTenths(r) == Some(SignedTenths(num, den))
    ensures TenthsNumeral(r)
    ensures (r[0] == '-') <==> Negative(num, den)
    ensures r[0] == '-' || IsDigit(r[0])
  {
    var sign := if Negative(num, den) then "-" else "";
    var m := RoundDiv(10 * Abs(num), Abs(den));
    ParseTenthsOfOneDecimal(sign, m);
    TenthsNumeralOfOneDecimal(sign, m);
    sign + OneDecimal(m)
  }

  /** `String(x)` for a number `x` that is a whole number of tenths `t`:
      `"3"` for 30 tenths, `"2.5"` for 25. */
  function TenthsText(t: int): (r: string)
    ensures t % 10 == 0 ==> ParseInt(r) == Some(t / 10)
    ensures t % 10 != 0 ==> ParseTenths(r) == Some(t)
  {
    if t % 10 == 0 then
      ParseIntOfInt(t / 10);
      IntToString(t / 10)
    else
      var sign := if t < 0 then "-" else "";
      ParseTenthsOfOneDecimal(sign, Abs(t));
      sign + OneDecimal(Abs(t))
  }
}
