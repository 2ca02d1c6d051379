/**
  Python's `Decimal`, restricted to the finite values with a non-positive exponent that menu
  prices take: the value is (-1)^negative * units * 10^-scale. The coefficient and the exponent
  are both kept, so Decimal("4.50") and Decimal("4.5") are different values that compare equal,
  as in Python.
 */
module Decimals {
  import opened Wrappers

  datatype Decimal = Decimal(negative: bool, units: nat, scale: nat)

  function Pow10(n: nat): (r: nat)
    ensures r >= 1
  {
    if n == 0 then 1 else 10 * Pow10(n - 1)
  }

  /** The exact numeric value. */
  function Value(d: Decimal): real {
    var magnitude := d.units as real / Pow10(d.scale) as real;
    if d.negative then -magnitude else magnitude
  }

  /** `d >= 0`: only a zero coefficient may carry a minus sign (Decimal("-0.00") >= 0 holds). */
  lemma NonNegativeValue(d: Decimal)
    ensures Value(d) >= 0.0 <==> (!d.negative || d.units == 0)
  {
    var p := Pow10(d.scale) as real;
    assert p > 0.0;
    if d.units > 0 {
      assert d.units as real / p > 0.0;
    }
  }

  predicate IsDigit(c: char) {
    '0' <= c <= '9'
  }

  predicate AllDigits(s: string) {
    forall i :: 0 <= i < |s| ==> IsDigit(s[i])
  }

  function DigitChar(n: nat): (c: char)
    requires n < 10
    ensures IsDigit(c)
  {
    ('0' as int + n) as char
  }

  function DigitValue(c: char): (n: nat)
    requires IsDigit(c)
    ensures n < 10
  {
    c as int - '0' as int
  }

  /** `str(n)` for a natural number: its decimal digits, most significant first. */
  function DigitsOf(n: nat): (s: string)
    ensures |s| >= 1 && AllDigits(s)
  {
    if n < 10 then [DigitChar(n)] else DigitsOf(n / 10) + [DigitChar(n % 10)]
  }

  /** `str(n)`. */
  function IntText(n: int): (s: string)
    ensures |s| >= 1
  {
    if n < 0 then "-" + DigitsOf(-n) else DigitsOf(n)
  }

  /** The number a string of decimal digits denotes (leading zeros allowed). */
  function NumberOf(s: string): nat
    requires AllDigits(s)
  {
    if s == [] then 0 else NumberOf(s[..|s| - 1]) * 10 + DigitValue(s[|s| - 1])
  }

  lemma {:induction false} NumberOfDigitsOf(n: nat)
    ensures NumberOf(DigitsOf(n)) == n
  {
    var s := DigitsOf(n);
    if n >= 10 {
      NumberOfDigitsOf(n / 10);
      assert s[..|s| - 1] == DigitsOf(n / 10);
    }
  }

  function Zeros(k: nat): (z: string)
    ensures |z| == k && AllDigits(z)
    ensures forall i :: 0 <= i < k ==> z[i] == '0'
  {
    if k == 0 then "" else "0" + Zeros(k - 1)
  }

  lemma {:induction false} NumberOfLeadingZeros(k: nat, s: string)
    requires AllDigits(s)
    ensures NumberOf(Zeros(k) + s) == NumberOf(s)
    decreases |s|
  {
    if s == [] {
      ZerosDenoteZero(k);
      assert Zeros(k) + s == Zeros(k);
    } else {
      var t := Zeros(k) + s;
      assert t[..|t| - 1] == Zeros(k) + s[..|s| - 1];
      NumberOfLeadingZeros(k, s[..|s| - 1]);
    }
  }

  lemma {:induction false} ZerosDenoteZero(k: nat)
    ensures NumberOf(Zeros(k)) == 0
  {
    if k > 0 {
      var z := Zeros(k);
      assert z[..k - 1] == Zeros(k - 1);
      ZerosDenoteZero(k - 1);
    }
  }

  /** The coefficient's digits, padded on the left so that at least one digit precedes the point. */
  function PaddedDigits(d: Decimal): (s: string)
    ensures AllDigits(s) && |s| >= d.scale + 1
  {
    var digits := DigitsOf(d.units);
    Zeros(if |digits| <= d.scale then d.scale + 1 - |digits| else 0) + digits
  }

  /**
    `str(d)` in positional notation: "12.99", "4.50", "0.05", "-0.00", "7". The point stands
    before the last `scale` digits; there is no point when the scale is 0.
   */
  function ToString(d: Decimal): string {
    (if d.negative then "-" else "") + Body(d)
  }

  /** Index of the first '.', or |s| if there is none. */
  function DotIndex(s: string): (i: nat)
    ensures i <= |s|
    ensures i < |s| ==> s[i] == '.'
    ensures forall j :: 0 <= j < i ==> s[j] != '.'
  {
    if s == [] then 0 else if s[0] == '.' then 0 else 1 + DotIndex(s[1..])
  }

  /** Reads an unsigned positional decimal ("12.99", "7"); None for anything else. */
  function ParseUnsigned(s: string): Option<Decimal> {
    var i := DotIndex(s);
    if i == |s| then
      if s != [] && AllDigits(s) then Some(Decimal(false, NumberOf(s), 0)) else None
    else
      var whole, fraction := s[..i], s[i + 1..];
      if whole != [] && fraction != [] && AllDigits(whole + fraction)
      then Some(Decimal(false, NumberOf(whole + fraction), |fraction|))
      else None
  }

  /** `Decimal(s)` for the strings `ToString` produces: an optional '-' and a positional decimal. */
  function Parse(s: string): Option<Decimal> {
    if s != [] && s[0] == '-' then
      match ParseUnsigned(s[1..])
      case Some(d) => Some(d.(negative := true))
      case None => None
    else ParseUnsigned(s)
  }

  lemma ParseUnsignedWhole(s: string)
    requires s != [] && AllDigits(s)
    ensures ParseUnsigned(s) == Some(Decimal(false, NumberOf(s), 0))
  {
    if DotIndex(s) < |s| {
      assert IsDigit(s[DotIndex(s)]);
    }
  }

  lemma ParseUnsignedPointed(whole: string, fraction: string)
    requires whole != [] && fraction != [] && AllDigits(whole + fraction)
    ensures ParseUnsigned(whole + "." + fraction)
      == Some(Decimal(false, NumberOf(whole + fraction), |fraction|))
  {
    var s := whole + "." + fraction;
    forall j | 0 <= j < |whole| ensures s[j] != '.' {
      assert s[j] == (whole + fraction)[j];
    }
    assert s[|whole|] == '.';
    assert DotIndex(s) == |whole|;
    assert s[..|whole|] == whole;
    assert s[|whole| + 1..] == fraction;
  }

  /** The unsigned part of `ToString(d)`. */
  function Body(d: Decimal): string {
    var padded := PaddedDigits(d);
    var cut := |padded| - d.scale;
    if d.scale == 0 then padded else padded[..cut] + "." + padded[cut..]
  }

  lemma PaddedDigitsDenoteUnits(d: Decimal)
    ensures NumberOf(PaddedDigits(d)) == d.units
  {
    var digits := DigitsOf(d.units);
    var k := if |digits| <= d.scale then d.scale + 1 - |digits| else 0;
    NumberOfLeadingZeros(k, digits);
    NumberOfDigitsOf(d.units);
  }

  lemma ParseUnsignedBody(d: Decimal)
    ensures ParseUnsigned(Body(d)) == Some(Decimal(false, d.units, d.scale))
  {
    var padded := PaddedDigits(d);
    PaddedDigitsDenoteUnits(d);
    var cut := |padded| - d.scale;
    if d.scale == 0 {
      ParseUnsignedWhole(padded);
    } else {
      assert padded[..cut] + padded[cut..] == padded;
      ParseUnsignedPointed(padded[..cut], padded[cut..]);
    }
  }

  /** A price written into a snapshot as `str(price)` reads back as the same Decimal. */
  lemma BodyStartsWithDigit(d: Decimal)
    ensures |Body(d)| > 0 && IsDigit(Body(d)[0])
  {
    var padded := PaddedDigits(d);
    assert IsDigit(padded[0]);
    if d.scale > 0 {
      var cut := |padded| - d.scale;
      assert Body(d)[0] == padded[..cut][0];
    }
  }

  lemma ParseToString(d: Decimal)
    ensures Parse(ToString(d)) == Some(d)
  {
    var body := Body(d);
    ParseUnsignedBody(d);
    BodyStartsWithDigit(d);
    if d.negative {
      var s := "-" + body;
      assert ToString(d) == s;
      assert s[1..] == body;
      assert Parse(s) == Some(Decimal(false, d.units, d.scale).(negative := true));
    } else {
      assert ToString(d) == body;
      assert body[0] != '-';
    }
  }
}
