/** Python's `float(text)` restricted to plain decimal notation, which is what
    `astype(float)` applies to every cell of the DTU price column
    (main.py:47): an optional run of digits, optionally followed by a point
    and another run of digits, with at least one digit in all. The value is
    the exact decimal the text denotes (no binary rounding). */
module Decimal {
  import opened Wrappers

  predicate IsDigit(c: char) { '0' <= c <= '9' }

  predicate AllDigits(s: string) { forall i :: 0 <= i < |s| ==> IsDigit(s[i]) }

  function Pow10(k: nat): (p: nat)
    ensures p >= 1
  {
    if k == 0 then 1 else 10 * Pow10(k - 1)
  }

  /** The number a run of decimal digits denotes, most significant first. */
  function DigitsValue(s: string): nat
    requires AllDigits(s)
  {
    if s == [] then 0
    else DigitsValue(s[..|s| - 1]) * 10 + (s[|s| - 1] as int - '0' as int)
  }

  /** Position of the first '.', or |s| when there is none. */
  function DotIndex(s: string): (k: nat)
    ensures k <= |s|
    ensures k < |s| ==> s[k] == '.'
    ensures forall i :: 0 <= i < k ==> s[i] != '.'
  {
    if s == [] then 0
    else if s[0] == '.' then 0
    else 1 + DotIndex(s[1..])
  }

  /** n / 10^k, written as k divisions by ten. */
  function Scaled(n: nat, k: nat): real
  {
    if k == 0 then n as real else Scaled(n, k - 1) / 10.0
  }

  /** `float(s)` for plain decimal notation. `None` for every other text:
      where Python raises ValueError (empty text, a lone point, two points),
      and also on forms Python accepts but the price table never uses
      (signs, exponents, spaces, underscores, non-ASCII digits, `inf`, `nan`).
      The digits on both sides of the point, read as one number, are
      divided by ten once per digit after the point. */
  function Parse(s: string): (r: Option<real>)
  {
    var k := DotIndex(s);
    var whole := s[..k];
    var fraction := if k < |s| then s[k + 1..] else "";
    if AllDigits(whole) && AllDigits(fraction) && |whole| + |fraction| > 0 then
      assert AllDigits(whole + fraction) by {
        forall i | 0 <= i < |whole + fraction| ensures IsDigit((whole + fraction)[i]) {
          if i < |whole| { assert (whole + fraction)[i] == whole[i]; }
          else { assert (whole + fraction)[i] == fraction[i - |whole|]; }
        }
      }
      Some(Scaled(DigitsValue(whole + fraction), |fraction|))
    else
      None
  }

  // ---------------------------------------------------------------------
  // A reference rendering: the text of units / 10^scale with exactly `scale`
  // digits after the point. Parsing it gives the number back.

  function DigitChar(d: nat): (c: char)
    requires d < 10
    ensures IsDigit(c) && c as int - '0' as int == d
  {
    ('0' as int + d) as char
  }

  /** Shortest decimal digits of n ("0" for zero). */
  function Digits(n: nat): (s: string)
    ensures |s| >= 1 && AllDigits(s)
  {
    if n < 10 then [DigitChar(n)] else Digits(n / 10) + [DigitChar(n % 10)]
  }

  function Zeros(k: nat): (s: string)
    ensures |s| == k && AllDigits(s)
  {
    if k == 0 then "" else Zeros(k - 1) + "0"
  }

  /** Digits of `units`, left-padded with zeros so that at least one digit
      stands before the last `scale` ones. */
  function Padded(units: nat, scale: nat): (s: string)
    ensures |s| >= scale + 1 && AllDigits(s)
  {
    var d := Digits(units);
    if |d| >= scale + 1 then d else Zeros(scale + 1 - |d|) + d
  }

  function Text(units: nat, scale: nat): string
  {
    var p := Padded(units, scale);
    if scale == 0 then p else p[..|p| - scale] + "." + p[|p| - scale..]
  }

  lemma {:induction false} DigitsValueAppend(a: string, b: string)
    requires AllDigits(a) && AllDigits(b)
    ensures AllDigits(a + b)
    ensures DigitsValue(a + b) == DigitsValue(a) * Pow10(|b|) + DigitsValue(b)
    decreases |b|
  {
    assert AllDigits(a + b) by {
      forall i | 0 <= i < |a + b| ensures IsDigit((a + b)[i]) {
        if i < |a| { assert (a + b)[i] == a[i]; } else { assert (a + b)[i] == b[i - |a|]; }
      }
    }
    if b == [] {
      assert a + b == a;
    } else {
      var b' := b[..|b| - 1];
      var d := b[|b| - 1] as int - '0' as int;
      assert AllDigits(b') by {
        forall i | 0 <= i < |b'| ensures IsDigit(b'[i]) { assert b'[i] == b[i]; }
      }
      DigitsValueAppend(a, b');
      assert (a + b)[..|a + b| - 1] == a + b';
      assert (a + b)[|a + b| - 1] == b[|b| - 1];
      assert DigitsValue(a + b) == DigitsValue(a + b') * 10 + d;
      assert DigitsValue(b) == DigitsValue(b') * 10 + d;
      assert Pow10(|b|) == Pow10(|b'|) * 10;
      Regroup(DigitsValue(a), Pow10(|b'|), DigitsValue(b'), d);
    }
  }

  lemma Regroup(x: int, p: int, y: int, d: int)
    ensures (x * p + y) * 10 + d == x * (p * 10) + (y * 10 + d)
  {
  }

  lemma {:induction false} DigitsRoundTrip(n: nat)
    ensures DigitsValue(Digits(n)) == n
  {
    if n >= 10 {
      DigitsRoundTrip(n / 10);
      var d := Digits(n / 10) + [DigitChar(n % 10)];
      assert d[..|d| - 1] == Digits(n / 10);
    }
  }

  lemma {:induction false} ZerosValue(k: nat)
    ensures DigitsValue(Zeros(k)) == 0
  {
    if k > 0 {
      ZerosValue(k - 1);
      var z := Zeros(k - 1) + "0";
      assert z[..|z| - 1] == Zeros(k - 1);
    }
  }

  lemma {:induction false} PaddedValue(units: nat, scale: nat)
    ensures DigitsValue(Padded(units, scale)) == units
  {
    var d := Digits(units);
    DigitsRoundTrip(units);
    if |d| < scale + 1 {
      var z := Zeros(scale + 1 - |d|);
      DigitsValueAppend(z, d);
      ZerosValue(scale + 1 - |d|);
      assert Padded(units, scale) == z + d;
      assert DigitsValue(z + d) == 0 * Pow10(|d|) + DigitsValue(d);
    } else {
      assert Padded(units, scale) == d;
    }
  }

  /** Dividing by ten k times divides by 10^k. */
  lemma {:induction false} ScaledQuotient(n: nat, k: nat)
    ensures Scaled(n, k) == n as real / Pow10(k) as real
  {
    if k > 0 {
      ScaledQuotient(n, k - 1);
      var p := Pow10(k - 1) as real;
      assert Pow10(k) as real == 10.0 * p;
      DivideAgain(n as real, p);
    }
  }

  lemma DivideAgain(a: real, p: real)
    requires p > 0.0
    ensures a / p / 10.0 == a / (10.0 * p)
  {
  }

  /** Text with a point: the digits on both sides, divided by ten once per
      digit after the point. */
  lemma {:induction false} ParseWithPoint(whole: string, fraction: string)
    requires AllDigits(whole) && AllDigits(fraction) && |whole| > 0
    ensures AllDigits(whole + fraction)
    ensures Parse(whole + "." + fraction) == Some(Scaled(DigitsValue(whole + fraction), |fraction|))
  {
    var s := whole + "." + fraction;
    assert forall i :: 0 <= i < |whole| ==> s[i] == whole[i] != '.';
    assert s[|whole|] == '.';
    assert DotIndex(s) == |whole|;
    assert s[..|whole|] == whole;
    assert s[|whole| + 1..] == fraction;
  }

  /** Text without a point is a whole number. */
  lemma {:induction false} ParseWithoutPoint(whole: string)
    requires AllDigits(whole) && |whole| > 0
    ensures Parse(whole) == Some(DigitsValue(whole) as real)
  {
    assert forall i :: 0 <= i < |whole| ==> whole[i] != '.';
    assert DotIndex(whole) == |whole|;
    assert whole[..|whole|] == whole;
    assert whole + "" == whole;
  }

  /** Parsing the rendered text of units / 10^scale gives exactly that number. */
  lemma ParseText(units: nat, scale: nat)
    ensures Parse(Text(units, scale)) == Some(units as real / Pow10(scale) as real)
  {
    ParseTextScaled(units, scale);
    ScaledQuotient(units, scale);
  }

  lemma ParseTextScaled(units: nat, scale: nat)
    ensures Parse(Text(units, scale)) == Some(Scaled(units, scale))
  {
    if scale == 0 {
      ParseWholeText(units);
    } else {
      ParsePointText(units, scale);
    }
  }

  lemma ParseWholeText(units: nat)
    ensures Parse(Text(units, 0)) == Some(Scaled(units, 0))
  {
    var p := Padded(units, 0);
    PaddedValue(units, 0);
    assert Text(units, 0) == p;
    ParseWithoutPoint(p);
  }

  lemma ParsePointText(units: nat, scale: nat)
    requires scale > 0
    ensures Parse(Text(units, scale)) == Some(Scaled(units, scale))
  {
    var p := Padded(units, scale);
    PaddedValue(units, scale);
    var whole, fraction := p[..|p| - scale], p[|p| - scale..];
    assert whole + fraction == p && |fraction| == scale;
    assert AllDigits(whole) && AllDigits(fraction) by {
      forall i | 0 <= i < |whole| ensures IsDigit(whole[i]) { assert whole[i] == p[i]; }
      forall i | 0 <= i < |fraction| ensures IsDigit(fraction[i]) { assert fraction[i] == p[|p| - scale + i]; }
    }
    assert Text(units, scale) == whole + "." + fraction;
    ParseWithPoint(whole, fraction);
    assert DigitsValue(whole + fraction) == units;
  }

  function DigitOf(c: char): nat
    requires IsDigit(c)
  {
    c as int - '0' as int
  }

  /** The shape of every price in the DTU table: one digit, a point and four
      digits, denoting `v`. */
  lemma ParseFourPlaces(s: string, v: real)
    requires |s| == 6 && s[1] == '.'
    requires IsDigit(s[0]) && IsDigit(s[2]) && IsDigit(s[3]) && IsDigit(s[4]) && IsDigit(s[5])
    requires v == DigitOf(s[0]) as real
      + (1000 * DigitOf(s[2]) + 100 * DigitOf(s[3]) + 10 * DigitOf(s[4]) + DigitOf(s[5])) as real / 10000.0
    ensures Parse(s) == Some(v)
  {
    var whole, fraction := s[..1], s[2..];
    assert s == whole + "." + fraction;
    assert AllDigits(whole) && AllDigits(fraction);
    ParseWithPoint(whole, fraction);
    var digits := whole + fraction;
    assert digits == [s[0], s[2], s[3], s[4], s[5]];
    FiveDigits(digits);
    FourDivisions(DigitsValue(digits));
  }

  /** The value of five digits. */
  lemma FiveDigits(d: string)
    requires |d| == 5 && AllDigits(d)
    ensures DigitsValue(d) ==
      10000 * DigitOf(d[0]) + 1000 * DigitOf(d[1]) + 100 * DigitOf(d[2]) + 10 * DigitOf(d[3]) + DigitOf(d[4])
  {
    var a, b, c, e := d[..4], d[..4][..3], d[..4][..3][..2], d[..4][..3][..2][..1];
    assert e[..0] == [];
    assert a[3] == d[3] && b[2] == d[2] && c[1] == d[1] && e[0] == d[0];
    assert DigitsValue(e) == DigitOf(d[0]);
    assert DigitsValue(c) == 10 * DigitOf(d[0]) + DigitOf(d[1]);
    assert DigitsValue(b) == 100 * DigitOf(d[0]) + 10 * DigitOf(d[1]) + DigitOf(d[2]);
    assert DigitsValue(a) == 1000 * DigitOf(d[0]) + 100 * DigitOf(d[1]) + 10 * DigitOf(d[2]) + DigitOf(d[3]);
  }

  lemma FourDivisions(n: nat)
    ensures Scaled(n, 4) == n as real / 10000.0
  {
    assert Scaled(n, 1) == n as real / 10.0;
    assert Scaled(n, 2) == n as real / 100.0;
    assert Scaled(n, 3) == n as real / 1000.0;
  }
}
