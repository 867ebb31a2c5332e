/** The two JavaScript number built-ins the storefront's price display rests on, over exact
    reals: `Math.round` and `Number.prototype.toFixed(2)`. */
module JsNumber {
  import opened Wrappers
  import opened Decimal

  /** `Math.round`: the integer nearest to `x`, a tie going to the larger integer
      (so 2.5 rounds to 3 and -2.5 to -2). */
  function MathRound(x: real): (n: int)
    ensures x - 0.5 < n as real <= x + 0.5
  {
    (x + 0.5).Floor
  }

  /** A whole number rounds to itself. */
  lemma MathRoundOfInt(k: int)
    ensures MathRound(k as real) == k
  {
  }

  /** A non-negative amount of hundredths written as whole units, a point and exactly two
      digits: 7 -> "0.07", 12345 -> "123.45". */
  function FixedTwo(hundredths: nat): (s: string) {
    NatToString(hundredths / 100) + "." + [DigitChar(hundredths % 100 / 10), DigitChar(hundredths % 10)]
  }

  /** A magnitude in hundredths written with a leading '-' when `negative` holds. */
  function SignedFixedTwo(negative: bool, magnitude: nat): (s: string) {
    if negative then "-" + FixedTwo(magnitude) else FixedTwo(magnitude)
  }

  /** A signed amount of hundredths written as `toFixed(2)` writes it. */
  function RenderCents(c: int): (s: string) {
    SignedFixedTwo(c < 0, if c < 0 then -c else c)
  }

  /** `x.toFixed(2)` for an exact value `x`: the sign, then the magnitude rounded to the nearest
      hundredth with a tie going to the larger magnitude. A negative value that rounds to
      zero keeps its sign ("-0.00"), as in JavaScript. */
  function ToFixed2(x: real): (s: string) {
    SignedFixedTwo(x < 0.0, MagnitudeHundredths(x))
  }

  /** The magnitude of `x` in hundredths, rounded to the nearest, a tie going up. */
  function MagnitudeHundredths(x: real): (hundredths: nat) {
    if x < 0.0 then MathRound(-x * 100.0) else MathRound(x * 100.0)
  }

  /** Reads a string of the shape `toFixed(2)` produces back into hundredths; `None` for any
      other string. */
  function ParseFixed2(s: string): (value: Option<int>) {
    if |s| < 4 || s[|s| - 3] != '.' || !IsDigit(s[|s| - 2]) || !IsDigit(s[|s| - 1]) then None
    else
      var whole := s[..|s| - 3];
      var fraction := DigitValue(s[|s| - 2]) * 10 + DigitValue(s[|s| - 1]);
      if |whole| >= 2 && whole[0] == '-' && IsDigits(whole[1..]) then
        Some(-(StringToNat(whole[1..]) * 100 + fraction))
      else if IsDigits(whole) then
        Some(StringToNat(whole) * 100 + fraction)
      else
        None
  }

  /** A digit string, a point and two digits read back as the whole units and the two digits. */
  lemma ParseUnsigned(whole: string, tenths: char, hundredths: char)
    requires IsDigits(whole) && whole != [] && IsDigit(tenths) && IsDigit(hundredths)
    ensures ParseFixed2(whole + "." + [tenths, hundredths])
      == Some(StringToNat(whole) * 100 + DigitValue(tenths) * 10 + DigitValue(hundredths))
  {
    var s := whole + "." + [tenths, hundredths];
    assert s[..|s| - 3] == whole;
    DigitAt(whole, 0);
  }

  /** The same after a minus sign, read back negated. */
  lemma ParseNegative(whole: string, tenths: char, hundredths: char)
    requires IsDigits(whole) && whole != [] && IsDigit(tenths) && IsDigit(hundredths)
    ensures ParseFixed2("-" + (whole + "." + [tenths, hundredths]))
      == Some(-(StringToNat(whole) * 100 + DigitValue(tenths) * 10 + DigitValue(hundredths)))
  {
    var s := "-" + (whole + "." + [tenths, hundredths]);
    assert s[..|s| - 3] == "-" + whole;
    assert s[..|s| - 3][1..] == whole;
  }

  /** Hundredths written without a sign read back as themselves. */
  lemma ParseFixedTwo(n: nat)
    ensures ParseFixed2(FixedTwo(n)) == Some(n)
  {
    ParseUnsigned(NatToString(n / 100), DigitChar(n % 100 / 10), DigitChar(n % 10));
    StringToNatOfNatToString(n / 100);
    assert n / 100 * 100 + n % 100 / 10 * 10 + n % 10 == n;
  }

  /** Hundredths written after a minus sign read back as their negation, so "-0.00" reads as
      zero. */
  lemma ParseNegatedFixedTwo(n: nat)
    ensures ParseFixed2("-" + FixedTwo(n)) == Some(-(n as int))
  {
    ParseNegative(NatToString(n / 100), DigitChar(n % 100 / 10), DigitChar(n % 10));
    StringToNatOfNatToString(n / 100);
    assert n / 100 * 100 + n % 100 / 10 * 10 + n % 10 == n;
  }

  /** A signed magnitude reads back as itself, negated when the sign is there. */
  lemma ParseSignedFixedTwo(negative: bool, n: nat)
    ensures ParseFixed2(SignedFixedTwo(negative, n)) == Some(if negative then -(n as int) else n)
  {
    if negative {
      ParseNegatedFixedTwo(n);
    } else {
      ParseFixedTwo(n);
    }
  }

  /** Writing hundredths and reading them back is the identity. */
  lemma ParseRenderCents(c: int)
    ensures ParseFixed2(RenderCents(c)) == Some(c)
  {
    ParseSignedFixedTwo(c < 0, if c < 0 then -c else c);
  }

  /** Whatever the value, `toFixed(2)` gives a string of its shape that reads back as the
      value's magnitude rounded to hundredths, with the value's sign. */
  lemma ToFixed2ReadsBack(x: real)
    ensures ParseFixed2(ToFixed2(x)) == Some(if x < 0.0 then -(MagnitudeHundredths(x) as int) else MagnitudeHundredths(x))
  {
    ParseSignedFixedTwo(x < 0.0, MagnitudeHundredths(x));
  }

  /** `toFixed(2)` starts with a '-' exactly when the value is negative, even when its
      magnitude rounds to zero. */
  lemma ToFixed2Sign(x: real)
    ensures ToFixed2(x)[0] == '-' <==> x < 0.0
  {
    DigitAt(NatToString(MagnitudeHundredths(x) / 100), 0);
  }

  /** A negative value of less than half a hundredth is written "-0.00". */
  lemma ToFixed2NegativeZero(x: real)
    requires -0.005 < x < 0.0
    ensures ToFixed2(x) == "-0.00"
  {
    assert MagnitudeHundredths(x) == 0;
    assert NatToString(0) == "0";
  }

  /** An exact multiple of a hundredth is written digit for digit by `toFixed(2)`. */
  lemma ToFixed2OfCents(c: int)
    ensures ToFixed2(c as real / 100.0) == RenderCents(c)
  {
    var x := c as real / 100.0;
    if c < 0 {
      assert x < 0.0 && -x * 100.0 == (-c) as real;
      MathRoundOfInt(-c);
    } else {
      assert x >= 0.0 && x * 100.0 == c as real;
      MathRoundOfInt(c);
    }
    assert MagnitudeHundredths(x) == if c < 0 then -c else c;
  }
}
