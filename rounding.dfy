/**
 * Rounding to a fixed number of decimal digits, as Python's `round(x, d)`
 * and JavaScript's `Number(x.toFixed(d))` do it. The model works on exact
 * reals and rounds halves upwards; it does not reproduce the binary
 * floating-point results of either language (see README).
 */
module Rounding {

  function Pow10(digits: nat): (p: nat)
    ensures p >= 1
  {
    if digits == 0 then 1 else 10 * Pow10(digits - 1)
  }

  /** `x` rounded to the nearest multiple of `1 / scale`, halves going up. */
  function RoundScaled(x: real, scale: real): real
    requires scale >= 1.0
  {
    (x * scale + 0.5).Floor as real / scale
  }

  /** `x` rounded to `digits` decimal places. */
  function Round(x: real, digits: nat): real {
    RoundScaled(x, Pow10(digits) as real)
  }

  lemma DivideMonotone(a: real, b: real, c: real)
    requires a <= b && c > 0.0
    ensures a / c <= b / c
  {
  }

  lemma DivideStrict(a: real, b: real, c: real)
    requires a < b && c > 0.0
    ensures a / c < b / c
  {
  }

  lemma MultiplyMonotone(a: real, b: real, c: real)
    requires a <= b && c > 0.0
    ensures a * c <= b * c
  {
  }

  lemma DivideThenMultiply(a: real, c: real)
    requires c > 0.0
    ensures (a / c) * c == a
  {
  }

  lemma ShiftDivide(a: real, h: real, c: real)
    requires c > 0.0
    ensures (a * c + h) / c == a + h / c
  {
  }

  lemma HalfOverScale(c: real)
    requires c > 0.0
    ensures 0.5 / c == 1.0 / (2.0 * c)
  {
  }

  lemma ScaledWithinHalfUnit(x: real, scale: real)
    requires scale >= 1.0
    ensures x - 1.0 / (2.0 * scale) < RoundScaled(x, scale) <= x + 1.0 / (2.0 * scale)
  {
    var k := (x * scale + 0.5).Floor as real;
    assert x * scale - 0.5 < k <= x * scale + 0.5;
    DivideMonotone(k, x * scale + 0.5, scale);
    DivideStrict(x * scale + -0.5, k, scale);
    ShiftDivide(x, 0.5, scale);
    ShiftDivide(x, -0.5, scale);
    HalfOverScale(scale);
    assert -0.5 / scale == -(0.5 / scale);
  }

  /** The rounded value is within half a unit of the last kept digit. */
  lemma RoundWithinHalfUnit(x: real, digits: nat)
    ensures x - 1.0 / (2.0 * Pow10(digits) as real) < Round(x, digits)
    ensures Round(x, digits) <= x + 1.0 / (2.0 * Pow10(digits) as real)
  {
    ScaledWithinHalfUnit(x, Pow10(digits) as real);
  }

  lemma ScaledMonotone(x: real, y: real, scale: real)
    requires x <= y && scale >= 1.0
    ensures RoundScaled(x, scale) <= RoundScaled(y, scale)
  {
    MultiplyMonotone(x, y, scale);
    var kx, ky := (x * scale + 0.5).Floor, (y * scale + 0.5).Floor;
    assert kx <= ky;
    DivideMonotone(kx as real, ky as real, scale);
  }

  /** Rounding never reverses the order of its arguments. */
  lemma RoundMonotone(x: real, y: real, digits: nat)
    requires x <= y
    ensures Round(x, digits) <= Round(y, digits)
  {
    ScaledMonotone(x, y, Pow10(digits) as real);
  }

  lemma ScaledExact(x: real, k: int, scale: real)
    requires scale >= 1.0 && x * scale == k as real
    ensures RoundScaled(x, scale) == x
  {
    assert (x * scale + 0.5).Floor == k;
    assert k as real / scale == x;
  }

  /** A value that already has at most `digits` decimals (`k` units of
      10^-digits) is left as it is. */
  lemma RoundExact(x: real, k: int, digits: nat)
    requires x * Pow10(digits) as real == k as real
    ensures Round(x, digits) == x
  {
    ScaledExact(x, k, Pow10(digits) as real);
  }

  lemma RoundZero(digits: nat)
    ensures Round(0.0, digits) == 0.0
  {
    RoundExact(0.0, 0, digits);
  }
}
