/** Arithmetic helpers shared by the engines: absolute value, maximum and
    Python's `round(x, n)` on exact reals (round half to even). */
module Numeric {

  function Abs(x: real): (r: real)
    ensures r >= 0.0 && (r == x || r == -x)
  {
    if x < 0.0 then -x else x
  }

  function MaxReal(a: real, b: real): (r: real)
    ensures r >= a && r >= b && (r == a || r == b)
  {
    if a >= b then a else b
  }

  /** The number of values `range(n)` yields: `n` when positive, else none. */
  function RangeLength(n: int): nat { if n > 0 then n else 0 }

  function Pow10(n: nat): (r: real)
    ensures r >= 1.0
  {
    if n == 0 then 1.0 else 10.0 * Pow10(n - 1)
  }

  /** Nearest integer to `y`; a tie goes to the even neighbour. */
  function RoundHalfEven(y: real): (k: int)
    ensures y - 0.5 <= k as real <= y + 0.5
  {
    var f := y.Floor;
    var frac := y - f as real;
    if frac < 0.5 then f
    else if frac > 0.5 then f + 1
    else if f % 2 == 0 then f
    else f + 1
  }

  /** `x` rounded to a whole multiple of `1/scale`, ties to even. */
  function RoundToScale(x: real, scale: real): real
    requires scale > 0.0
  {
    RoundHalfEven(x * scale) as real / scale
  }

  /** `round(x, places)`: x rounded to `places` decimal places, ties to even. */
  function Round(x: real, places: nat): real
  {
    RoundToScale(x, Pow10(places))
  }

  lemma RoundHalfEvenMonotone(a: real, b: real)
    requires a <= b
    ensures RoundHalfEven(a) <= RoundHalfEven(b)
  {
  }

  lemma MulPositiveMonotone(x: real, y: real, p: real)
    requires x <= y && p > 0.0
    ensures x * p <= y * p
  {
    assert y * p - x * p == (y - x) * p;
  }

  lemma DivPositiveMonotone(x: real, y: real, p: real)
    requires x <= y && p > 0.0
    ensures x / p <= y / p
  {
    assert y / p - x / p == (y - x) / p;
  }

  lemma RoundToScaleMonotone(x: real, y: real, p: real)
    requires x <= y && p > 0.0
    ensures RoundToScale(x, p) <= RoundToScale(y, p)
  {
    MulPositiveMonotone(x, y, p);
    RoundHalfEvenMonotone(x * p, y * p);
    DivPositiveMonotone(RoundHalfEven(x * p) as real, RoundHalfEven(y * p) as real, p);
  }

  /** Rounding never reverses the order of two values. */
  lemma RoundMonotone(x: real, y: real, places: nat)
    requires x <= y
    ensures Round(x, places) <= Round(y, places)
  {
    RoundToScaleMonotone(x, y, Pow10(places));
  }

  lemma RoundToScaleIsClose(x: real, p: real)
    requires p > 0.0
    ensures Abs(RoundToScale(x, p) - x) <= 0.5 / p
  {
    var k := RoundHalfEven(x * p);
    assert x * p - 0.5 <= k as real <= x * p + 0.5;
    assert k as real / p - x == (k as real - x * p) / p;
    DivPositiveMonotone(k as real - x * p, 0.5, p);
    DivPositiveMonotone(-0.5, k as real - x * p, p);
  }

  /** Rounding moves a value by at most half a unit of the last place kept. */
  lemma RoundIsClose(x: real, places: nat)
    ensures Abs(Round(x, places) - x) <= 0.5 / Pow10(places)
  {
    RoundToScaleIsClose(x, Pow10(places));
  }

  lemma MulPositive(x: real, p: real)
    requires x > 0.0 && p > 0.0
    ensures x * p > 0.0
  {
  }

  lemma MulNonNegative(x: real, p: real)
    requires x >= 0.0 && p > 0.0
    ensures x * p >= 0.0
  {
  }

  lemma MulNonNegativeBoth(x: real, y: real)
    requires x >= 0.0 && y >= 0.0
    ensures x * y >= 0.0
  {
  }

  /** Comparing a ratio with `c` is comparing the numerator with `c` times a
      positive denominator. */
  lemma RatioAbove(d: real, p: real, c: real)
    requires p > 0.0
    ensures d / p > c <==> d > c * p
  {
    var q := d / p;
    assert q * p == d;
    if q > c {
      MulPositive(q - c, p);
    } else {
      MulNonNegative(c - q, p);
    }
    assert d - c * p == (q - c) * p;
  }

  /** The same comparison, not strict. */
  lemma RatioAtLeast(d: real, p: real, c: real)
    requires p > 0.0
    ensures d / p >= c <==> d >= c * p
  {
    var q := d / p;
    assert q * p == d;
    if q >= c {
      MulNonNegative(q - c, p);
    } else {
      MulPositive(c - q, p);
    }
    assert d - c * p == (q - c) * p;
  }

  /** A non-negative amount over a positive denominator is not negative. */
  lemma DivNonNegative(d: real, p: real)
    requires d >= 0.0 && p > 0.0
    ensures d / p >= 0.0
  {
    DivPositiveMonotone(0.0, d, p);
  }

  /** A non-negative amount over a negative denominator is not positive. */
  lemma RatioNegative(d: real, p: real)
    requires d >= 0.0 && p < 0.0
    ensures d / p <= 0.0
  {
    var q := d / p;
    assert q * p == d;
    if q > 0.0 {
      MulPositive(q, -p);
      assert false;
    }
  }
}
