/**
  Real-number helpers shared by the simulator: Python's `int()` on a float,
  NumPy's `ceil`, and linear interpolation `a + (b - a) * f` (used both by
  `uniform` and by the "linear" percentile method).
*/
module Arithmetic {

  /** A fraction in [0, 1). */
  type Fraction = r: real | 0.0 <= r < 1.0 witness 0.0

  lemma ProductNonNegative(a: real, b: real)
    requires 0.0 <= a && 0.0 <= b
    ensures 0.0 <= a * b
  {
  }

  lemma ProductPositive(a: real, b: real)
    requires 0.0 < a && 0.0 < b
    ensures 0.0 < a * b
  {
  }

  /** d * f: the fraction f of the signed width d. */
  function Scaled(d: real, f: Fraction): (s: real)
    ensures 0.0 <= d ==> 0.0 <= s <= d
    ensures d <= 0.0 ==> d <= s <= 0.0
    ensures 0.0 < d ==> s < d
  {
    if 0.0 <= d then
      ProductNonNegative(d, f);
      ProductNonNegative(d, 1.0 - f);
      if 0.0 < d then ProductPositive(d, 1.0 - f); d * f else d * f
    else
      ProductNonNegative(-d, f);
      ProductNonNegative(-d, 1.0 - f);
      d * f
  }

  /** a + (b - a) * f, the point a fraction f of the way from a to b. */
  function Lerp(a: real, b: real, f: Fraction): (r: real)
    ensures a <= b ==> a <= r <= b
    ensures b <= a ==> b <= r <= a
    ensures a < b ==> r < b
    ensures f == 0.0 ==> r == a
  {
    a + Scaled(b - a, f)
  }

  /** Moving further along a rising segment never goes down. */
  lemma LerpMonotone(a: real, b: real, f: Fraction, g: Fraction)
    requires a <= b && f <= g
    ensures Lerp(a, b, f) <= Lerp(a, b, g)
  {
    ProductNonNegative(b - a, g - f);
    assert (b - a) * g - (b - a) * f == (b - a) * (g - f);
  }

  /** Python's `int()` on a float: truncation toward zero. */
  function Trunc(x: real): (n: int)
    ensures 0.0 <= x ==> 0 <= n && n as real <= x < n as real + 1.0
    ensures x < 0.0 ==> n <= 0 && n as real - 1.0 < x <= n as real
  {
    if 0.0 <= x then x.Floor else -((-x).Floor)
  }

  /** NumPy's `ceil`: the least integer not below x. */
  function Ceil(x: real): (n: int)
    ensures n as real - 1.0 < x <= n as real
  {
    -((-x).Floor)
  }

  /** Truncation of non-negative reals is monotone. */
  lemma TruncMonotone(x: real, y: real)
    requires 0.0 <= x <= y
    ensures Trunc(x) <= Trunc(y)
  {
  }

  function Max(a: int, b: int): int {
    if a <= b then b else a
  }
}
