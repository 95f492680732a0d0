/** The scalar helpers of the DSP class (the plain C++ branch, without the DaisySP library). */
module DSP {

  /** `fmax`: a when a > b, otherwise b. */
  function FMax(a: real, b: real): (r: real)
    ensures r >= a && r >= b
    ensures r == a || r == b
    ensures a > b ==> r == a
    ensures a <= b ==> r == b
  {
    if a > b then a else b
  }

  /** Raising one argument never lowers the maximum. */
  lemma FMaxMonotone(a: real, x: real, y: real)
    requires x <= y
    ensures FMax(a, x) <= FMax(a, y)
  {
  }

  // Arithmetic facts. Each states its product or quotient through a plain
  // variable, so that callers reason about it linearly.

  /** A fraction p = k d, k in [0, 1], lies between 0 and d. */
  lemma FractionBetween(k: real, d: real, p: real)
    requires 0.0 <= k <= 1.0 && p == k * d
    ensures d >= 0.0 ==> 0.0 <= p <= d
    ensures d <= 0.0 ==> d <= p <= 0.0
  {
    if d >= 0.0 {
      NonNegProduct(k, d);
      NonNegProduct(1.0 - k, d);
      assert (1.0 - k) * d == d - k * d;
    } else {
      NonNegProduct(k, -d);
      NonNegProduct(1.0 - k, -d);
      assert (1.0 - k) * -d == k * d - d;
      assert k * -d == -(k * d);
    }
  }

  /** A quotient t = p / d with 0 <= p <= d lies in [0, 1]. */
  lemma QuotientInUnit(p: real, d: real, t: real)
    requires 0.0 <= p <= d && d > 0.0 && t == p / d
    ensures 0.0 <= t <= 1.0
  {
    assert t * d == p;
    NonNegFactor(t, d, p);
    assert (1.0 - t) * d == d - p;
    NonNegFactor(1.0 - t, d, d - p);
  }

  /** A factor of a non-negative product q = a d with d positive is non-negative. */
  lemma NonNegFactor(a: real, d: real, q: real)
    requires d > 0.0 && q == a * d && q >= 0.0
    ensures a >= 0.0
  {
  }

  /** The product of two non-negative numbers is non-negative. */
  lemma NonNegProduct(a: real, b: real)
    requires a >= 0.0 && b >= 0.0
    ensures a * b >= 0.0
  {
  }

  /** `fmin`: a when a < b, otherwise b. */
  function FMin(a: real, b: real): (r: real)
    ensures r <= a && r <= b
    ensures r == a || r == b
    ensures a < b ==> r == a
    ensures a >= b ==> r == b
  {
    if a < b then a else b
  }

  /** `fclamp`: fmin(fmax(x, lo), hi). With lo > hi the upper bound wins. */
  function FClamp(x: real, lo: real, hi: real): (r: real)
    ensures lo <= hi ==> lo <= r <= hi
    ensures lo <= x <= hi ==> r == x
    ensures x < lo <= hi ==> r == lo
    ensures lo <= hi < x ==> r == hi
    ensures lo > hi ==> r == hi
  {
    FMin(FMax(x, lo), hi)
  }

  /** Clamping twice to the same range is clamping once. */
  lemma FClampIdempotent(x: real, lo: real, hi: real)
    requires lo <= hi
    ensures FClamp(FClamp(x, lo, hi), lo, hi) == FClamp(x, lo, hi)
  {
  }

  /** `std::abs` on a float. */
  function Abs(x: real): (r: real)
    ensures r >= 0.0
    ensures r == x || r == -x
    ensures r >= x && r >= -x
  {
    if x < 0.0 then -x else x
  }
}
