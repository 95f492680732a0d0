/**
 * The transcendental functions of the C math library, kept uninterpreted.
 *
 * A `Math` value bundles the functions; every operation that needs one takes
 * it as a parameter. `Valid` lists the only facts about them that the
 * properties of this model rely on.
 */
module Libm {
  import DSP

  /** M_PI, to the digits of the C header. */
  const Pi: real := 3.14159265358979323846

  datatype Math = Math(
    pow: (real, real) -> real,
    log10: real -> real,
    tan: real -> real,
    sin: real -> real,
    cos: real -> real,
    sqrt: real -> real)

  /** The properties of `pow`, `log10`, `sin`, `cos` and `tan` that the model uses: `log10` inverts `pow` at base 10. */
  ghost predicate Valid(m: Math)
  {
    && (forall b: real, x: real :: b > 0.0 ==> m.pow(b, x) > 0.0)
    && (forall b: real :: b > 0.0 ==> m.pow(b, 0.0) == 1.0)
    && (forall b: real :: b > 0.0 ==> m.pow(b, 1.0) == b)
    && (forall b: real, x: real :: b >= 1.0 && x >= 0.0 ==> m.pow(b, x) >= 1.0)
    && (forall b: real, x: real :: b >= 1.0 && x <= 1.0 ==> m.pow(b, x) <= b)
    && (forall x: real :: -1.0 <= m.sin(x) <= 1.0)
    && (forall x: real :: -1.0 <= m.cos(x) <= 1.0)
    && (forall x: real :: 0.0 <= x < Pi / 2.0 ==> m.tan(x) >= 0.0)
    && (forall y: real {:trigger m.pow(10.0, m.log10(y))} :: y > 0.0 ==> m.pow(10.0, m.log10(y)) == y)
    && (forall x: real {:trigger m.log10(m.pow(10.0, x))} :: m.log10(m.pow(10.0, x)) == x)
  }

  /** The stand-in `pow` of `Crude`: piecewise rational in the exponent, exact at 0 and 1. */
  function CrudePow(b: real, x: real): real
  {
    if x < 0.0 then 1.0 / (1.0 - x) else if x <= 1.0 then 1.0 + (b - 1.0) * x else b + x - 1.0
  }

  /** The stand-in `log10` of `Crude`: the inverse of `CrudePow` at base 10. */
  function CrudeLog10(y: real): real
  {
    if y <= 0.0 then 0.0 else if y < 1.0 then 1.0 - 1.0 / y else if y <= 10.0 then (y - 1.0) / 9.0 else y - 9.0
  }

  /** The reciprocal of a number above 1 lies in (0, 1). */
  lemma Reciprocal(d: real)
    requires d > 1.0
    ensures 0.0 < 1.0 / d < 1.0
  {
  }

  /** On [0, 1], the segment from 1 to b stays positive for positive b, and inside [1, b] for b >= 1. */
  lemma SegmentBounds(b: real, x: real)
    requires 0.0 <= x <= 1.0
    ensures b > 0.0 ==> 1.0 + (b - 1.0) * x > 0.0
    ensures b >= 1.0 ==> 1.0 <= 1.0 + (b - 1.0) * x <= b
  {
    DSP.FractionBetween(x, b - 1.0, (b - 1.0) * x);
  }

  lemma CrudePowBounds(b: real, x: real)
    ensures b > 0.0 ==> CrudePow(b, x) > 0.0
    ensures b >= 1.0 && x >= 0.0 ==> CrudePow(b, x) >= 1.0
    ensures b >= 1.0 && x <= 1.0 ==> CrudePow(b, x) <= b
  {
    if x < 0.0 {
      Reciprocal(1.0 - x);
    } else if x <= 1.0 {
      SegmentBounds(b, x);
    }
  }

  lemma CrudeInverse(y: real)
    ensures y > 0.0 ==> CrudePow(10.0, CrudeLog10(y)) == y
    ensures CrudeLog10(CrudePow(10.0, y)) == y
  {
    if 0.0 < y < 1.0 {
      var l := 1.0 - 1.0 / y;
      assert 1.0 / y > 1.0;
      assert 1.0 - l == 1.0 / y;
      assert 1.0 / (1.0 / y) == y;
    }
    if y < 0.0 {
      var p := 1.0 / (1.0 - y);
      assert 0.0 < p < 1.0;
      assert 1.0 / p == 1.0 - y;
    } else if y <= 1.0 {
      assert 1.0 + 9.0 * y >= 1.0;
    }
  }

  lemma CrudeFacts()
    ensures forall b: real, x: real :: b > 0.0 ==> CrudePow(b, x) > 0.0
    ensures forall b: real, x: real :: b >= 1.0 && x >= 0.0 ==> CrudePow(b, x) >= 1.0
    ensures forall b: real, x: real :: b >= 1.0 && x <= 1.0 ==> CrudePow(b, x) <= b
    ensures forall y: real :: y > 0.0 ==> CrudePow(10.0, CrudeLog10(y)) == y
    ensures forall x: real :: CrudeLog10(CrudePow(10.0, x)) == x
  {
    forall b: real, x: real
      ensures b > 0.0 ==> CrudePow(b, x) > 0.0
      ensures b >= 1.0 && x >= 0.0 ==> CrudePow(b, x) >= 1.0
      ensures b >= 1.0 && x <= 1.0 ==> CrudePow(b, x) <= b
    {
      CrudePowBounds(b, x);
    }
    forall y: real
      ensures y > 0.0 ==> CrudePow(10.0, CrudeLog10(y)) == y
      ensures CrudeLog10(CrudePow(10.0, y)) == y
    {
      CrudeInverse(y);
    }
  }

  /**
   * A `Math` meeting every requirement: `Valid` is not vacuous. Its `pow` is
   * exact only at exponents 0 and 1, its `log10` inverts it at base 10, and
   * its `tan` is the identity; it exists to exhibit concrete behaviour, not
   * to approximate the library.
   */
  function Crude(): (m: Math)
    ensures Valid(m)
    ensures forall x: real :: m.tan(x) == x
  {
    CrudeFacts();
    Math(
      (b: real, x: real) => CrudePow(b, x),
      (y: real) => CrudeLog10(y),
      (x: real) => x,
      (x: real) => 0.0,
      (x: real) => 0.0,
      (x: real) => 0.0)
  }
}
