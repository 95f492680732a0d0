/**
 * `SplineInterpolator`: a waveshaper that evaluates a cubic Hermite spline
 * through a knot table. The input is shifted by a bias, kept inside the
 * table's range, bracketed by a linear scan, and interpolated.
 */
module SplineInterpolator {
  import opened Splines
  import opened Buffers
  import opened Wrappers
  import DSP

  // ---------------------------------------------------------------------
  // Construction: the extreme knot positions
  // ---------------------------------------------------------------------

  /** The smallest element, as `std::min_element` finds it. */
  function SeqMin(s: seq<real>): (r: real)
    requires |s| >= 1
    ensures r in s
    ensures forall i :: 0 <= i < |s| ==> r <= s[i]
  {
    if |s| == 1 then s[0]
    else
      var m := SeqMin(s[1..]);
      assert forall i :: 1 <= i < |s| ==> s[i] == s[1..][i - 1];
      if s[0] <= m then s[0] else m
  }

  /** The largest element, as `std::max_element` finds it. */
  function SeqMax(s: seq<real>): (r: real)
    requires |s| >= 1
    ensures r in s
    ensures forall i :: 0 <= i < |s| ==> r >= s[i]
  {
    if |s| == 1 then s[0]
    else
      var m := SeqMax(s[1..]);
      assert forall i :: 1 <= i < |s| ==> s[i] == s[1..][i - 1];
      if s[0] >= m then s[0] else m
  }

  /** The constructor's scans over the knot positions. */
  method Extremes(xs: seq<real>) returns (lo: real, hi: real)
    requires |xs| >= 1
    ensures lo == SeqMin(xs) && hi == SeqMax(xs)
  {
    lo, hi := xs[0], xs[0];
    var i := 1;
    while i < |xs|
      invariant 1 <= i <= |xs|
      invariant lo in xs[..i] && hi in xs[..i]
      invariant forall k :: 0 <= k < i ==> lo <= xs[k] <= hi
    {
      if xs[i] < lo { lo := xs[i]; }
      if xs[i] > hi { hi := xs[i]; }
      i := i + 1;
    }
    assert xs[..i] == xs;
    ExtremeUnique(xs, lo, hi);
  }

  /** A member of the sequence below (above) every element is its minimum (maximum). */
  lemma ExtremeUnique(xs: seq<real>, lo: real, hi: real)
    requires |xs| >= 1 && lo in xs && hi in xs
    requires forall k :: 0 <= k < |xs| ==> lo <= xs[k] <= hi
    ensures lo == SeqMin(xs) && hi == SeqMax(xs)
  {
  }

  /** For a table the extremes are the first and last knots. */
  lemma ExtremesOfTable(table: Table)
    ensures SeqMin(table.xs) == table.xs[0]
    ensures SeqMax(table.xs) == table.xs[|table.xs| - 1]
  {
    var xs := table.xs;
    forall k | 0 < k < |xs|
      ensures xs[0] < xs[k]
    {
      AscendingOrdered(xs, 0, k);
    }
    forall k | 0 <= k < |xs| - 1
      ensures xs[k] < xs[|xs| - 1]
    {
      AscendingOrdered(xs, k, |xs| - 1);
    }
  }

  /** The fields of an interpolator: its table, the extremes found at construction, and the public `Bias`. */
  datatype Shaper = Shaper(table: Table, lo: real, hi: real, bias: real)

  /** A constructed interpolator: the stored extremes are its table's first and last knots. */
  predicate Valid(ip: Shaper)
  {
    ip.lo == ip.table.xs[0] && ip.hi == ip.table.xs[|ip.table.xs| - 1]
  }

  /** The interpolators the constructor can produce; the bias may be set freely afterwards. */
  type Interpolator = ip: Shaper | Valid(ip) witness Shaper(Spline([0.0, 1.0], [0.0, 0.0], [0.0, 0.0]), 0.0, 1.0, 0.0)

  /** The constructor: the extremes as the two scans find them; the bias starts at 0. */
  function New(table: Table): (r: Interpolator)
    ensures r.table == table && r.bias == 0.0
    ensures r.lo == SeqMin(table.xs) && r.hi == SeqMax(table.xs)
  {
    ExtremesOfTable(table);
    Shaper(table, SeqMin(table.xs), SeqMax(table.xs), 0.0)
  }

  // ---------------------------------------------------------------------
  // One sample
  // ---------------------------------------------------------------------

  /**
   * The input clamp: above hi becomes hi - 0.00001, then below lo becomes
   * lo + 0.00001. No input leaves [lo, hi]; inputs inside it are untouched.
   */
  function Clamp(x: real, lo: real, hi: real): (r: real)
    ensures lo + Margin <= hi ==> lo <= r <= hi
    ensures lo <= x <= hi ==> r == x
    ensures x > hi && hi - Margin >= lo ==> r == hi - Margin
    ensures x < lo ==> r == lo + Margin
  {
    var high := if x > hi then hi - Margin else x;
    if high < lo then lo + Margin else high
  }

  /**
   * The scan `while (xs[i] < x) i++` from i: the first index at or after
   * `from` whose knot is not below x. The last knot bounds the scan.
   */
  function Bracket(xs: seq<real>, x: real, from: nat): (r: nat)
    requires 1 <= from < |xs| && x <= xs[|xs| - 1]
    ensures from <= r < |xs|
    ensures x <= xs[r]
    ensures forall j :: from <= j < r ==> xs[j] < x
    decreases |xs| - from
  {
    if xs[from] < x then Bracket(xs, x, from + 1) else from
  }

  /** The scan as the source writes it. */
  method BracketLoop(xs: seq<real>, x: real) returns (i: nat)
    requires 2 <= |xs| && x <= xs[|xs| - 1]
    ensures i == Bracket(xs, x, 1)
  {
    i := 1;
    while xs[i] < x
      invariant 1 <= i < |xs|
      invariant Bracket(xs, x, i) == Bracket(xs, x, 1)
      decreases |xs| - i
    {
      i := i + 1;
    }
  }

  /** For increasing knots the scan lands on the interval holding x. */
  lemma BracketHolds(xs: seq<real>, x: real)
    requires 2 <= |xs| && Ascending(xs) && xs[0] <= x <= xs[|xs| - 1]
    ensures xs[Bracket(xs, x, 1) - 1] <= x <= xs[Bracket(xs, x, 1)]
  {
    var i := Bracket(xs, x, 1);
    if i > 1 {
      assert xs[i - 1] < x;
    }
  }

  /** At a knot, the scan stops on that knot (on knot 1 for the first knot). */
  lemma BracketAtKnot(xs: seq<real>, k: nat)
    requires 2 <= |xs| && Ascending(xs) && k < |xs|
    ensures xs[k] <= xs[|xs| - 1]
    ensures Bracket(xs, xs[k], 1) == if k == 0 then 1 else k
  {
    if k < |xs| - 1 {
      AscendingOrdered(xs, k, |xs| - 1);
    }
    var i := Bracket(xs, xs[k], 1);
    if i < k {
      AscendingOrdered(xs, i, k);
    }
  }

  /**
   * The cubic Hermite segment between (x0, y0) with slope k0 and (x1, y1)
   * with slope k1. When both slopes are the chord's, the cubic terms vanish
   * and the segment is the straight line through its knots.
   */
  function Hermite(x0: real, x1: real, y0: real, y1: real, k0: real, k1: real, x: real): (r: real)
    requires x0 < x1
    ensures k0 * (x1 - x0) == y1 - y0 && k1 * (x1 - x0) == y1 - y0 ==>
      r == y0 + (x - x0) / (x1 - x0) * (y1 - y0)
  {
    var dx := x1 - x0;
    var t := (x - x0) / dx;
    var a := k0 * dx - (y1 - y0);
    var b := -k1 * dx + (y1 - y0);
    (1.0 - t) * y0 + t * y1 + t * (1.0 - t) * (a * (1.0 - t) + b * t)
  }

  /** The segment passes through both of its knots. */
  lemma HermiteEnds(x0: real, x1: real, y0: real, y1: real, k0: real, k1: real)
    requires x0 < x1
    ensures Hermite(x0, x1, y0, y1, k0, k1, x0) == y0
    ensures Hermite(x0, x1, y0, y1, k0, k1, x1) == y1
  {
    assert (x1 - x0) / (x1 - x0) == 1.0;
  }

  /** The normalised position inside [x0, x1] is in [0, 1]. */
  lemma PositionInUnit(x0: real, x1: real, x: real)
    requires x0 < x1 && x0 <= x <= x1
    ensures 0.0 <= (x - x0) / (x1 - x0) <= 1.0
  {
    DSP.QuotientInUnit(x - x0, x1 - x0, (x - x0) / (x1 - x0));
  }

  /** Every knot has the first knot's output and a zero slope. */
  predicate Flat(table: Table)
  {
    forall j :: 0 <= j < |table.xs| ==> table.ys[j] == table.ys[0] && table.ks[j] == 0.0
  }

  /** `InterpolateNoBias`: bracket x, then evaluate that segment. A flat table gives a flat curve. */
  function InterpolateNoBias(table: Table, x: real): (r: real)
    requires x <= table.xs[|table.xs| - 1]
    ensures Flat(table) ==> r == table.ys[0]
  {
    var xs := table.xs;
    var i := Bracket(xs, x, 1);
    AscendingOrdered(xs, i - 1, i);
    Hermite(xs[i - 1], xs[i], table.ys[i - 1], table.ys[i], table.ks[i - 1], table.ks[i], x)
  }

  /** At every knot the curve returns that knot's output. */
  lemma InterpolateNoBiasAtKnot(table: Table, k: nat)
    requires k < |table.xs|
    ensures table.xs[k] <= table.xs[|table.xs| - 1]
    ensures InterpolateNoBias(table, table.xs[k]) == table.ys[k]
  {
    var xs := table.xs;
    if k < |xs| - 1 {
      AscendingOrdered(xs, k, |xs| - 1);
    }
    BracketAtKnot(xs, k);
    var i := if k == 0 then 1 else k;
    AscendingOrdered(xs, i - 1, i);
    HermiteEnds(xs[i - 1], xs[i], table.ys[i - 1], table.ys[i], table.ks[i - 1], table.ks[i]);
  }

  /** The interpolated sample lies on the segment whose knots bracket it, at a position in [0, 1]. */
  lemma InterpolateNoBiasSegment(table: Table, x: real)
    requires table.xs[0] <= x <= table.xs[|table.xs| - 1]
    ensures var i := Bracket(table.xs, x, 1);
      table.xs[i - 1] <= x <= table.xs[i] && table.xs[i - 1] < table.xs[i] &&
      0.0 <= (x - table.xs[i - 1]) / (table.xs[i] - table.xs[i - 1]) <= 1.0
  {
    var xs := table.xs;
    BracketHolds(xs, x);
    var i := Bracket(xs, x, 1);
    AscendingOrdered(xs, i - 1, i);
    PositionInUnit(xs[i - 1], xs[i], x);
  }

  /**
   * `Interpolate`: add the bias, clamp into the table's range, interpolate.
   * A flat table gives the same output for every input.
   */
  function Interpolate(ip: Interpolator, input: real): (r: real)
    ensures Flat(ip.table) ==> r == ip.table.ys[0]
  {
    InterpolateNoBias(ip.table, Clamp(input + ip.bias, ip.lo, ip.hi))
  }

  /** The clamped argument never leaves the table, so there is no extrapolation. */
  lemma InterpolateStaysInTable(ip: Interpolator, input: real)
    ensures ip.table.xs[0] <= Clamp(input + ip.bias, ip.lo, ip.hi) <= ip.table.xs[|ip.table.xs| - 1]
  {
  }

  /** With no bias, feeding a knot's input returns that knot's output. */
  lemma InterpolateAtKnot(ip: Interpolator, k: nat)
    requires ip.bias == 0.0 && k < |ip.table.xs|
    ensures Interpolate(ip, ip.table.xs[k]) == ip.table.ys[k]
  {
    var xs := ip.table.xs;
    if 0 < k {
      AscendingOrdered(xs, 0, k);
    }
    if k < |xs| - 1 {
      AscendingOrdered(xs, k, |xs| - 1);
    }
    InterpolateNoBiasAtKnot(ip.table, k);
  }

  /** Inputs beyond either end give the curve's value just inside that end. */
  lemma InterpolateSaturates(ip: Interpolator, input: real)
    ensures input + ip.bias > ip.hi ==> Interpolate(ip, input) == InterpolateNoBias(ip.table, ip.hi - Margin)
    ensures input + ip.bias < ip.lo ==> Interpolate(ip, input) == InterpolateNoBias(ip.table, ip.lo + Margin)
  {
  }

  // ---------------------------------------------------------------------
  // Blocks
  // ---------------------------------------------------------------------

  /** Block `Process`: every sample interpolated; the right channel only in stereo. */
  function Process(ip: Interpolator, input: Frame, output: Frame, len: nat): (r: Frame)
    requires Fits(input, len) && Fits(output, len)
    ensures SameShape(r, output)
    ensures forall i :: 0 <= i < len ==> r.left[i] == Interpolate(ip, input.left[i])
    ensures r.left[len..] == output.left[len..]
    ensures Stereo(input, output) ==> forall i :: 0 <= i < len ==> r.right.value[i] == Interpolate(ip, input.right.value[i])
    ensures !Stereo(input, output) ==> r.right == output.right
  {
    MapFrame(x => Interpolate(ip, x), input, output, len)
  }

  /** The one-sample `Process` runs the block form on a mono block of one. */
  function ProcessSample(ip: Interpolator, input: real): (r: real)
    ensures r == Interpolate(ip, input)
  {
    Process(ip, Frame([input], None), Frame([0.0], None), 1).left[0]
  }
}
