/** The static helpers of the Utils class: response curves, block copy/gain/saturation, tolerant comparison. */
module Utils {
  import opened DSP
  import opened Libm
  import opened Buffers

  /** `ExpResponse`: (20^x - 1) / 19, an exponential taper of a [0, 1] control that keeps both ends. */
  function ExpResponse(m: Math, x: real): (r: real)
    ensures Valid(m) && x == 0.0 ==> r == 0.0
    ensures Valid(m) && x == 1.0 ==> r == 1.0
    ensures Valid(m) && 0.0 <= x <= 1.0 ==> 0.0 <= r <= 1.0
  {
    (m.pow(20.0, x) - 1.0) / 19.0
  }

  /** `DecResponse`: 100^x / 100, which maps [0, 1] onto [0.01, 1]. */
  function DecResponse(m: Math, x: real): (r: real)
    ensures Valid(m) && x == 0.0 ==> r == 0.01
    ensures Valid(m) && x == 1.0 ==> r == 1.0
    ensures Valid(m) && 0.0 <= x <= 1.0 ==> 0.01 <= r <= 1.0
  {
    m.pow(100.0, x) / 100.0
  }

  /** `OctResponse`: (4^x - 1) / 4 + 0.25, which maps [0, 1] onto [0.25, 1]. */
  function OctResponse(m: Math, x: real): (r: real)
    ensures Valid(m) && x == 0.0 ==> r == 0.25
    ensures Valid(m) && x == 1.0 ==> r == 1.0
    ensures Valid(m) && 0.0 <= x <= 1.0 ==> 0.25 <= r <= 1.0
  {
    (m.pow(4.0, x) - 1.0) / 4.0 + 0.25
  }

  /** `Gain2DB`: 20 * log10(gain), the level in dB; `DbToGain` undoes it for a positive gain. */
  function GainToDb(m: Math, gain: real): (r: real)
    ensures Valid(m) && gain > 0.0 ==> m.pow(10.0, r / 20.0) == gain
  {
    20.0 * m.log10(gain)
  }

  /** `DB2gain`: 10^(dB / 20), a positive gain, unity at 0 dB, from which `GainToDb` recovers the level. */
  function DbToGain(m: Math, db: real): (r: real)
    ensures Valid(m) ==> r > 0.0
    ensures Valid(m) && db == 0.0 ==> r == 1.0
    ensures Valid(m) ==> GainToDb(m, r) == db
  {
    m.pow(10.0, db / 20.0)
  }

  /** `Detented`: values within lim of mid snap to mid; the rest pass through. */
  function Detented(val: real, mid: real, lim: real): (r: real)
    ensures mid - lim <= val <= mid + lim ==> r == mid
    ensures val > mid + lim || val < mid - lim ==> r == val
  {
    if val > mid + lim || val < mid - lim then val else mid
  }

  /** The default dead band of `Detented`. */
  const DetentWidth: real := 0.01

  /** Scalar `Gain`: unity gain passes the sample, zero gain silences it, a positive gain keeps its sign. */
  function Gain(x: real, gain: real): (r: real)
    ensures gain == 1.0 ==> r == x
    ensures gain == 0.0 ==> r == 0.0
    ensures gain > 0.0 ==> (r > 0.0 <==> x > 0.0) && (r < 0.0 <==> x < 0.0)
  {
    x * gain
  }

  /** Scalar `Saturate(x, min, max)`: the clamp. */
  function SaturateRange(x: real, lo: real, hi: real): (r: real)
    ensures lo <= hi ==> lo <= r <= hi
    ensures lo <= x <= hi ==> r == x
  {
    FClamp(x, lo, hi)
  }

  /** Scalar `Saturate(x, max)`: symmetric clamp to [-max, max]. */
  function Saturate(x: real, max: real): (r: real)
    ensures max >= 0.0 ==> -max <= r <= max
    ensures -max <= x <= max ==> r == x
    ensures max >= 0.0 && x > max ==> r == max
    ensures max >= 0.0 && x < -max ==> r == -max
  {
    SaturateRange(x, -max, max)
  }

  /** Block `Copy`. */
  function Copy(input: Frame, output: Frame, len: nat): (r: Frame)
    requires Fits(input, len) && Fits(output, len)
    ensures SameShape(r, output)
    ensures r.left[..len] == input.left[..len]
    ensures r.left[len..] == output.left[len..]
    ensures Stereo(input, output) ==> r.right.value[..len] == input.right.value[..len]
    ensures !Stereo(input, output) ==> r.right == output.right
  {
    MapFrame(x => x, input, output, len)
  }

  /** Block `Gain`. */
  function BlockGain(input: Frame, gain: real, output: Frame, len: nat): (r: Frame)
    requires Fits(input, len) && Fits(output, len)
    ensures SameShape(r, output)
    ensures forall i :: 0 <= i < len ==> r.left[i] == input.left[i] * gain
    ensures r.left[len..] == output.left[len..]
    ensures Stereo(input, output) ==> forall i :: 0 <= i < len ==> r.right.value[i] == input.right.value[i] * gain
    ensures !Stereo(input, output) ==> r.right == output.right
  {
    MapFrame(x => Gain(x, gain), input, output, len)
  }

  /** Block `Saturate(…, max, …)`: the symmetric clamp sample by sample. */
  function BlockSaturate(input: Frame, max: real, output: Frame, len: nat): (r: Frame)
    requires Fits(input, len) && Fits(output, len)
    requires max >= 0.0
    ensures SameShape(r, output)
    ensures forall i :: 0 <= i < len ==> -max <= r.left[i] <= max
    ensures forall i :: 0 <= i < len && -max <= input.left[i] <= max ==> r.left[i] == input.left[i]
    ensures r.left[len..] == output.left[len..]
    ensures Stereo(input, output) ==> forall i :: 0 <= i < len ==> -max <= r.right.value[i] <= max
    ensures !Stereo(input, output) ==> r.right == output.right
  {
    MapFrame(x => Saturate(x, max), input, output, len)
  }

  /** `ComputeLpAlpha`: the one-pole coefficient 2*pi*ts*fc / (2*pi*ts*fc + 1). */
  function ComputeLpAlpha(fc: real, ts: real): (r: real)
    requires 2.0 * Pi * ts * fc + 1.0 != 0.0
    ensures fc * ts > 0.0 ==> 0.0 < r < 1.0
    ensures fc * ts == 0.0 ==> r == 0.0
  {
    var w := 2.0 * Pi * ts * fc;
    assert fc * ts > 0.0 ==> w > 0.0;
    w / (w + 1.0)
  }

  /** FLT_EPSILON, FLT_MIN and FLT_MAX of IEEE single precision. */
  const FltEpsilon: real := 1.0 / 8388608.0
  const FltMin: real := 1.0 / 85070591730234615865843651857942052864.0
  const FltMax: real := 340282346638528859811704183484516925440.0

  /** The default relative tolerance of `NearlyEqual`. */
  const DefaultEpsilon: real := 128.0 * FltEpsilon

  /**
   * `NearlyEqual` with explicit tolerances: equal values, or a difference
   * below the larger of the absolute threshold and epsilon times |a + b|
   * (capped at FLT_MAX). The source asserts the bounds on epsilon.
   */
  function NearlyEqualWith(a: real, b: real, epsilon: real, absTh: real): (r: bool)
    requires FltEpsilon <= epsilon < 1.0
    ensures a == b ==> r
    ensures Abs(a - b) < absTh ==> r
    ensures r && a != b ==> Abs(a - b) < FMax(absTh, epsilon * FltMax)
  {
    var norm := FMin(Abs(a + b), FltMax);
    ToleranceBelow(epsilon, norm, absTh);
    a == b || Abs(a - b) < FMax(absTh, epsilon * norm)
  }

  /** The tolerance never exceeds the one computed at the FLT_MAX cap. */
  lemma ToleranceBelow(epsilon: real, norm: real, absTh: real)
    requires epsilon >= 0.0 && norm <= FltMax
    ensures FMax(absTh, epsilon * norm) <= FMax(absTh, epsilon * FltMax)
  {
    ScaleBelow(epsilon, norm, FltMax);
    FMaxMonotone(absTh, epsilon * norm, epsilon * FltMax);
  }

  lemma ScaleBelow(k: real, x: real, y: real)
    requires k >= 0.0 && x <= y
    ensures k * x <= k * y
  {
  }

  /** The comparison does not depend on the order of its arguments. */
  lemma NearlyEqualWithSymmetric(a: real, b: real, epsilon: real, absTh: real)
    requires FltEpsilon <= epsilon < 1.0
    ensures NearlyEqualWith(a, b, epsilon, absTh) == NearlyEqualWith(b, a, epsilon, absTh)
  {
    assert Abs(a - b) == Abs(b - a);
    assert a + b == b + a;
  }

  /** `NearlyEqual` with the default tolerances 128*FLT_EPSILON and FLT_MIN. */
  function NearlyEqual(a: real, b: real): (r: bool)
    ensures a == b ==> r
    ensures Abs(a - b) < FltMin ==> r
  {
    NearlyEqualWith(a, b, DefaultEpsilon, FltMin)
  }

  /** `NotNearlyEqual`: the exact negation; it can only hold of distinct values. */
  function NotNearlyEqual(a: real, b: real): (r: bool)
    ensures r ==> a != b
    ensures r != NearlyEqual(a, b)
  {
    !NearlyEqual(a, b)
  }

  lemma NearlyEqualSymmetric(a: real, b: real)
    ensures NearlyEqual(a, b) == NearlyEqual(b, a)
    ensures NotNearlyEqual(a, b) == NotNearlyEqual(b, a)
  {
    NearlyEqualWithSymmetric(a, b, DefaultEpsilon, FltMin);
  }
}
