/**
 * `Lowpass1`: a first-order low-pass stage. `Update` pre-warps the cutoff,
 * builds the normalised bilinear-transform coefficients of f / (s + f) and
 * installs them in the underlying `Transfer<2>`.
 */
module Lowpass1 {
  import opened Libm
  import opened Utils
  import opened DSP
  import FirstOrder
  import Transfer
  import Bilinear

  /** Cutoffs at or above this fraction of the rate are pulled down. */
  const NyquistFraction: real := 0.5
  /** The fraction of the rate they are pulled down to. */
  const ClampFraction: real := 0.499
  /** The warped frequency used instead of 0. */
  const ZeroGuard: real := 0.0001

  /** The cutoff `Update` keeps: at most 0.499 * rate once it reaches half the rate. */
  function ClampFreq(freq: real, sampleRate: real): (r: real)
    ensures freq >= sampleRate * NyquistFraction ==> r == sampleRate * ClampFraction
    ensures freq < sampleRate * NyquistFraction ==> r == freq
    ensures sampleRate > 0.0 ==> r < sampleRate * NyquistFraction
  {
    if freq >= sampleRate * NyquistFraction then sampleRate * ClampFraction else freq
  }

  /** The pre-warped frequency 2 * rate * tan(pi * freq / rate), with 0 replaced by 0.0001. */
  function Warp(m: Math, freq: real, sampleRate: real): (r: real)
    requires sampleRate > 0.0
    ensures r != 0.0
    ensures Valid(m) && 0.0 <= freq < sampleRate * NyquistFraction ==> r > 0.0
  {
    var arg := (freq * 2.0 * Pi) / (sampleRate * 2.0);
    var f := 2.0 * sampleRate * m.tan(arg);
    assert 0.0 <= freq < sampleRate * NyquistFraction ==> 0.0 <= arg < Pi / 2.0 by {
      if 0.0 <= freq < sampleRate * NyquistFraction {
        WarpArgument(freq, sampleRate);
      }
    }
    if f == 0.0 then ZeroGuard else f
  }

  lemma WarpArgument(freq: real, sampleRate: real)
    requires sampleRate > 0.0 && 0.0 <= freq < sampleRate * NyquistFraction
    ensures 0.0 <= (freq * 2.0 * Pi) / (sampleRate * 2.0) < Pi / 2.0
  {
    var arg := (freq * 2.0 * Pi) / (sampleRate * 2.0);
    assert arg == Pi * (freq / sampleRate);
    assert freq / sampleRate < 0.5;
  }

  /**
   * The normalised coefficients for warped frequency f: b = f / (f + 2 rate)
   * twice, a = (1, (f - 2 rate) / (f + 2 rate)), each scaled by the one
   * reciprocal aInv as the source does.
   */
  function Coefficients(f: real, sampleRate: real): (r: (seq<real>, seq<real>))
    requires f + 2.0 * sampleRate != 0.0
    ensures |r.0| == |r.1| == 2
    ensures r.1[0] == 1.0 && r.0[0] == r.0[1]
    ensures r.0[0] * (f + 2.0 * sampleRate) == f
    ensures r.1[1] * (f + 2.0 * sampleRate) == f - 2.0 * sampleRate
  {
    var aInv := 1.0 / (f + 2.0 * sampleRate);
    ([f * aInv, f * aInv], [1.0, (f - 2.0 * sampleRate) * aInv])
  }

  /** Unity gain at DC: (b0 + b1) / (a0 + a1) == 1 whenever f is not 0, which the guard ensures. */
  lemma CoefficientsUnityDc(f: real, sampleRate: real)
    requires f + 2.0 * sampleRate != 0.0 && f != 0.0
    ensures Coefficients(f, sampleRate).1[0] + Coefficients(f, sampleRate).1[1] != 0.0
    ensures (Coefficients(f, sampleRate).0[0] + Coefficients(f, sampleRate).0[1])
      / (Coefficients(f, sampleRate).1[0] + Coefficients(f, sampleRate).1[1]) == 1.0
  {
    var r := Coefficients(f, sampleRate);
    var g := f + 2.0 * sampleRate;
    assert (r.1[0] + r.1[1]) * g == 2.0 * f;
    assert (r.0[0] + r.0[1]) * g == 2.0 * f;
  }

  /**
   * The coefficients are the order-1 bilinear transform, at the stage's
   * sample rate, of the analog prototype f / (f + s): b = (f, 0), a = (f, 1).
   */
  lemma CoefficientsAreBilinear(f: real, sampleRate: real)
    requires f + 2.0 * sampleRate != 0.0
    ensures Bilinear.Leading([f, 1.0], sampleRate) == f + 2.0 * sampleRate
    ensures Coefficients(f, sampleRate) == Bilinear.Transform1([f, 0.0], [f, 1.0], sampleRate)
  {
    Bilinear.LeadingSmall([f, 1.0], sampleRate);
    var c := Coefficients(f, sampleRate);
    var t := Bilinear.Transform1([f, 0.0], [f, 1.0], sampleRate);
    var z := Bilinear.StoZ1([f, 0.0], [f, 1.0], sampleRate);
    assert z.0 == [f, f] && z.1 == [f + 2.0 * sampleRate, f - 2.0 * sampleRate];
    var g := f + 2.0 * sampleRate;
    assert t.0[0] * g == f && t.0[1] * g == f && t.1[1] * g == f - 2.0 * sampleRate;
    Cancel(t.0[0], c.0[0], g);
    Cancel(t.0[1], c.0[1], g);
    Cancel(t.1[1], c.1[1], g);
    assert t.0 == c.0;
    assert t.1 == c.1;
  }

  /** Arithmetic fact: a non-zero common factor cancels. */
  lemma Cancel(x: real, y: real, g: real)
    requires g != 0.0 && x * g == y * g
    ensures x == y
  {
  }

  /** The stage's preconditions for `Update`: a positive rate and a non-negative cutoff. */
  predicate CanUpdate(s: FirstOrder.Stage)
  {
    FirstOrder.Valid(s) && s.sampleRate > 0.0 && s.freq >= 0.0
  }

  /**
   * `Update`: clamp the stored cutoff below half the rate (persistently),
   * warp it, and install b then a. The filter's history is untouched.
   */
  function Update(m: Math, s: FirstOrder.Stage): (r: FirstOrder.Stage)
    requires Valid(m) && CanUpdate(s)
    ensures FirstOrder.Valid(r)
    ensures r.freq == ClampFreq(s.freq, s.sampleRate) && r.sampleRate == s.sampleRate
    ensures r.tf.a[0] == 1.0 && r.tf.gain == 1.0 && r.tf.b[0] == r.tf.b[1]
    ensures r.tf.a[0] + r.tf.a[1] != 0.0 && (r.tf.b[0] + r.tf.b[1]) / (r.tf.a[0] + r.tf.a[1]) == 1.0
    ensures r.tf.index == s.tf.index && r.tf.left == s.tf.left && r.tf.right == s.tf.right
  {
    var freq := ClampFreq(s.freq, s.sampleRate);
    var f := Warp(m, freq, s.sampleRate);
    var c := Coefficients(f, s.sampleRate);
    CoefficientsUnityDc(f, s.sampleRate);
    s.(freq := freq, tf := Transfer.SetA(Transfer.SetB(s.tf, c.0), c.1))
  }

  /** The installed coefficients are the bilinear transform of f / (s + f) at the warped cutoff. */
  lemma UpdateIsBilinear(m: Math, s: FirstOrder.Stage)
    requires Valid(m) && CanUpdate(s)
    ensures var f := Warp(m, ClampFreq(s.freq, s.sampleRate), s.sampleRate);
      Bilinear.Leading([f, 1.0], s.sampleRate) != 0.0 &&
      (Update(m, s).tf.b, Update(m, s).tf.a) == Bilinear.Transform1([f, 0.0], [f, 1.0], s.sampleRate)
  {
    var f := Warp(m, ClampFreq(s.freq, s.sampleRate), s.sampleRate);
    CoefficientsAreBilinear(f, s.sampleRate);
  }

  /** Updating twice is updating once: the clamped cutoff is not clamped again. */
  lemma UpdateIdempotent(m: Math, s: FirstOrder.Stage)
    requires Valid(m) && CanUpdate(s)
    ensures CanUpdate(Update(m, s)) && Update(m, Update(m, s)) == Update(m, s)
  {
  }

  /**
   * `SetFreq`: store the cutoff, and recompute exactly when it is not nearly
   * equal to the previous one. Only a recompute needs a usable rate and cutoff.
   */
  function SetFreq(m: Math, s: FirstOrder.Stage, freq: real): (r: FirstOrder.Stage)
    requires Valid(m) && FirstOrder.Valid(s)
    requires NotNearlyEqual(s.freq, freq) ==> s.sampleRate > 0.0 && freq >= 0.0
    ensures FirstOrder.Valid(r) && r.sampleRate == s.sampleRate
    ensures !NotNearlyEqual(s.freq, freq) ==> r == s.(freq := freq)
    ensures NotNearlyEqual(s.freq, freq) ==> r.freq == ClampFreq(freq, s.sampleRate) && r.tf.a[0] == 1.0
    ensures r.tf.index == s.tf.index && r.tf.left == s.tf.left && r.tf.right == s.tf.right
  {
    var (stored, dirty) := FirstOrder.StoreFreq(s, freq);
    if dirty then Update(m, stored) else stored
  }

  /** What `GetFreq` reads back after `SetFreq`: the value set, or its clamp once recomputed. */
  lemma GetFreqAfterSetFreq(m: Math, s: FirstOrder.Stage, freq: real)
    requires Valid(m) && FirstOrder.Valid(s)
    requires NotNearlyEqual(s.freq, freq) ==> s.sampleRate > 0.0 && freq >= 0.0
    ensures freq < s.sampleRate * NyquistFraction ==> SetFreq(m, s, freq).freq == freq
    ensures NotNearlyEqual(s.freq, freq) && freq >= s.sampleRate * NyquistFraction ==>
      SetFreq(m, s, freq).freq == s.sampleRate * ClampFraction
  {
  }

  /**
   * Setting the same cutoff a second time changes nothing, at any rate of
   * at least 1 Hz: below half the rate the stored value matches, and above
   * it the clamped value is far enough from the request to recompute the
   * same coefficients.
   */
  lemma SetFreqTwice(m: Math, s: FirstOrder.Stage, freq: real)
    requires Valid(m) && FirstOrder.Valid(s) && s.sampleRate >= 1.0 && freq >= 0.0
    ensures SetFreq(m, SetFreq(m, s, freq), freq) == SetFreq(m, s, freq)
  {
    var once := SetFreq(m, s, freq);
    if NotNearlyEqual(s.freq, freq) {
      assert once == Update(m, s.(freq := freq));
      if freq >= s.sampleRate * NyquistFraction {
        ClampedIsFar(freq, s.sampleRate);
        NearlyEqualSymmetric(once.freq, freq);
        assert SetFreq(m, once, freq) == Update(m, once.(freq := freq));
        UpdateDependsOnSettings(m, once.(freq := freq), s.(freq := freq));
      }
    }
  }

  /** A request at or above half the rate is never nearly equal to its clamp. */
  lemma ClampedIsFar(freq: real, sampleRate: real)
    requires sampleRate >= 1.0 && freq >= sampleRate * NyquistFraction
    ensures NotNearlyEqual(freq, sampleRate * ClampFraction)
  {
    var a := sampleRate * ClampFraction;
    var gap := freq - a;
    assert gap >= sampleRate / 1000.0 >= 1.0 / 1000.0;
    var norm := FMin(Abs(freq + a), FltMax);
    assert norm <= freq + a;
    assert DefaultEpsilon < 1.0 / 50000.0;
    ScaleBelow(DefaultEpsilon, norm, freq + a);
    assert DefaultEpsilon * (freq + a) < gap;
    assert FltMin < gap;
  }

  /** `Update` reads only the cutoff, the rate and the history it keeps: not the old coefficients. */
  lemma UpdateDependsOnSettings(m: Math, s: FirstOrder.Stage, t: FirstOrder.Stage)
    requires Valid(m) && CanUpdate(s) && CanUpdate(t)
    requires s.freq == t.freq && s.sampleRate == t.sampleRate
    requires s.tf.index == t.tf.index && s.tf.left == t.tf.left && s.tf.right == t.tf.right
    ensures Update(m, s) == Update(m, t)
  {
    var u, v := Update(m, s), Update(m, t);
    assert u.tf.b == v.tf.b && u.tf.a == v.tf.a && u.tf.gain == v.tf.gain;
    assert u.tf == v.tf;
  }
}
