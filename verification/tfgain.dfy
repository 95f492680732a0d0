/**
 * `TFGain`: the gain stage of the distortion, an order-3 analog transfer
 * function of the op-amp feedback network (two resistors, three capacitors,
 * the gain pot) mapped to the digital domain by the order-3 bilinear
 * transform and installed in a `Transfer<4>`.
 */
module TFGain {
  import opened Utils
  import opened Series
  import Transfer
  import Bilinear

  /** Component values of the feedback network. */
  const R1: real := 560.0
  const C1: real := 0.0000047
  const C2: real := 0.0000022
  const C3: real := 0.0000000001
  /** The gain pot's full-scale resistance. */
  const PotScale: real := 150000.0
  /** The series resistor to ground, and what the RUETZ switch adds to it. */
  const R2Base: real := 47.0
  const R2Ruetz: real := 10000.0

  /** The sample rate a stage assumes before `Init` or `SetSampleRate`. */
  const DefaultSampleRate: real := 44100.0

  /** R2: 47 ohms, or 10047 ohms with the RUETZ mod engaged. */
  function R2(ruetz: bool): (r: real)
    ensures ruetz ==> r == 10047.0
    ensures !ruetz ==> r == 47.0
  {
    R2Base + (if ruetz then R2Ruetz else 0.0)
  }

  /**
   * The analog numerator, lowest power of s first; g is the pot resistance
   * 150e3 * gain. It differs from the denominator only at orders 1 and 2,
   * by g (C1 + C2) at order 1, and equals it when g is 0.
   */
  function Numerator(g: real, r2: real): (r: seq<real>)
    ensures |r| == 4 && r[0] == 1.0
    ensures r[1] - Denominator(g, r2)[1] == (C1 + C2) * g
    ensures r[3] == Denominator(g, r2)[3]
    ensures g == 0.0 ==> r == Denominator(g, r2)
  {
    [1.0,
     C1 * g + C2 * g + C3 * g + C1 * R1 + C2 * r2,
     C1 * C2 * g * R1 + C1 * C3 * g * R1 + C1 * C2 * g * r2 + C2 * C3 * g * r2 + C1 * C2 * R1 * r2,
     C1 * C2 * C3 * g * R1 * r2]
  }

  /** The analog denominator, lowest power of s first: unity at DC, and of order 2 only when g is 0. */
  function Denominator(g: real, r2: real): (r: seq<real>)
    ensures |r| == 4 && r[0] == 1.0
    ensures g == 0.0 ==> r[3] == 0.0
  {
    [1.0,
     C3 * g + C1 * R1 + C2 * r2,
     C1 * C3 * g * R1 + C2 * C3 * g * r2 + C1 * C2 * R1 * r2,
     C1 * C2 * C3 * g * R1 * r2]
  }

  /**
   * The analog polynomials for a gain setting: both start at 1 (unity gain
   * at DC), share their highest coefficient, differ at order 1 by the pot
   * resistance times C1 + C2, and coincide when the gain is 0.
   */
  function Analog(gain: real, ruetz: bool): (r: (seq<real>, seq<real>))
    ensures |r.0| == |r.1| == 4
    ensures r.0[0] == 1.0 && r.1[0] == 1.0
    ensures r.0[3] == r.1[3]
    ensures r.0[1] - r.1[1] == (C1 + C2) * (PotScale * gain)
    ensures gain == 0.0 ==> r.0 == r.1
  {
    var g := PotScale * gain;
    (Numerator(g, R2(ruetz)), Denominator(g, R2(ruetz)))
  }

  /** With a non-negative gain every analog coefficient is non-negative. */
  lemma AnalogNonnegative(gain: real, ruetz: bool)
    requires gain >= 0.0
    ensures forall j :: 0 <= j < 4 ==> Analog(gain, ruetz).0[j] >= 0.0 && Analog(gain, ruetz).1[j] >= 0.0
  {
    var g := PotScale * gain;
    var r2 := R2(ruetz);
    assert g >= 0.0 && r2 > 0.0;
    var gr := g * r2;
    assert gr >= 0.0;
    assert C1 * C2 * g * r2 == (C1 * C2) * gr;
    assert C2 * C3 * g * r2 == (C2 * C3) * gr;
    assert C1 * C2 * C3 * g * R1 * r2 == (C1 * C2 * C3 * R1) * gr;
  }

  /**
   * The denominator evaluated at s = 2 * rate, the value the transform
   * divides by, is at least 1 for a non-negative gain and rate.
   */
  lemma LeadingAtLeastOne(gain: real, ruetz: bool, sampleRate: real)
    requires gain >= 0.0 && sampleRate >= 0.0
    ensures Bilinear.Leading(Analog(gain, ruetz).1, sampleRate) >= 1.0
  {
    var a := Analog(gain, ruetz).1;
    AnalogNonnegative(gain, ruetz);
    Bilinear.LeadingSmall(a, sampleRate);
    var f2 := sampleRate * sampleRate;
    var f3 := sampleRate * sampleRate * sampleRate;
    assert f2 >= 0.0;
    assert f3 == f2 * sampleRate >= 0.0;
    assert a[1] * sampleRate >= 0.0;
    assert a[2] * f2 >= 0.0;
    assert a[3] * f3 >= 0.0;
  }

  datatype Stage = Stage(gain: real, sampleRate: real, ruetz: bool, tf: Transfer.Filter)

  /** Four coefficients on each side. */
  predicate Valid(s: Stage)
  {
    Transfer.Valid(s.tf) && |s.tf.b| == 4
  }

  /** A constructed stage: gain 0, RUETZ off, 44100 Hz, fresh filter. */
  function Default(): (r: Stage)
    ensures Valid(r)
    ensures r.gain == 0.0 && !r.ruetz && r.sampleRate == DefaultSampleRate
    ensures r.tf.gain == 0.0
  {
    Stage(0.0, DefaultSampleRate, false, Transfer.Fresh(4))
  }

  /** `Init`: stores the rate and clears the filter; gain and RUETZ are kept. */
  function Init(s: Stage, sampleRate: real): (r: Stage)
    requires Valid(s)
    ensures Valid(r)
    ensures r.sampleRate == sampleRate && r.gain == s.gain && r.ruetz == s.ruetz
    ensures forall j :: 0 <= j < 4 ==> r.tf.b[j] == 0.0 && r.tf.a[j] == 0.0
    ensures forall k :: 0 <= k < Transfer.Modulo ==> r.tf.left.input[k] == 0.0 && r.tf.left.output[k] == 0.0
  {
    s.(sampleRate := sampleRate, tf := Transfer.Init(s.tf))
  }

  /** `SetSampleRate`: stores the rate; the coefficients stay those of the old rate. */
  function SetSampleRate(s: Stage, sampleRate: real): (r: Stage)
    ensures r.sampleRate == sampleRate
    ensures r.gain == s.gain && r.ruetz == s.ruetz && r.tf == s.tf
  {
    s.(sampleRate := sampleRate)
  }

  /** What `Update` needs for the transform's division to be defined. */
  predicate CanUpdate(s: Stage)
  {
    Valid(s) && s.gain >= 0.0 && s.sampleRate > 0.0
  }

  /**
   * `Update`: transform the analog polynomials at the stage's rate and
   * install b then a. The result has a monic denominator, the cached gain
   * is 1, the digital gain at DC is 1, and the history is kept.
   */
  function Update(s: Stage): (r: Stage)
    requires CanUpdate(s)
    ensures CanUpdate(r)
    ensures r.gain == s.gain && r.sampleRate == s.sampleRate && r.ruetz == s.ruetz
    ensures r.tf.a[0] == 1.0 && r.tf.gain == 1.0
    ensures Sum(r.tf.a) != 0.0 && Sum(r.tf.b) / Sum(r.tf.a) == 1.0
    ensures r.tf.index == s.tf.index && r.tf.left == s.tf.left && r.tf.right == s.tf.right
  {
    var an := Analog(s.gain, s.ruetz);
    LeadingAtLeastOne(s.gain, s.ruetz, s.sampleRate);
    Bilinear.Transform3DcGain(an.0, an.1, s.sampleRate);
    var z := Bilinear.Transform3(an.0, an.1, s.sampleRate);
    s.(tf := Transfer.SetA(Transfer.SetB(s.tf, z.0), z.1))
  }

  /** The installed coefficients are `Bilinear<4>::Transform` of the analog network. */
  lemma UpdateIsBilinear(s: Stage)
    requires CanUpdate(s)
    ensures Bilinear.Leading(Analog(s.gain, s.ruetz).1, s.sampleRate) >= 1.0
    ensures Update(s).tf.b == Bilinear.Transform3(Analog(s.gain, s.ruetz).0, Analog(s.gain, s.ruetz).1, s.sampleRate).0
    ensures Update(s).tf.a == Bilinear.Transform3(Analog(s.gain, s.ruetz).0, Analog(s.gain, s.ruetz).1, s.sampleRate).1
  {
    LeadingAtLeastOne(s.gain, s.ruetz, s.sampleRate);
  }

  /** At gain 0 the numerator equals the denominator: the stage passes its input through. */
  lemma UpdateUnityAtZeroGain(s: Stage)
    requires CanUpdate(s) && s.gain == 0.0
    ensures Update(s).tf.b == Update(s).tf.a
  {
    var an := Analog(s.gain, s.ruetz);
    assert an.0 == an.1;
  }

  /** `Update` reads only the gain, the switch, the rate and the history it keeps. */
  lemma UpdateDependsOnSettings(s: Stage, t: Stage)
    requires CanUpdate(s) && CanUpdate(t)
    requires s.gain == t.gain && s.ruetz == t.ruetz && s.sampleRate == t.sampleRate
    requires s.tf.index == t.tf.index && s.tf.left == t.tf.left && s.tf.right == t.tf.right
    ensures Update(s) == Update(t)
  {
    var u, v := Update(s), Update(t);
    assert u.tf.b == v.tf.b && u.tf.a == v.tf.a && u.tf.gain == v.tf.gain;
    assert u.tf == v.tf;
  }

  /**
   * `SetGain`: the gain is always stored, and the coefficients are
   * recomputed exactly when it is not nearly equal to the previous gain.
   */
  function SetGain(s: Stage, gain: real): (r: Stage)
    requires Valid(s)
    requires NotNearlyEqual(s.gain, gain) ==> gain >= 0.0 && s.sampleRate > 0.0
    ensures Valid(r) && r.gain == gain && r.ruetz == s.ruetz && r.sampleRate == s.sampleRate
    ensures !NotNearlyEqual(s.gain, gain) ==> r.tf == s.tf
    ensures NotNearlyEqual(s.gain, gain) ==> r.tf.a[0] == 1.0 && r.tf.gain == 1.0
    ensures r.tf.index == s.tf.index && r.tf.left == s.tf.left && r.tf.right == s.tf.right
  {
    var stored := s.(gain := gain);
    if NotNearlyEqual(s.gain, gain) then Update(stored) else stored
  }

  /**
   * `SetRuetz`: the switch is always stored, and the coefficients are
   * recomputed exactly when it flips.
   */
  function SetRuetz(s: Stage, state: bool): (r: Stage)
    requires Valid(s)
    requires s.ruetz != state ==> s.gain >= 0.0 && s.sampleRate > 0.0
    ensures Valid(r) && r.ruetz == state && r.gain == s.gain && r.sampleRate == s.sampleRate
    ensures s.ruetz == state ==> r == s
    ensures s.ruetz != state ==> r.tf.a[0] == 1.0 && r.tf.gain == 1.0
    ensures r.tf.index == s.tf.index && r.tf.left == s.tf.left && r.tf.right == s.tf.right
  {
    var stored := s.(ruetz := state);
    if s.ruetz != state then Update(stored) else stored
  }

  /** Setting the same gain twice recomputes at most once: the second call changes nothing. */
  lemma SetGainTwice(s: Stage, gain: real)
    requires Valid(s) && gain >= 0.0 && s.sampleRate > 0.0
    ensures SetGain(SetGain(s, gain), gain) == SetGain(s, gain)
  {
  }

  /** A switch that is set and then set back recomputes the coefficients of the original setting. */
  lemma SetRuetzBack(s: Stage, state: bool)
    requires CanUpdate(s) && s.ruetz != state
    ensures SetRuetz(SetRuetz(s, state), s.ruetz) == Update(s)
  {
    var once := SetRuetz(s, state);
    assert once.(ruetz := s.ruetz).tf.left == s.tf.left;
    UpdateDependsOnSettings(once.(ruetz := s.ruetz), s);
  }
}
