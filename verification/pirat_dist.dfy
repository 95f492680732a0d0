/**
 * The distortion: parameter staging, coefficient updates and the block
 * pipeline input gain, input high-pass, -3 dB, low-pass, gain stage, op-amp
 * clamp, DC high-pass, clipper pre-clamp, clipper, tone low-pass, output
 * high-pass, level. The build without the DaisySP cross-fader is modelled:
 * there is no dry/wet mix and the hard path is the LED clipper alone.
 */
module Distortion {
  import opened Wrappers
  import opened DSP
  import opened Libm
  import opened Utils
  import opened Buffers
  import Transfer
  import FirstOrder
  import Lowpass1
  import Highpass1
  import TFGain
  import Splines
  import SplineInterpolator

  // ---------------------------------------------------------------------
  // Parameters
  // ---------------------------------------------------------------------

  /** The parameter ids. */
  const ParamGain: int := 0
  const ParamFilter: int := 1
  const ParamLevel: int := 2
  const ParamDryWet: int := 3
  const ParamGainIn: int := 4
  const ParamBypass: int := 5
  const ParamHard: int := 6
  const ParamSiLed: int := 7
  const ParamTight: int := 8
  const ParamRuetz: int := 9

  datatype Params = Params(
    gain: real, filter: real, level: real, dryWet: real, gainIn: real,
    bypass: real, hard: real, siLed: real, tight: real, ruetz: real)

  /** The values a new distortion starts with. */
  const DefaultParams: Params := Params(
    gain := 0.0, filter := 0.0, level := 1.0, dryWet := 1.0, gainIn := 1.0,
    bypass := 0.0, hard := 0.0, siLed := 1.0, tight := 0.0, ruetz := 0.0)

  /** Every value in [0, 1], the two switches exactly 0 or 1: what `SetParam` can store. */
  predicate InRange(p: Params)
  {
    0.0 <= p.gain <= 1.0 && 0.0 <= p.filter <= 1.0 && 0.0 <= p.level <= 1.0 &&
    0.0 <= p.dryWet <= 1.0 && 0.0 <= p.gainIn <= 1.0 && 0.0 <= p.bypass <= 1.0 &&
    0.0 <= p.hard <= 1.0 && 0.0 <= p.siLed <= 1.0 &&
    (p.tight == 0.0 || p.tight == 1.0) && (p.ruetz == 0.0 || p.ruetz == 1.0)
  }

  /** `std::round`: to the nearest integer, halves away from zero. */
  function Round(x: real): (r: int)
    ensures x - 0.5 <= r as real < x + 0.5 || x - 0.5 < r as real <= x + 0.5
    ensures x >= 0.0 ==> r >= 0 && r as real > x - 0.5
    ensures x < 0.0 ==> r <= 0 && r as real < x + 0.5
    ensures 0.0 <= x < 0.5 ==> r == 0
    ensures 0.5 <= x < 1.5 ==> r == 1
  {
    if x >= 0.0 then (x + 0.5).Floor else -((-x + 0.5).Floor)
  }

  /**
   * The store of `SetParam`: the value clamped to [0, 1] goes to the field
   * the id names, rounded for the two switches; an unknown id stores nothing.
   */
  function Store(p: Params, id: int, value: real): (r: Params)
    ensures var v := FClamp(value, 0.0, 1.0);
      && (id == ParamGain ==> r == p.(gain := v))
      && (id == ParamFilter ==> r == p.(filter := v))
      && (id == ParamLevel ==> r == p.(level := v))
      && (id == ParamDryWet ==> r == p.(dryWet := v))
      && (id == ParamGainIn ==> r == p.(gainIn := v))
      && (id == ParamBypass ==> r == p.(bypass := v))
      && (id == ParamHard ==> r == p.(hard := v))
      && (id == ParamSiLed ==> r == p.(siLed := v))
      && (id == ParamTight ==> r == p.(tight := Round(v) as real))
      && (id == ParamRuetz ==> r == p.(ruetz := Round(v) as real))
      && (!(0 <= id <= 9) ==> r == p)
    ensures InRange(p) ==> InRange(r)
  {
    var v := FClamp(value, 0.0, 1.0);
    match id
    case 0 => p.(gain := v)
    case 1 => p.(filter := v)
    case 2 => p.(level := v)
    case 3 => p.(dryWet := v)
    case 4 => p.(gainIn := v)
    case 5 => p.(bypass := v)
    case 6 => p.(hard := v)
    case 7 => p.(siLed := v)
    case 8 => p.(tight := Round(v) as real)
    case 9 => p.(ruetz := Round(v) as real)
    case _ => p
  }

  // ---------------------------------------------------------------------
  // State
  // ---------------------------------------------------------------------

  /** The sample rate a new distortion assumes. */
  const DefaultSampleRate: real := 44100.0

  /** Fixed cutoffs of the stages `Update` does not retune. */
  const InputLowpassCutoff: real := 5000.0
  const DcHighpassCutoff: real := 10.0
  const OutputHighpassCutoff: real := 7.7

  datatype Dist = Dist(
    p: Params,
    sat: real,
    sampleRate: real,
    hipass1: FirstOrder.Stage,
    lowpass1: FirstOrder.Stage,
    gain: TFGain.Stage,
    hipassDC: FirstOrder.Stage,
    filter: FirstOrder.Stage,
    hipass3: FirstOrder.Stage,
    clipper: SplineInterpolator.Interpolator,
    clipper2: SplineInterpolator.Interpolator)

  /** Well-formed stages, and the two clippers built on the diode and LED tables. */
  predicate Valid(d: Dist)
  {
    FirstOrder.Valid(d.hipass1) && FirstOrder.Valid(d.lowpass1) && TFGain.Valid(d.gain) &&
    FirstOrder.Valid(d.hipassDC) && FirstOrder.Valid(d.filter) && FirstOrder.Valid(d.hipass3) &&
    d.clipper.table == Splines.D1N914 && d.clipper2.table == Splines.Led
  }

  /** Valid, with stored parameters in range and every stage at the distortion's positive rate. */
  predicate Ready(d: Dist)
  {
    Valid(d) && InRange(d.p) && d.sampleRate > 0.0 &&
    d.hipass1.sampleRate == d.sampleRate && d.lowpass1.sampleRate == d.sampleRate &&
    d.gain.sampleRate == d.sampleRate && d.hipassDC.sampleRate == d.sampleRate &&
    d.filter.sampleRate == d.sampleRate && d.hipass3.sampleRate == d.sampleRate &&
    Tuned(d)
  }

  /** The stored settings the coefficient updates need to be non-negative. */
  predicate Tuned(d: Dist)
  {
    d.lowpass1.freq >= 0.0 && d.filter.freq >= 0.0 && d.gain.gain >= 0.0
  }

  /** A constructed distortion: default parameters, saturation 0, default stages. */
  function New(): (r: Dist)
    ensures Ready(r)
    ensures r.p == DefaultParams && r.sat == 0.0 && r.sampleRate == DefaultSampleRate
    ensures r.clipper.bias == 0.0 && r.clipper2.bias == 0.0
  {
    var stage := FirstOrder.Default();
    Dist(DefaultParams, 0.0, DefaultSampleRate,
      stage, stage, TFGain.Default(), stage, stage, stage,
      SplineInterpolator.New(Splines.D1N914), SplineInterpolator.New(Splines.Led))
  }

  /**
   * The abstract coefficient update of a `Highpass1` stage. It is assumed
   * to keep the stage well formed and its sample rate as stored.
   */
  ghost predicate HighpassUpdate(hp: FirstOrder.Stage -> FirstOrder.Stage)
  {
    forall s {:trigger hp(s)} :: FirstOrder.Valid(s) ==> FirstOrder.Valid(hp(s)) && hp(s).sampleRate == s.sampleRate
  }

  /** The input high-pass cutoff: 10 Hz, or 310 Hz with TIGHT on. */
  function InputHighpass(tight: real): (r: real)
    ensures tight == 0.0 ==> r == 10.0
    ensures tight == 1.0 ==> r == 310.0
  {
    10.0 + tight * 300.0
  }

  /**
   * The tone control's cutoff 1 / (2 pi 3.3 nF (2.5 k + 100 k * taper)):
   * over the taper's range [0, 1] it runs from 19292 Hz down to 470 Hz.
   */
  function ToneCutoff(m: Math, filter: real): (r: real)
    requires 2500.0 + 100000.0 * ExpResponse(m, filter) != 0.0
    ensures 0.0 <= ExpResponse(m, filter) <= 1.0 ==> 470.0 <= r <= 19292.0
  {
    var d := 2.0 * Pi * 0.0000000033 * (2500.0 + 100000.0 * ExpResponse(m, filter));
    if 0.0 <= ExpResponse(m, filter) <= 1.0 then
      assert 0.0000518 <= d <= 0.00213;
      ReciprocalBetween(d, 0.0000518, 0.00213);
      1.0 / d
    else
      1.0 / d
  }

  lemma ReciprocalBetween(d: real, lo: real, hi: real)
    requires 0.0 < lo <= d <= hi
    ensures 1.0 / hi <= 1.0 / d <= 1.0 / lo
  {
  }

  /** The gain stage's part of `Update`: the tapered gain, then the RUETZ switch. */
  function RetuneGain(m: Math, s: TFGain.Stage, p: Params): (r: TFGain.Stage)
    requires Libm.Valid(m) && TFGain.Valid(s) && s.sampleRate > 0.0 && InRange(p)
    ensures TFGain.Valid(r) && r.sampleRate == s.sampleRate
    ensures r.gain == ExpResponse(m, p.gain) && r.ruetz == (p.ruetz >= 0.5)
  {
    TFGain.SetRuetz(TFGain.SetGain(s, ExpResponse(m, p.gain)), p.ruetz >= 0.5)
  }

  /** The tone stage's part of `Update`: the cutoff of the tone control. */
  function RetuneTone(m: Math, s: FirstOrder.Stage, p: Params): (r: FirstOrder.Stage)
    requires Libm.Valid(m) && FirstOrder.Valid(s) && s.sampleRate > 0.0 && InRange(p)
    ensures FirstOrder.Valid(r) && r.sampleRate == s.sampleRate
    ensures 470.0 <= ToneCutoff(m, p.filter) <= 19292.0
    ensures ToneCutoff(m, p.filter) < s.sampleRate * Lowpass1.NyquistFraction ==> r.freq == ToneCutoff(m, p.filter)
  {
    var tone := ToneCutoff(m, p.filter);
    Lowpass1.GetFreqAfterSetFreq(m, s, tone);
    Lowpass1.SetFreq(m, s, tone)
  }

  /**
   * `Update`: hand the input high-pass its TIGHT cutoff, the gain stage the
   * tapered gain and the RUETZ switch, and the tone stage its cutoff. Each
   * setter recomputes only on a change; nothing else moves.
   */
  function Update(m: Math, hp: FirstOrder.Stage -> FirstOrder.Stage, d: Dist): (r: Dist)
    requires Libm.Valid(m) && HighpassUpdate(hp) && Ready(d)
    ensures Ready(r)
    ensures r.hipass1 == Highpass1.SetFreq(hp, d.hipass1, InputHighpass(d.p.tight)).0
    ensures r.gain.gain == ExpResponse(m, d.p.gain) && r.gain.ruetz == (d.p.ruetz >= 0.5)
    ensures ToneCutoff(m, d.p.filter) < d.sampleRate * Lowpass1.NyquistFraction ==>
      r.filter.freq == ToneCutoff(m, d.p.filter)
    ensures r.p == d.p && r.sat == d.sat && r.sampleRate == d.sampleRate
    ensures r.lowpass1 == d.lowpass1 && r.hipassDC == d.hipassDC && r.hipass3 == d.hipass3
    ensures r.clipper == d.clipper && r.clipper2 == d.clipper2
  {
    var hip := Highpass1.SetFreq(hp, d.hipass1, InputHighpass(d.p.tight)).0;
    d.(hipass1 := hip, gain := RetuneGain(m, d.gain, d.p), filter := RetuneTone(m, d.filter, d.p))
  }

  /**
   * `SetParam`: store the clamped value under its id, then run `Update`
   * when asked, whatever the id was.
   */
  function SetParam(m: Math, hp: FirstOrder.Stage -> FirstOrder.Stage, d: Dist, id: int, value: real, update: bool): (r: Dist)
    requires Ready(d)
    requires update ==> Libm.Valid(m) && HighpassUpdate(hp)
    ensures Ready(r)
    ensures r.p == Store(d.p, id, value) && r.sat == d.sat
    ensures !update ==> r == d.(p := Store(d.p, id, value))
    ensures update ==> r == Update(m, hp, d.(p := Store(d.p, id, value)))
  {
    var stored := d.(p := Store(d.p, id, value));
    if update then Update(m, hp, stored) else stored
  }

  /** `GetSaturation`: the stored overshoot of the last processed block. */
  function GetSaturation(d: Dist): real
  {
    d.sat
  }

  /** Every stage is moved to the rate; nothing is recomputed here. */
  function Retime(d: Dist, sampleRate: real): (r: Dist)
    ensures r.p == d.p && r.sat == d.sat && r.sampleRate == sampleRate
    ensures r.hipass1.tf == d.hipass1.tf && r.lowpass1.tf == d.lowpass1.tf && r.gain.tf == d.gain.tf
    ensures r.hipassDC.tf == d.hipassDC.tf && r.filter.tf == d.filter.tf && r.hipass3.tf == d.hipass3.tf
    ensures Valid(d) && InRange(d.p) && Tuned(d) && sampleRate > 0.0 ==> Ready(r)
  {
    d.(sampleRate := sampleRate,
       hipass1 := FirstOrder.SetSampleRate(d.hipass1, sampleRate),
       lowpass1 := FirstOrder.SetSampleRate(d.lowpass1, sampleRate),
       gain := TFGain.SetSampleRate(d.gain, sampleRate),
       hipassDC := FirstOrder.SetSampleRate(d.hipassDC, sampleRate),
       filter := FirstOrder.SetSampleRate(d.filter, sampleRate),
       hipass3 := FirstOrder.SetSampleRate(d.hipass3, sampleRate))
  }

  /**
   * `SetSampleRate` as written: every stage takes the new rate and `Update`
   * runs, but its setters see unchanged values, so no coefficients are
   * re-derived; the three fixed-cutoff stages are not even visited.
   */
  function SetSampleRate(m: Math, hp: FirstOrder.Stage -> FirstOrder.Stage, d: Dist, sampleRate: real): (r: Dist)
    requires Libm.Valid(m) && HighpassUpdate(hp) && Valid(d) && InRange(d.p) && Tuned(d) && sampleRate > 0.0
    ensures Ready(r) && r.sampleRate == sampleRate && r.p == d.p && r.sat == d.sat
    ensures r.lowpass1.tf == d.lowpass1.tf && r.hipassDC.tf == d.hipassDC.tf && r.hipass3.tf == d.hipass3.tf
  {
    Update(m, hp, Retime(d, sampleRate))
  }

  /** The stages' own `Init`: rate stored, coefficients and history cleared. */
  function Clear(d: Dist, sampleRate: real): (r: Dist)
    requires Valid(d)
    ensures Valid(r)
    ensures r.p == d.p && r.sat == d.sat && r.sampleRate == d.sampleRate
    ensures r.hipass1.sampleRate == sampleRate && r.lowpass1.sampleRate == sampleRate
    ensures r.gain.sampleRate == sampleRate && r.hipassDC.sampleRate == sampleRate
    ensures r.filter.sampleRate == sampleRate && r.hipass3.sampleRate == sampleRate
  {
    d.(
      hipass1 := FirstOrder.Init(d.hipass1, sampleRate),
      lowpass1 := FirstOrder.Init(d.lowpass1, sampleRate),
      gain := TFGain.Init(d.gain, sampleRate),
      hipassDC := FirstOrder.Init(d.hipassDC, sampleRate),
      filter := FirstOrder.Init(d.filter, sampleRate),
      hipass3 := FirstOrder.Init(d.hipass3, sampleRate))
  }

  /** The cutoffs `Init` sets: TIGHT's input high-pass, 5 kHz low-pass, 10 Hz and 7.7 Hz high-passes. */
  function Tune(m: Math, hp: FirstOrder.Stage -> FirstOrder.Stage, d: Dist): (r: Dist)
    requires Libm.Valid(m) && HighpassUpdate(hp) && Ready(d)
    ensures Ready(r) && r.sampleRate == d.sampleRate && r.p == d.p && r.sat == d.sat
    ensures d.sampleRate > 2.0 * InputLowpassCutoff ==> r.lowpass1.freq == InputLowpassCutoff
  {
    Lowpass1.GetFreqAfterSetFreq(m, d.lowpass1, InputLowpassCutoff);
    d.(
      hipass1 := Highpass1.SetFreq(hp, d.hipass1, InputHighpass(d.p.tight)).0,
      lowpass1 := Lowpass1.SetFreq(m, d.lowpass1, InputLowpassCutoff),
      hipassDC := Highpass1.SetFreq(hp, d.hipassDC, DcHighpassCutoff).0,
      hipass3 := Highpass1.SetFreq(hp, d.hipass3, OutputHighpassCutoff).0)
  }

  /**
   * `Init`: clear every stage, take the rate, set the four fixed or
   * TIGHT-dependent cutoffs, and update.
   */
  function Init(m: Math, hp: FirstOrder.Stage -> FirstOrder.Stage, d: Dist, sampleRate: real): (r: Dist)
    requires Libm.Valid(m) && HighpassUpdate(hp) && Valid(d) && InRange(d.p) && Tuned(d) && sampleRate > 0.0
    ensures Ready(r) && r.sampleRate == sampleRate && r.p == d.p && r.sat == d.sat
    ensures sampleRate > 2.0 * InputLowpassCutoff ==> r.lowpass1.freq == InputLowpassCutoff
  {
    Update(m, hp, Tune(m, hp, SetSampleRate(m, hp, Clear(d, sampleRate), sampleRate)))
  }

  // ---------------------------------------------------------------------
  // Re-deriving coefficients after a rate change
  // ---------------------------------------------------------------------

  /** A low-pass stage whose coefficients are the ones `Update` derives from its stored cutoff and rate. */
  ghost predicate LowpassCurrent(m: Math, s: FirstOrder.Stage)
  {
    Libm.Valid(m) && Lowpass1.CanUpdate(s) &&
    s.tf.b == Lowpass1.Update(m, s).tf.b && s.tf.a == Lowpass1.Update(m, s).tf.a
  }

  /** A stage fresh from `Update` is current. */
  lemma UpdatedIsCurrent(m: Math, s: FirstOrder.Stage)
    requires Libm.Valid(m) && Lowpass1.CanUpdate(s)
    ensures LowpassCurrent(m, Lowpass1.Update(m, s))
  {
    Lowpass1.UpdateIdempotent(m, s);
  }

  /**
   * `SetSampleRate` as evidently intended: take the rate and update as
   * before, then re-derive every stage's coefficients from its settings at
   * the new rate.
   */
  function SetSampleRateRederived(m: Math, hp: FirstOrder.Stage -> FirstOrder.Stage, d: Dist, sampleRate: real): (r: Dist)
    requires Libm.Valid(m) && HighpassUpdate(hp) && Ready(d) && sampleRate > 0.0
    ensures Ready(r) && r.sampleRate == sampleRate && r.p == d.p && r.sat == d.sat
    ensures LowpassCurrent(m, r.lowpass1) && LowpassCurrent(m, r.filter)
    ensures TFGain.CanUpdate(r.gain) && r.gain == TFGain.Update(r.gain)
    ensures r.gain.gain == ExpResponse(m, d.p.gain) && r.gain.ruetz == (d.p.ruetz >= 0.5)
    ensures ToneCutoff(m, d.p.filter) < sampleRate * Lowpass1.NyquistFraction ==>
      r.filter.freq == ToneCutoff(m, d.p.filter)
    ensures r.hipass1 == hp(Highpass1.SetFreq(hp, d.hipass1.(sampleRate := sampleRate), InputHighpass(d.p.tight)).0)
    ensures r.hipassDC == hp(d.hipassDC.(sampleRate := sampleRate))
    ensures r.hipass3 == hp(d.hipass3.(sampleRate := sampleRate))
  {
    var u := Update(m, hp, Retime(d, sampleRate));
    UpdatedIsCurrent(m, u.lowpass1);
    UpdatedIsCurrent(m, u.filter);
    TFGain.UpdateDependsOnSettings(u.gain, TFGain.Update(u.gain));
    u.(
      hipass1 := hp(u.hipass1),
      lowpass1 := Lowpass1.Update(m, u.lowpass1),
      gain := TFGain.Update(u.gain),
      hipassDC := hp(u.hipassDC),
      filter := Lowpass1.Update(m, u.filter),
      hipass3 := hp(u.hipass3))
  }

  /** The 5 kHz input low-pass as derived at the default 44.1 kHz with the crude library. */
  function Lowpass44k(): (r: FirstOrder.Stage)
    ensures LowpassCurrent(Crude(), r) && r.sampleRate == DefaultSampleRate && r.freq == InputLowpassCutoff
  {
    var s := FirstOrder.Default().(freq := InputLowpassCutoff);
    UpdatedIsCurrent(Crude(), s);
    Lowpass1.Update(Crude(), s)
  }

  /**
   * A distortion whose input low-pass is current at 44.1 kHz, moved to
   * 48 kHz: `SetSampleRate` leaves that stage with 44.1 kHz coefficients,
   * while the re-deriving version makes it current.
   */
  lemma SetSampleRateLeavesStaleCoefficients(hp: FirstOrder.Stage -> FirstOrder.Stage)
    requires HighpassUpdate(hp)
    ensures Ready(New().(lowpass1 := Lowpass44k()))
    ensures !LowpassCurrent(Crude(), SetSampleRate(Crude(), hp, New().(lowpass1 := Lowpass44k()), 48000.0).lowpass1)
    ensures LowpassCurrent(Crude(), SetSampleRateRederived(Crude(), hp, New().(lowpass1 := Lowpass44k()), 48000.0).lowpass1)
  {
    var d := New().(lowpass1 := Lowpass44k());
    var stale := SetSampleRate(Crude(), hp, d, 48000.0).lowpass1;
    assert stale == Lowpass44k().(sampleRate := 48000.0);
    StaleAt48k();
  }

  /** The 44.1 kHz coefficients are not the ones derived at 48 kHz. */
  lemma StaleAt48k()
    ensures !LowpassCurrent(Crude(), Lowpass44k().(sampleRate := 48000.0))
  {
    var m := Crude();
    var stale := Lowpass44k().(sampleRate := 48000.0);
    var f1 := Lowpass1.Warp(m, InputLowpassCutoff, DefaultSampleRate);
    var f2 := Lowpass1.Warp(m, InputLowpassCutoff, 48000.0);
    WarpWithIdentityTan(m, InputLowpassCutoff, DefaultSampleRate);
    WarpWithIdentityTan(m, InputLowpassCutoff, 48000.0);
    var b44 := Lowpass44k().tf.b[0];
    assert b44 * (f1 + 2.0 * DefaultSampleRate) == f1;
    if LowpassCurrent(m, stale) {
      assert false;
    }
  }

  /** With tan the identity the warped cutoff is 2 pi f, whatever the rate. */
  lemma WarpWithIdentityTan(m: Math, freq: real, sampleRate: real)
    requires m == Crude() && sampleRate > 0.0 && freq > 0.0
    ensures Lowpass1.Warp(m, freq, sampleRate) == 2.0 * Pi * freq
  {
    var arg := (freq * 2.0 * Pi) / (sampleRate * 2.0);
    assert m.tan(arg) == arg;
    assert 2.0 * sampleRate * arg == freq * 2.0 * Pi;
  }

  // ---------------------------------------------------------------------
  // The block pipeline
  // ---------------------------------------------------------------------

  /** The op-amp's output swing and the clipper pre-clamp. */
  const OpAmpSwing: real := 4.0
  const ClipperRange: real := 7.99
  /** The level trim after the LED clipper, and the fixed attenuation after the input high-pass. */
  const LedTrim: real := 0.7
  const AttenuationDb: real := -3.0

  /** Same cutoff, rate and coefficients: only the history may differ. */
  predicate SameSettings(s: FirstOrder.Stage, t: FirstOrder.Stage)
  {
    s.freq == t.freq && s.sampleRate == t.sampleRate && s.tf.b == t.tf.b && s.tf.a == t.tf.a && s.tf.gain == t.tf.gain
  }

  /** Two distortions that differ at most in the stages' histories and the saturation readout. */
  predicate SameControls(d: Dist, e: Dist)
  {
    d.p == e.p && d.sampleRate == e.sampleRate && d.clipper == e.clipper && d.clipper2 == e.clipper2 &&
    SameSettings(d.hipass1, e.hipass1) && SameSettings(d.lowpass1, e.lowpass1) &&
    SameSettings(d.hipassDC, e.hipassDC) && SameSettings(d.filter, e.filter) && SameSettings(d.hipass3, e.hipass3) &&
    d.gain.gain == e.gain.gain && d.gain.ruetz == e.gain.ruetz && d.gain.sampleRate == e.gain.sampleRate &&
    d.gain.tf.b == e.gain.tf.b && d.gain.tf.a == e.gain.tf.a && d.gain.tf.gain == e.gain.tf.gain
  }

  /** A stage run in place over the block. */
  function RunStage(s: FirstOrder.Stage, f: Frame, len: nat): (r: (FirstOrder.Stage, Frame))
    requires FirstOrder.Valid(s) && Fits(f, len)
    ensures FirstOrder.Valid(r.0) && SameSettings(s, r.0)
    ensures SameShape(r.1, f) && Fits(r.1, len)
    ensures r.1.left[len..] == f.left[len..]
    ensures f.right.Some? ==> r.1.right.value[len..] == f.right.value[len..]
  {
    var (t, out) := Transfer.Process(s.tf, f, f, len);
    (s.(tf := t), out)
  }

  /** The gain stage run in place over the block. */
  function RunGainStage(s: TFGain.Stage, f: Frame, len: nat): (r: (TFGain.Stage, Frame))
    requires TFGain.Valid(s) && Fits(f, len)
    ensures TFGain.Valid(r.0)
    ensures r.0.gain == s.gain && r.0.ruetz == s.ruetz && r.0.sampleRate == s.sampleRate
    ensures r.0.tf.b == s.tf.b && r.0.tf.a == s.tf.a && r.0.tf.gain == s.tf.gain
    ensures SameShape(r.1, f) && Fits(r.1, len)
    ensures r.1.left[len..] == f.left[len..]
    ensures f.right.Some? ==> r.1.right.value[len..] == f.right.value[len..]
  {
    var (t, out) := Transfer.Process(s.tf, f, f, len);
    (s.(tf := t), out)
  }

  /** Input gain, input high-pass, -3 dB, input low-pass, gain stage. */
  function Front(m: Math, d: Dist, input: Frame, output: Frame, len: nat): (r: (Dist, Frame))
    requires Valid(d) && Fits(input, len) && Fits(output, len)
    ensures Valid(r.0) && SameControls(d, r.0) && r.0.sat == d.sat
    ensures SameShape(r.1, output) && Fits(r.1, len)
    ensures r.1.left[len..] == output.left[len..]
    ensures output.right.Some? ==> r.1.right.value[len..] == output.right.value[len..]
  {
    var f1 := BlockGain(input, ExpResponse(m, d.p.gainIn), output, len);
    var (h, f2) := RunStage(d.hipass1, f1, len);
    var f3 := BlockGain(f2, DbToGain(m, AttenuationDb), f2, len);
    var (l, f4) := RunStage(d.lowpass1, f3, len);
    var (g, f5) := RunGainStage(d.gain, f4, len);
    (d.(hipass1 := h, lowpass1 := l, gain := g), f5)
  }

  /** What the saturation readout reports for a sample: how far it lies beyond the op-amp swing. */
  function Overshoot(x: real): (r: real)
    ensures r >= 0.0
    ensures -OpAmpSwing <= x <= OpAmpSwing ==> r == 0.0
    ensures x > OpAmpSwing ==> r == x - OpAmpSwing
    ensures x < -OpAmpSwing ==> r == -OpAmpSwing - x
  {
    Abs(x - Saturate(x, OpAmpSwing))
  }

  /** The op-amp clamp to +-4, recording the first left sample's overshoot. */
  function OpAmp(d: Dist, f: Frame, len: nat): (r: (Dist, Frame))
    requires Fits(f, len) && len >= 1
    ensures r.0 == d.(sat := Overshoot(f.left[0]))
    ensures SameShape(r.1, f) && Fits(r.1, len)
    ensures forall i :: 0 <= i < len ==> -OpAmpSwing <= r.1.left[i] <= OpAmpSwing
    ensures r.1.left[len..] == f.left[len..]
    ensures f.right.Some? ==> r.1.right.value[len..] == f.right.value[len..]
  {
    var ref := f.left[0];
    var g := BlockSaturate(f, OpAmpSwing, f, len);
    (d.(sat := Abs(ref - g.left[0])), g)
  }

  /** The DC high-pass and the clipper pre-clamp to +-7.99. */
  function DcBlock(d: Dist, f: Frame, len: nat): (r: (Dist, Frame))
    requires Valid(d) && Fits(f, len)
    ensures Valid(r.0) && SameControls(d, r.0) && r.0.sat == d.sat
    ensures SameShape(r.1, f) && Fits(r.1, len)
    ensures forall i :: 0 <= i < len ==> -ClipperRange <= r.1.left[i] <= ClipperRange
    ensures f.right.Some? ==> forall i :: 0 <= i < len ==> -ClipperRange <= r.1.right.value[i] <= ClipperRange
    ensures r.1.left[len..] == f.left[len..]
    ensures f.right.Some? ==> r.1.right.value[len..] == f.right.value[len..]
  {
    var (dc, f1) := RunStage(d.hipassDC, f, len);
    var f2 := BlockSaturate(f1, ClipperRange, f1, len);
    (d.(hipassDC := dc), f2)
  }

  /** One sample through the clippers: the silicon pair, or with HARD on the LED pair trimmed by 0.7. */
  function Clip(d: Dist, x: real): real
  {
    var silicon := SplineInterpolator.Interpolate(d.clipper, x);
    if d.p.hard >= 0.5 then Gain(SplineInterpolator.Interpolate(d.clipper2, x), LedTrim) else silicon
  }

  /**
   * The clipper loop: every sample clipped; the right channel only when the
   * block is stereo (both right buffers of the call present).
   */
  function ClipStage(d: Dist, stereo: bool, f: Frame, len: nat): (r: Frame)
    requires Fits(f, len)
    ensures SameShape(r, f) && Fits(r, len)
    ensures forall i :: 0 <= i < len ==> r.left[i] == Clip(d, f.left[i])
    ensures d.p.hard < 0.5 ==> forall i :: 0 <= i < len ==> r.left[i] == SplineInterpolator.Interpolate(d.clipper, f.left[i])
    ensures d.p.hard >= 0.5 ==> forall i :: 0 <= i < len ==> r.left[i] == LedTrim * SplineInterpolator.Interpolate(d.clipper2, f.left[i])
    ensures stereo && f.right.Some? ==> forall i :: 0 <= i < len ==> r.right.value[i] == Clip(d, f.right.value[i])
    ensures !stereo ==> r.right == f.right
    ensures r.left[len..] == f.left[len..]
    ensures f.right.Some? ==> r.right.value[len..] == f.right.value[len..]
  {
    MapFrame(x => Clip(d, x), if stereo then f else Frame(f.left, None), f, len)
  }

  /** Tone low-pass, output high-pass, level. */
  function Back(m: Math, d: Dist, f: Frame, len: nat): (r: (Dist, Frame))
    requires Valid(d) && Fits(f, len)
    ensures Valid(r.0) && SameControls(d, r.0) && r.0.sat == d.sat
    ensures SameShape(r.1, f) && Fits(r.1, len)
    ensures r.1.left[len..] == f.left[len..]
    ensures f.right.Some? ==> r.1.right.value[len..] == f.right.value[len..]
  {
    var (t, f1) := RunStage(d.filter, f, len);
    var (h, f2) := RunStage(d.hipass3, f1, len);
    (d.(filter := t, hipass3 := h), BlockGain(f2, ExpResponse(m, d.p.level), f2, len))
  }

  /**
   * Block `Process`: nothing at all for an empty block; otherwise the stages
   * in their fixed order, then, with BYPASS above 0.5, the input copied over
   * the result. The stages run and the readout is taken even when bypassed.
   */
  function Process(m: Math, d: Dist, input: Frame, output: Frame, len: nat): (r: (Dist, Frame))
    requires Valid(d) && Fits(input, len) && Fits(output, len)
    ensures Valid(r.0) && SameControls(d, r.0)
    ensures SameShape(r.1, output)
    ensures len == 0 ==> r == (d, output)
    ensures len >= 1 ==> GetSaturation(r.0) == Overshoot(Front(m, d, input, output, len).1.left[0])
    ensures d.p.bypass > 0.5 ==> r.1.left[..len] == input.left[..len]
    ensures d.p.bypass > 0.5 && Stereo(input, output) ==> r.1.right.value[..len] == input.right.value[..len]
    ensures r.1.left[len..] == output.left[len..]
    ensures output.right.Some? ==> r.1.right.value[len..] == output.right.value[len..]
  {
    if len < 1 then (d, output)
    else
      var (d1, f1) := Front(m, d, input, output, len);
      var (d2, f2) := OpAmp(d1, f1, len);
      var (d3, f3) := DcBlock(d2, f2, len);
      var f4 := ClipStage(d3, Stereo(input, output), f3, len);
      var (d4, f5) := Back(m, d3, f4, len);
      (d4, if d.p.bypass > 0.5 then Copy(input, f5, len) else f5)
  }
}
