/**
 * `NoiseGate`: the detector signal drives an envelope follower; the envelope
 * (in dB) goes through the expander, the resulting gain change is
 * slew-limited and turned into a linear gain that multiplies the audio
 * input. The gate also reports the largest gain of the last block and the
 * last envelope value.
 */
module NoiseGate {
  import opened Wrappers
  import opened Libm
  import opened DSP
  import opened Buffers
  import opened Utils
  import opened Series
  import EnvelopeFollower
  import Expander
  import SlewLimiter

  /** The parameter numbers of `SetParam`. */
  const ParamDetectorGain: int := 0
  const ParamReduction: int := 1
  const ParamRelease: int := 2
  const ParamSlope: int := 3
  const ParamThreshold: int := 4
  const ParamBypass: int := 5

  /** The attack time, in milliseconds, of the slew limiter (its rise rate). */
  const AttackMs: real := 2.0

  datatype NoiseGate = NoiseGate(
    fs: real,
    follower: EnvelopeFollower.Follower,
    expander: Expander.Expander,
    limiter: SlewLimiter.Limiter,
    bypass: real,
    detectorGain: real,
    reductionDb: real, thresholdDb: real, slope: real, releaseMs: real,
    currentGain: real, currentEnv: real)

  /** A gate as constructed: every setting and readout 0, the components as they construct themselves. */
  function New(): (g: NoiseGate)
    ensures g.fs == 0.0 && g.bypass == 0.0 && g.detectorGain == 0.0 && g.releaseMs == 0.0
    ensures g.currentGain == 0.0 && g.currentEnv == 0.0
    ensures g.expander == Expander.New() && g.limiter.output == 0.0
  {
    NoiseGate(0.0, EnvelopeFollower.Fresh(), Expander.New(), SlewLimiter.Fresh(),
      0.0, 0.0, 0.0, 0.0, 0.0, 0.0, 0.0, 0.0)
  }

  /** Equal settings and readouts; the components may differ. */
  predicate SameSettings(a: NoiseGate, b: NoiseGate)
  {
    && a.fs == b.fs && a.bypass == b.bypass && a.detectorGain == b.detectorGain
    && a.reductionDb == b.reductionDb && a.thresholdDb == b.thresholdDb
    && a.slope == b.slope && a.releaseMs == b.releaseMs
    && a.currentGain == b.currentGain && a.currentEnv == b.currentEnv
  }

  /** The range every setting takes when it comes from `SetParam` or `Init`. */
  predicate InRange(g: NoiseGate)
  {
    && g.detectorGain > 0.0
    && -100.0 <= g.reductionDb <= 0.0
    && 10.0 < g.releaseMs <= 1000.0
    && 1.0 < g.slope <= 51.0
    && -80.0 <= g.thresholdDb <= -20.0
    && 0.0 <= g.bypass <= 1.0
  }

  /** What `Update` divides by: the release time and both components' sample rates are non-zero. */
  predicate Tuned(g: NoiseGate)
  {
    g.releaseMs != 0.0 && g.follower.fs != 0.0 && g.limiter.fs != 0.0
  }

  /** What processing needs: a ready follower and an expander with non-zero slopes. */
  predicate CanProcess(g: NoiseGate)
  {
    EnvelopeFollower.Ready(g.follower) && g.expander.upperSlope != 0.0 && g.expander.lowerSlope != 0.0
  }

  /**
   * `Update`: hand the stored settings to the components: threshold,
   * reduction and slope to the expander, the release time to the follower,
   * and rise and fall rates (2 ms and the release time per 60 dB) to the
   * slew limiter. Settings, readouts and running levels are kept.
   */
  function Update(m: Math, g: NoiseGate): (r: NoiseGate)
    requires Tuned(g)
    ensures r == g.(expander := r.expander, follower := r.follower, limiter := r.limiter)
    ensures r.expander.thresholdDb == g.thresholdDb && r.expander.reductionDb == g.reductionDb
    ensures r.expander.upperSlope == g.slope && r.expander.lowerSlope == 2.0 * g.slope
    ensures r.expander.prevInDb == g.expander.prevInDb && r.expander.outputDb == g.expander.outputDb
    ensures r.follower == g.follower.(releaseMs := g.releaseMs, fastDecay := r.follower.fastDecay)
    ensures r.follower.fastDecay == DbToGain(m, EnvelopeFollower.Db60PerSample(g.releaseMs, g.follower.fs))
    ensures r.limiter.fs == g.limiter.fs && r.limiter.output == g.limiter.output
    ensures r.limiter.slewUp * (AttackMs / 1000.0 * g.limiter.fs) == 60.0
    ensures r.limiter.slewDown * (g.releaseMs / 1000.0 * g.limiter.fs) == 60.0
    ensures Tuned(r)
    ensures EnvelopeFollower.Ready(g.follower) && g.slope != 0.0 ==> CanProcess(r)
  {
    g.(expander := Expander.Update(g.expander, g.thresholdDb, g.reductionDb, g.slope),
       follower := EnvelopeFollower.SetRelease(m, g.follower, g.releaseMs),
       limiter := SlewLimiter.UpdateDb60(g.limiter, AttackMs, g.releaseMs))
  }

  /**
   * `SetSampleRate`: store the rate, re-initialise the follower (with the
   * stored release time) and the slew limiter at it, then `Update`.
   */
  function SetSampleRate(m: Math, g: NoiseGate, sampleRate: real): (r: NoiseGate)
    requires sampleRate > 0.0 && g.releaseMs != 0.0
    ensures r.fs == sampleRate && r.follower.fs == sampleRate && r.limiter.fs == sampleRate
    ensures r.bypass == g.bypass && r.detectorGain == g.detectorGain
    ensures r.reductionDb == g.reductionDb && r.thresholdDb == g.thresholdDb
    ensures r.slope == g.slope && r.releaseMs == g.releaseMs
    ensures r.currentGain == g.currentGain && r.currentEnv == g.currentEnv
    ensures r.limiter.output == g.limiter.output && r.follower.h4 == g.follower.h4
    ensures r.expander.upperSlope == g.slope && r.expander.thresholdDb == g.thresholdDb
    ensures Tuned(r)
    ensures Libm.Valid(m) && sampleRate >= 100.0 && g.slope != 0.0 ==> CanProcess(r)
  {
    var f := EnvelopeFollower.Init(m, g.follower, sampleRate, g.releaseMs);
    var s := g.(fs := sampleRate, follower := f, limiter := SlewLimiter.Init(g.limiter, sampleRate));
    Update(m, s)
  }

  /**
   * `Init`: detector gain 1, reduction -100 dB, threshold -40 dB, slope 3,
   * release 100 ms, then `SetSampleRate` at the given rate.
   */
  function Init(m: Math, g: NoiseGate, fs: int): (r: NoiseGate)
    requires fs > 0
    ensures r.fs == fs as real && r.detectorGain == 1.0 && r.reductionDb == -100.0
    ensures r.thresholdDb == -40.0 && r.slope == 3.0 && r.releaseMs == 100.0
    ensures r.bypass == g.bypass && r.currentGain == g.currentGain && r.currentEnv == g.currentEnv
    ensures r.expander.thresholdDb == -40.0 && r.expander.reductionDb == -100.0
    ensures r.expander.upperSlope == 3.0 && r.expander.lowerSlope == 6.0
    ensures Tuned(r)
    ensures Libm.Valid(m) && fs >= 100 ==> CanProcess(r)
    ensures 0.0 <= g.bypass <= 1.0 ==> InRange(r)
  {
    var s := g.(detectorGain := 1.0, reductionDb := -100.0, thresholdDb := -40.0, slope := 3.0, releaseMs := 100.0);
    SetSampleRate(m, s, fs as real)
  }

  /** The parameter numbers `SetParam` knows. */
  predicate KnownParam(id: int)
  {
    ParamDetectorGain <= id <= ParamBypass
  }

  /**
   * The store half of `SetParam`: the value, clamped to [0, 1], is mapped
   * onto the one setting the parameter number names; every other field is
   * kept. An unknown number changes nothing.
   */
  function Store(m: Math, g: NoiseGate, id: int, value: real): (r: NoiseGate)
    ensures var v := FClamp(value, 0.0, 1.0);
      && (id == ParamDetectorGain ==> r == g.(detectorGain := DbToGain(m, 40.0 * v - 20.0)))
      && (id == ParamReduction ==> r == g.(reductionDb := -v * 100.0))
      && (id == ParamRelease ==> r == g.(releaseMs := 10.0 + DecResponse(m, v) * 990.0))
      && (id == ParamSlope ==> r == g.(slope := 1.0 + DecResponse(m, v) * 50.0))
      && (id == ParamThreshold ==> r == g.(thresholdDb := -OctResponse(m, 1.0 - v) * 80.0))
      && (id == ParamBypass ==> r == g.(bypass := v))
    ensures !KnownParam(id) ==> r == g
  {
    var v := FClamp(value, 0.0, 1.0);
    if id == ParamDetectorGain then g.(detectorGain := DbToGain(m, 40.0 * v - 20.0))
    else if id == ParamReduction then g.(reductionDb := -v * 100.0)
    else if id == ParamRelease then g.(releaseMs := 10.0 + DecResponse(m, v) * 990.0)
    else if id == ParamSlope then g.(slope := 1.0 + DecResponse(m, v) * 50.0)
    else if id == ParamThreshold then g.(thresholdDb := -OctResponse(m, 1.0 - v) * 80.0)
    else if id == ParamBypass then g.(bypass := v)
    else g
  }

  /** Whatever is stored, every setting stays in its range. */
  lemma StoreKeepsRange(m: Math, g: NoiseGate, id: int, value: real)
    requires Libm.Valid(m) && InRange(g)
    ensures InRange(Store(m, g, id, value))
  {
    var v := FClamp(value, 0.0, 1.0);
  }

  /** Storing keeps what `Update` and processing need. */
  lemma StoreKeepsReadiness(m: Math, g: NoiseGate, id: int, value: real)
    requires Libm.Valid(m) && InRange(g) && Tuned(g)
    ensures Tuned(Store(m, g, id, value))
    ensures CanProcess(g) ==> CanProcess(Store(m, g, id, value))
  {
    StoreKeepsRange(m, g, id, value);
  }

  /**
   * `SetParam`: store the value; with `update` (and a known parameter
   * number) the settings are then handed to the components.
   */
  function SetParam(m: Math, g: NoiseGate, id: int, value: real, update: bool): (r: NoiseGate)
    requires update && KnownParam(id) ==> Tuned(Store(m, g, id, value))
    ensures !update || !KnownParam(id) ==> r == Store(m, g, id, value)
    ensures update && KnownParam(id) ==> r == Update(m, Store(m, g, id, value))
    ensures !KnownParam(id) ==> r == g
  {
    var s := Store(m, g, id, value);
    if update && KnownParam(id) then Update(m, s) else s
  }

  /** The bypass switch: above one half the gain is 1, otherwise the computed gain. */
  function Applied(g: NoiseGate, gain: real): (r: real)
    ensures g.bypass > 0.5 ==> r == 1.0
    ensures g.bypass <= 0.5 ==> r == gain
  {
    if g.bypass > 0.5 then 1.0 else gain
  }

  /** The follower's input: each detector sample times the detector gain. */
  function Scale(detector: seq<real>, gain: real): (r: seq<real>)
    ensures |r| == |detector|
    ensures forall i :: 0 <= i < |detector| ==> r[i] == detector[i] * gain
  {
    seq(|detector|, i requires 0 <= i < |detector| => detector[i] * gain)
  }

  /**
   * One sample: the scaled detector value through the follower, its level
   * in dB through the expander, the gain change through the slew limiter.
   * Returns the new gate, the linear gain and the envelope.
   */
  function Step(m: Math, g: NoiseGate, x: real): (r: (NoiseGate, real, real))
    requires CanProcess(g)
    ensures CanProcess(r.0) && SameSettings(r.0, g)
    ensures r.2 == r.0.follower.h4
    ensures r.0.expander == Expander.Expand(g.expander, GainToDb(m, r.2)).0
    ensures r.0.limiter == SlewLimiter.Process(g.limiter, Expander.Expand(g.expander, GainToDb(m, r.2)).1).0
    ensures r.1 == DbToGain(m, r.0.limiter.output)
    ensures Libm.Valid(m) ==> r.1 > 0.0
  {
    var (f, env) := EnvelopeFollower.ProcessEnvelope(m, g.follower, x);
    var (e, gainDb) := Expander.Expand(g.expander, GainToDb(m, env));
    var (l, slewed) := SlewLimiter.Process(g.limiter, gainDb);
    (g.(follower := f, expander := e, limiter := l), DbToGain(m, slewed), env)
  }

  /**
   * What one step feeds each component: the follower sees the scaled
   * detector sample, the expander the envelope in dB, and the limiter only
   * moves its output.
   */
  lemma StepComponents(m: Math, g: NoiseGate, x: real)
    requires CanProcess(g)
    ensures var s := Step(m, g, x).0;
      && s.follower == EnvelopeFollower.ProcessEnvelope(m, g.follower, x).0
      && s.expander.prevInDb == GainToDb(m, s.follower.h4)
      && s.expander.reductionDb == g.expander.reductionDb && s.expander.thresholdDb == g.expander.thresholdDb
      && s.limiter == g.limiter.(output := s.limiter.output)
  {
  }

  /**
   * With non-negative rates, the limited gain change moves by at most one
   * step per sample, and it never falls below the reduction once it is at
   * or above it: the expander's target never is.
   */
  lemma StepBounded(m: Math, g: NoiseGate, x: real)
    requires CanProcess(g) && g.limiter.slewUp >= 0.0 && g.limiter.slewDown >= 0.0
    ensures var out := Step(m, g, x).0.limiter.output;
      g.limiter.output - g.limiter.slewDown <= out <= g.limiter.output + g.limiter.slewUp
    ensures g.limiter.output >= g.expander.reductionDb ==>
      Step(m, g, x).0.limiter.output >= g.expander.reductionDb
  {
    var env := EnvelopeFollower.ProcessEnvelope(m, g.follower, x).1;
    var gainDb := Expander.Expand(g.expander, GainToDb(m, env)).1;
    SlewLimiter.NoOvershoot(g.limiter, gainDb);
  }

  /** The scaled samples of a block, in order: the final gate, the gains and the envelopes. */
  function Run(m: Math, g: NoiseGate, xs: seq<real>): (r: (NoiseGate, seq<real>, seq<real>))
    requires CanProcess(g)
    ensures CanProcess(r.0) && SameSettings(r.0, g) && |r.1| == |xs| && |r.2| == |xs|
    decreases |xs|
  {
    if |xs| == 0 then (g, [], [])
    else
      var p := Run(m, g, xs[..|xs| - 1]);
      var s := Step(m, p.0, xs[|xs| - 1]);
      (s.0, p.1 + [s.1], p.2 + [s.2])
  }

  /** One more sample extends the block by one step. */
  lemma RunSnoc(m: Math, g: NoiseGate, xs: seq<real>, x: real)
    requires CanProcess(g)
    ensures var p := Run(m, g, xs);
      var s := Step(m, p.0, x);
      Run(m, g, xs + [x]) == (s.0, p.1 + [s.1], p.2 + [s.2])
  {
    assert (xs + [x])[..|xs|] == xs;
  }

  /** Running two blocks one after the other is running their concatenation. */
  lemma {:induction false} RunConcat(m: Math, g: NoiseGate, xs: seq<real>, ys: seq<real>)
    requires CanProcess(g)
    ensures var a := Run(m, g, xs);
      var b := Run(m, a.0, ys);
      Run(m, g, xs + ys) == (b.0, a.1 + b.1, a.2 + b.2)
    decreases |ys|
  {
    var a := Run(m, g, xs);
    if |ys| == 0 {
      assert xs + ys == xs;
      assert a.1 + [] == a.1 && a.2 + [] == a.2;
    } else {
      var zs := ys[..|ys| - 1];
      var y := ys[|ys| - 1];
      SplitLast(xs, ys);
      RunConcat(m, g, xs, zs);
      RunSnoc(m, g, xs + zs, y);
      RunSnoc(m, a.0, zs, y);
      var b := Run(m, a.0, zs);
      var s := Step(m, b.0, y);
      AppendAssoc(a.1, b.1, s.1);
      AppendAssoc(a.2, b.2, s.2);
    }
  }

  /** With a valid math library every gain of a block is positive. */
  lemma {:induction false} RunGainsPositive(m: Math, g: NoiseGate, xs: seq<real>)
    requires Libm.Valid(m) && CanProcess(g)
    ensures forall i :: 0 <= i < |xs| ==> Run(m, g, xs).1[i] > 0.0
    decreases |xs|
  {
    if |xs| > 0 {
      var p := Run(m, g, xs[..|xs| - 1]);
      var s := Step(m, p.0, xs[|xs| - 1]);
      RunGainsPositive(m, g, xs[..|xs| - 1]);
      assert Run(m, g, xs).1 == p.1 + [s.1];
      assert s.1 > 0.0;
    }
  }

  /** Starting from the follower's level invariant, every envelope of a block is non-negative and the invariant holds after it. */
  lemma {:induction false} RunEnvelopesNonNegative(m: Math, g: NoiseGate, xs: seq<real>)
    requires CanProcess(g) && EnvelopeFollower.Levels(g.follower)
    ensures EnvelopeFollower.Levels(Run(m, g, xs).0.follower)
    ensures forall i :: 0 <= i < |xs| ==> Run(m, g, xs).2[i] >= 0.0
    decreases |xs|
  {
    if |xs| > 0 {
      var p := Run(m, g, xs[..|xs| - 1]);
      RunEnvelopesNonNegative(m, g, xs[..|xs| - 1]);
      EnvelopeFollower.ProcessKeepsLevels(m, p.0.follower, xs[|xs| - 1]);
    }
  }

  /** The gain readout: the largest gain of the block, starting from 0. */
  function Peak(gains: seq<real>): (r: real)
    ensures r >= 0.0
    decreases |gains|
  {
    if |gains| == 0 then 0.0
    else
      var p := Peak(gains[..|gains| - 1]);
      var x := gains[|gains| - 1];
      if x > p then x else p
  }

  /** The readout bounds every gain of the block, and it is one of them unless it is the starting 0. */
  lemma {:induction false} PeakIsLargest(gains: seq<real>)
    ensures forall i :: 0 <= i < |gains| ==> gains[i] <= Peak(gains)
    ensures Peak(gains) == 0.0 || exists i :: 0 <= i < |gains| && gains[i] == Peak(gains)
    decreases |gains|
  {
    if |gains| > 0 {
      var front := gains[..|gains| - 1];
      PeakIsLargest(front);
      assert forall i :: 0 <= i < |front| ==> front[i] == gains[i];
      if Peak(gains) != 0.0 && Peak(gains) == Peak(front) {
        var i :| 0 <= i < |front| && front[i] == Peak(front);
        assert gains[i] == Peak(gains);
      }
    }
  }

  /** The readout of two blocks together is the larger of the two readouts. */
  lemma {:induction false} PeakConcat(xs: seq<real>, ys: seq<real>)
    ensures Peak(xs + ys) == FMax(Peak(xs), Peak(ys))
    decreases |ys|
  {
    if |ys| == 0 {
      assert xs + ys == xs;
    } else {
      var zs := ys[..|ys| - 1];
      assert (xs + ys)[..|xs + ys| - 1] == xs + zs;
      assert (xs + ys)[|xs + ys| - 1] == ys[|ys| - 1];
      PeakConcat(xs, zs);
    }
  }

  /** The envelope readout: the last envelope of the block, 0 for an empty block. */
  function LastOf(envs: seq<real>): (r: real)
    ensures |envs| == 0 ==> r == 0.0
    ensures |envs| > 0 ==> r == envs[|envs| - 1]
  {
    if |envs| == 0 then 0.0 else envs[|envs| - 1]
  }

  /** The gate after a block: the last step's state, reading out the block's peak gain and last envelope. */
  function Settled(m: Math, g: NoiseGate, xs: seq<real>): NoiseGate
    requires CanProcess(g)
  {
    var run := Run(m, g, xs);
    run.0.(currentGain := Peak(run.1), currentEnv := LastOf(run.2))
  }

  /** `GetGain`. */
  function GetGain(g: NoiseGate): real
  {
    g.currentGain
  }

  /** `GetEnvelope`. */
  function GetEnvelope(g: NoiseGate): real
  {
    g.currentEnv
  }

  /**
   * The readouts after a block: the gain readout bounds every gain of the
   * block and is one of them (or the starting 0), and the envelope readout
   * is the block's last envelope (0 for an empty block).
   */
  lemma Readouts(m: Math, g: NoiseGate, xs: seq<real>)
    requires CanProcess(g)
    ensures var run := Run(m, g, xs);
      && (forall i :: 0 <= i < |xs| ==> run.1[i] <= GetGain(Settled(m, g, xs)))
      && (GetGain(Settled(m, g, xs)) == 0.0 || exists i :: 0 <= i < |xs| && run.1[i] == GetGain(Settled(m, g, xs)))
      && (|xs| == 0 ==> GetEnvelope(Settled(m, g, xs)) == 0.0)
      && (|xs| > 0 ==> GetEnvelope(Settled(m, g, xs)) == run.2[|xs| - 1])
  {
    var run := Run(m, g, xs);
    var s := Settled(m, g, xs);
    assert GetGain(s) == Peak(run.1) && GetEnvelope(s) == LastOf(run.2);
    PeakIsLargest(run.1);
  }

  /** The gated samples of one channel: the first len samples of `input`, each times its applied gain. */
  ghost predicate Gated(g: NoiseGate, gains: seq<real>, input: seq<real>, output: seq<real>, out: seq<real>, len: nat)
    requires |gains| == len <= |input| && len <= |output|
  {
    && |out| == |output| && out[len..] == output[len..]
    && forall i :: 0 <= i < len ==> out[i] == input[i] * Applied(g, gains[i])
  }

  /** Gating one more sample extends the gated prefix by one. */
  lemma GatedSnoc(g: NoiseGate, gains: seq<real>, gain: real, input: seq<real>, output: seq<real>, out: seq<real>, len: nat, i: nat)
    requires |gains| == i < len <= |input| && len <= |output|
    requires Gated(g, gains, input, output, out, i)
    ensures Gated(g, gains + [gain], input, output, out[i := input[i] * Applied(g, gain)], i + 1)
  {
  }

  /** The readout of a longer block: the new gain replaces the readout when it is larger. */
  lemma PeakSnoc(gains: seq<real>, x: real)
    ensures Peak(gains + [x]) == if x > Peak(gains) then x else Peak(gains)
  {
    assert (gains + [x])[..|gains|] == gains;
  }

  /**
   * The loop of `Process`, on the follower's inputs (the detector samples
   * already scaled): each sample moves the gate's components on by one
   * step and keeps the largest gain so far; each left input sample (and
   * each right one in stereo) is multiplied by that step's gain, or by 1
   * in bypass.
   */
  method GateLoop(m: Math, g: NoiseGate, xs: seq<real>, inL: seq<real>, outL: seq<real>, inR: seq<real>, outR: seq<real>, stereo: bool)
    returns (state: NoiseGate, gains: seq<real>, envs: seq<real>, peak: real, left: seq<real>, right: seq<real>)
    requires CanProcess(g) && |inL| >= |xs| && |outL| >= |xs|
    requires stereo ==> |inR| >= |xs| && |outR| >= |xs|
    ensures (state, gains, envs) == Run(m, g, xs)
    ensures peak == Peak(gains)
    ensures Gated(g, gains, inL, outL, left, |xs|)
    ensures stereo ==> Gated(g, gains, inR, outR, right, |xs|)
  {
    state := g;
    gains := [];
    envs := [];
    peak := 0.0;
    left := outL;
    right := outR;
    var i := 0;
    while i < |xs|
      invariant 0 <= i <= |xs|
      invariant (state, gains, envs) == Run(m, g, xs[..i])
      invariant peak == Peak(gains)
      invariant Gated(g, gains, inL, outL, left, i)
      invariant stereo ==> Gated(g, gains, inR, outR, right, i)
    {
      PrefixSnoc(xs, i);
      RunSnoc(m, g, xs[..i], xs[i]);
      var (next, gain, env) := Step(m, state, xs[i]);
      PeakSnoc(gains, gain);
      peak := if gain > peak then gain else peak;
      GatedSnoc(g, gains, gain, inL, outL, left, |xs|, i);
      left := left[i := inL[i] * Applied(g, gain)];
      if stereo {
        GatedSnoc(g, gains, gain, inR, outR, right, |xs|, i);
      }
      right := if stereo then right[i := inR[i] * Applied(g, gain)] else right;
      state := next;
      gains := gains + [gain];
      envs := envs + [env];
      i := i + 1;
    }
    Whole(xs);
  }

  /**
   * `Process` on the follower's inputs: the loop, then the readouts (the
   * block's largest gain and its last envelope). The right channel is
   * written only when both the input and the output have one.
   */
  method ProcessScaled(m: Math, g: NoiseGate, input: Frame, xs: seq<real>, output: Frame, len: nat)
    returns (r: NoiseGate, out: Frame)
    requires CanProcess(g) && Fits(input, len) && Fits(output, len) && |xs| == len
    ensures SameShape(out, output)
    ensures r == Settled(m, g, xs)
    ensures Gated(g, Run(m, g, xs).1, input.left, output.left, out.left, len)
    ensures Stereo(input, output) ==> Gated(g, Run(m, g, xs).1, input.right.value, output.right.value, out.right.value, len)
    ensures !Stereo(input, output) ==> out.right == output.right
  {
    var stereo := Stereo(input, output);
    var inR := if stereo then input.right.value else [];
    var outR := if stereo then output.right.value else [];
    var state, gains, envs, peak, left, right := GateLoop(m, g, xs, input.left, output.left, inR, outR, stereo);
    r := state.(currentGain := peak, currentEnv := LastOf(envs));
    out := Frame(left, if stereo then Some(right) else output.right);
  }

  /**
   * `Process` on a block of len samples: the detector samples, scaled by
   * the detector gain, drive the loop above.
   */
  method Process(m: Math, g: NoiseGate, input: Frame, detector: seq<real>, output: Frame, len: nat)
    returns (r: NoiseGate, out: Frame)
    requires CanProcess(g) && Fits(input, len) && Fits(output, len) && |detector| >= len
    ensures SameShape(out, output)
    ensures r == Settled(m, g, Scale(detector[..len], g.detectorGain))
    ensures Gated(g, Run(m, g, Scale(detector[..len], g.detectorGain)).1, input.left, output.left, out.left, len)
    ensures Stereo(input, output) ==>
      Gated(g, Run(m, g, Scale(detector[..len], g.detectorGain)).1, input.right.value, output.right.value, out.right.value, len)
    ensures !Stereo(input, output) ==> out.right == output.right
    ensures GetGain(r) >= 0.0
  {
    r, out := ProcessScaled(m, g, input, Scale(detector[..len], g.detectorGain), output, len);
  }

  /** In bypass the block passes through unchanged, on both channels. */
  lemma BypassPassesThrough(g: NoiseGate, gains: seq<real>, input: seq<real>, output: seq<real>, out: seq<real>, len: nat)
    requires |gains| == len <= |input| && len <= |output|
    requires g.bypass > 0.5 && Gated(g, gains, input, output, out, len)
    ensures out[..len] == input[..len]
  {
  }

  /**
   * The one-sample `Process(input, detector)`: a block of one sample
   * without a right channel, so the output sample is the input sample
   * times the gain of the single step. `Process(input)` is this with the
   * input as its own detector.
   */
  method ProcessSample(m: Math, g: NoiseGate, input: real, detector: real) returns (r: NoiseGate, out: real)
    requires CanProcess(g)
    ensures r == Settled(m, g, Scale([detector], g.detectorGain))
    ensures Gated(g, Run(m, g, Scale([detector], g.detectorGain)).1, [input], [0.0], [out], 1)
  {
    var frame;
    Whole([detector]);
    r, frame := Process(m, g, Frame([input], None), [detector], Frame([0.0], None), 1);
    out := frame.left[0];
    assert frame.left == [out] by {
      assert |frame.left| == 1;
    }
  }

  /** A gated block of one sample, as `ProcessSample` returns it, is that sample times its applied gain. */
  lemma GatedSingle(g: NoiseGate, gains: seq<real>, input: real, out: real)
    requires |gains| == 1 && Gated(g, gains, [input], [0.0], [out], 1)
    ensures out == input * Applied(g, gains[0])
  {
    assert [out][0] == [input][0] * Applied(g, gains[0]);
  }
}
