/**
 * `EnvelopeFollower`: rectify, band-limit to about 100 Hz - 2 kHz, track
 * the level with an EMA and an SMA, pick between them by the SMA's trend,
 * hold the peak and let it decay, and smooth the held value through four
 * one-pole stages.
 */
module EnvelopeFollower {
  import opened Libm
  import opened Utils
  import opened DSP
  import OnePole
  import BiquadFilter
  import Indicators
  import Series

  const HpCutoff: real := 100.0
  const InputCutoff: real := 2000.0
  const EmaCutoff: real := 200.0
  const SmaSeconds: real := 0.01
  const TimeoutSeconds: real := 0.01
  const HoldCutoff: real := 200.0
  /** The slow decay: 60 dB in 3000 ms. */
  const SlowReleaseMs: real := 3000.0
  /** The SMA trend is scaled by this before it becomes a decay. */
  const DecayFudge: real := 1.2
  const LatchAlpha: real := 0.005
  const LatchThreshold: real := 0.2

  datatype Follower = Follower(
    fs: real, releaseMs: real,
    hp: OnePole.Pole, input: BiquadFilter.Biquad,
    sma: Indicators.Sma, ema: Indicators.Ema, latch: Indicators.EmaLatch,
    timeout: int, slowDecay: real, fastDecay: real, holdAlpha: real,
    hold: real, counter: int, h1: real, h2: real, h3: real, h4: real)

  /** A follower as constructed: every number 0 (the members the source leaves uninitialised included). */
  function Fresh(): (f: Follower)
    ensures f.hold == 0.0 && f.counter == 0 && f.h4 == 0.0
  {
    Follower(0.0, 0.0, OnePole.Initial(), BiquadFilter.Fresh(), Indicators.Init(0),
      Indicators.Ema(0.0, 0.0), Indicators.EmaLatch(0.0, 0.0, 0.0, 0.0),
      0, 0.0, 0.0, 0.0, 0.0, 0, 0.0, 0.0, 0.0, 0.0)
  }

  /** What processing needs: input-filter coefficients and a non-empty moving-average window. */
  predicate Ready(f: Follower)
  {
    f.input.coefs.Some? && Indicators.Valid(f.sma) && |f.sma.queue| >= 1
  }

  /** 60 dB over the given time, per sample. */
  function Db60PerSample(ms: real, fs: real): (r: real)
    requires ms * fs != 0.0
    ensures ms * fs > 0.0 ==> r < 0.0
  {
    -60.0 / (ms / 1000.0 * fs)
  }

  /** `SetRelease`: the fast decay falls 60 dB over the release time. */
  function SetRelease(m: Math, f: Follower, releaseMs: real): (r: Follower)
    requires releaseMs * f.fs != 0.0
    ensures r == f.(releaseMs := releaseMs, fastDecay := r.fastDecay)
    ensures r.fastDecay == DbToGain(m, Db60PerSample(releaseMs, f.fs))
    ensures Libm.Valid(m) ==> r.fastDecay > 0.0
  {
    f.(releaseMs := releaseMs, fastDecay := DbToGain(m, Db60PerSample(releaseMs, f.fs)))
  }

  /**
   * `Init`: the rate-dependent filters and constants; the window and the
   * timeout are 10 ms of samples (truncated). The running state (hold,
   * counter, smoothing stages, averages) is kept.
   */
  function Init(m: Math, f: Follower, fs: real, releaseMs: real): (r: Follower)
    requires fs > 0.0 && releaseMs != 0.0
    ensures r.fs == fs && r.releaseMs == releaseMs
    ensures r.hold == f.hold && r.counter == f.counter
    ensures r.h1 == f.h1 && r.h2 == f.h2 && r.h3 == f.h3 && r.h4 == f.h4
    ensures r.ema.value == f.ema.value && r.latch.value == f.latch.value && r.latch.current == f.latch.current
    ensures r.timeout == (fs * TimeoutSeconds).Floor
    ensures |r.sma.queue| == if (fs * SmaSeconds).Floor < Indicators.Capacity then (fs * SmaSeconds).Floor else Indicators.Capacity
    ensures 0.0 < r.holdAlpha < 1.0 && 0.0 < r.ema.alpha < 1.0
    ensures r.input.kind == BiquadFilter.LowPass && r.input.freq == InputCutoff && r.input.q == 1.0
    ensures Libm.Valid(m) && fs >= 100.0 ==> Ready(r)
  {
    var ts := 1.0 / fs;
    var hp := OnePole.SetFc(f.hp, HpCutoff / (fs * 0.5));
    var lp := BiquadFilter.Init(m, f.input, BiquadFilter.LowPass, fs.Floor);
    var lp2 := BiquadFilter.Update(m, BiquadFilter.SetQ(BiquadFilter.SetFreq(lp, InputCutoff), 1.0));
    var window := (fs * SmaSeconds).Floor;
    var g := f.(fs := fs, hp := hp, input := lp2,
      slowDecay := DbToGain(m, Db60PerSample(SlowReleaseMs, fs)),
      sma := Indicators.Init(window),
      ema := Indicators.EmaInit(f.ema, ComputeLpAlpha(EmaCutoff, ts)),
      latch := Indicators.LatchInit(f.latch, LatchAlpha, LatchThreshold),
      timeout := (fs * TimeoutSeconds).Floor,
      holdAlpha := ComputeLpAlpha(HoldCutoff, ts));
    assert EmaCutoff * ts > 0.0 && HoldCutoff * ts > 0.0;
    BiquadFilter.LowPassComputable(m, BiquadFilter.SetQ(BiquadFilter.SetFreq(lp, InputCutoff), 1.0));
    SetRelease(m, g, releaseMs)
  }

  /** The detector front end: rectify, high-pass, low-pass, rectify again. */
  function Detect(f: Follower, val: real): (r: (Follower, real))
    requires Ready(f)
    ensures r.1 >= 0.0
    ensures Ready(r.0) && r.0 == f.(hp := r.0.hp, input := r.0.input)
    ensures r.0.hp == OnePole.Highpass(f.hp, Abs(val)).0
    ensures r.1 == Abs(BiquadFilter.Process(f.input, OnePole.Highpass(f.hp, Abs(val)).1).1)
  {
    var (hp, x) := OnePole.Highpass(f.hp, Abs(val));
    var (lp, y) := BiquadFilter.Process(f.input, x);
    (f.(hp := hp, input := lp), Abs(y))
  }

  /** Step 5: rising, prefer the larger of the two averages; falling, the smaller. */
  function Combine(movement: real, ema: real, sma: real): (r: real)
    ensures movement > 0.0 ==> r == FMax(ema, sma)
    ensures movement <= 0.0 ==> r == FMin(ema, sma)
    ensures r == ema || r == sma
  {
    if movement > 0.0 then (if ema > sma then ema else sma)
    else (if ema < sma then ema else sma)
  }

  /**
   * Step 7: the timeout's fast decay or the SMA trend's, then capped at the
   * slow decay and floored at the fast one (the floor wins when they cross).
   */
  function ChooseDecay(m: Math, f: Follower, counter: int): (r: real)
    ensures r >= f.fastDecay
    ensures f.fastDecay <= f.slowDecay ==> r <= f.slowDecay
    ensures counter > f.timeout ==> r == f.fastDecay
    ensures counter <= f.timeout && f.fastDecay <= f.slowDecay ==>
      r == FClamp(DbToGain(m, f.sma.dbDecay * DecayFudge), f.fastDecay, f.slowDecay)
  {
    var d := if counter > f.timeout then f.fastDecay else DbToGain(m, f.sma.dbDecay * DecayFudge);
    var capped := if d > f.slowDecay then f.slowDecay else d;
    if capped < f.fastDecay then f.fastDecay else capped
  }

  /** Step 8: four cascaded one-pole smoothers of the held value. */
  function Smooth(f: Follower): (r: Follower)
    ensures r == f.(h1 := r.h1, h2 := r.h2, h3 := r.h3, h4 := r.h4)
    ensures r.h1 == Indicators.Blend(f.holdAlpha, f.hold, f.h1)
    ensures r.h2 == Indicators.Blend(f.holdAlpha, r.h1, f.h2)
    ensures r.h3 == Indicators.Blend(f.holdAlpha, r.h2, f.h3)
    ensures r.h4 == Indicators.Blend(f.holdAlpha, r.h3, f.h4)
  {
    var a := f.holdAlpha;
    var h1 := Indicators.Blend(a, f.hold, f.h1);
    var h2 := Indicators.Blend(a, h1, f.h2);
    var h3 := Indicators.Blend(a, h2, f.h3);
    var h4 := Indicators.Blend(a, h3, f.h4);
    f.(h1 := h1, h2 := h2, h3 := h3, h4 := h4)
  }

  /** Steps 2 to 5 on a detected sample: update both averages and the trend latch, and combine the averages. */
  function Average(m: Math, g: Follower, x: real): (r: (Follower, real))
    requires Indicators.Valid(g.sma) && |g.sma.queue| >= 1
    ensures r.0 == g.(ema := r.0.ema, sma := r.0.sma, latch := r.0.latch)
    ensures r.0.ema.alpha == g.ema.alpha && r.0.ema.value == Indicators.Blend(g.ema.alpha, x, g.ema.value)
    ensures r.0.sma == Indicators.Update(m, g.sma, x).0
    ensures r.0.latch == g.latch.(value := r.0.latch.value, current := r.0.latch.current)
    ensures r.1 == r.0.ema.value || r.1 == Indicators.Mean(r.0.sma.queue)
  {
    var ema := Indicators.EmaUpdate(g.ema, x);
    var sma := Indicators.Update(m, g.sma, x);
    var latch := Indicators.LatchUpdate(g.latch, sma.0.dbDecay > 0.0);
    var combined := Combine(latch.1, ema.1, sma.1);
    (g.(ema := ema.0, sma := sma.0, latch := latch.0), combined)
  }

  /** Steps 1 to 5: detect, update both averages and the trend latch, and combine the averages. */
  function Estimate(m: Math, f: Follower, val: real): (r: (Follower, real))
    requires Ready(f)
    ensures Ready(r.0)
    ensures r.0 == f.(hp := r.0.hp, input := r.0.input, ema := r.0.ema, sma := r.0.sma, latch := r.0.latch)
    ensures r.1 == r.0.ema.value || r.1 == Indicators.Mean(r.0.sma.queue)
    ensures r.0.ema.alpha == f.ema.alpha && r.0.latch.alpha == f.latch.alpha
    ensures r.0.sma.queue == f.sma.queue[f.sma.head := Detect(f, val).1]
    ensures r.0.ema.value == Indicators.Blend(f.ema.alpha, Detect(f, val).1, f.ema.value)
    ensures r.0.sma == Indicators.Update(m, f.sma, Detect(f, val).1).0
    ensures r.0.latch == f.latch.(value := r.0.latch.value, current := r.0.latch.current)
  {
    var d := Detect(f, val);
    assert d.0.sma == f.sma;
    Average(m, d.0, d.1)
  }

  /**
   * Step 5 in full: the trend latch is stepped once, by whether the updated
   * window's trend is rising, and its new direction chooses between the
   * exponential average and the window's mean.
   */
  lemma EstimateCombines(m: Math, f: Follower, val: real)
    requires Ready(f)
    ensures var e := Estimate(m, f, val);
      && e.0.latch == Indicators.LatchUpdate(f.latch, e.0.sma.dbDecay > 0.0).0
      && e.1 == Combine(e.0.latch.current, e.0.ema.value, Indicators.Update(m, f.sma, Detect(f, val).1).1)
  {
  }

  /** Step 6: a new peak is held and restarts the timeout counter. */
  function Catch(f: Follower, combined: real): (r: Follower)
    ensures r == f.(hold := r.hold, counter := r.counter)
    ensures r.hold == FMax(combined, f.hold)
    ensures r.counter == if combined > f.hold then 0 else f.counter
  {
    if combined > f.hold then f.(hold := combined, counter := 0) else f
  }

  /** Step 7's outcome: the held value multiplied by the chosen decay, once. */
  function Release(m: Math, f: Follower): (r: Follower)
    ensures r == f.(hold := r.hold)
    ensures r.hold == f.hold * ChooseDecay(m, f, f.counter)
  {
    f.(hold := f.hold * ChooseDecay(m, f, f.counter))
  }

  /**
   * `ProcessEnvelope`: one sample through the follower. Returns the last
   * smoothing stage. The held value is multiplied by the chosen decay
   * exactly once, and the counter is incremented once, after the decay has
   * been chosen.
   */
  function ProcessEnvelope(m: Math, f: Follower, val: real): (r: (Follower, real))
    requires Ready(f)
    ensures Ready(r.0) && r.1 == r.0.h4
    ensures r.0.fs == f.fs && r.0.fastDecay == f.fastDecay && r.0.slowDecay == f.slowDecay
    ensures r.0.timeout == f.timeout && r.0.holdAlpha == f.holdAlpha
    ensures var k := Catch(Estimate(m, f, val).0, Estimate(m, f, val).1);
      && r.0.counter == k.counter + 1
      && r.0.hold == Release(m, k).hold
      && r.0 == Smooth(Release(m, k)).(counter := k.counter + 1)
  {
    var e := Estimate(m, f, val);
    var k := Catch(e.0, e.1);
    var released := Release(m, k);
    var s := Smooth(released);
    (s.(counter := k.counter + 1), s.h4)
  }

  /**
   * The level invariant: smoothing factors in [0, 1], a non-negative fast
   * decay, and every average, held and smoothed value non-negative.
   */
  predicate Levels(f: Follower)
  {
    && 0.0 <= f.holdAlpha <= 1.0 && 0.0 <= f.ema.alpha <= 1.0 && f.fastDecay >= 0.0
    && f.ema.value >= 0.0 && (forall i :: 0 <= i < |f.sma.queue| ==> f.sma.queue[i] >= 0.0)
    && f.hold >= 0.0 && f.h1 >= 0.0 && f.h2 >= 0.0 && f.h3 >= 0.0 && f.h4 >= 0.0
  }

  /** The estimate of a follower at its level invariant is non-negative, and the invariant still holds after it. */
  lemma EstimateKeepsLevels(m: Math, f: Follower, val: real)
    requires Ready(f) && Levels(f)
    ensures Levels(Estimate(m, f, val).0)
    ensures Estimate(m, f, val).1 >= 0.0
  {
    var x := Detect(f, val).1;
    var (e, c) := Estimate(m, f, val);
    Indicators.BlendBetween(f.ema.alpha, x, f.ema.value);
    assert forall i :: 0 <= i < |e.sma.queue| ==> e.sma.queue[i] >= 0.0;
    Indicators.SumNonNegative(e.sma.queue);
  }

  /** Catching, releasing and smoothing a non-negative estimate keep the invariant. */
  lemma HoldKeepsLevels(m: Math, e: Follower, c: real)
    requires Levels(e) && c >= 0.0
    ensures Levels(Smooth(Release(m, Catch(e, c))))
  {
    var k := Catch(e, c);
    var held := Release(m, k);
    NonNegProduct(k.hold, ChooseDecay(m, k, k.counter));
    assert held.hold >= 0.0;
    var a := e.holdAlpha;
    var s := Smooth(held);
    assert s.sma == e.sma && s.ema == e.ema && s.holdAlpha == a && s.fastDecay == e.fastDecay;
    Indicators.BlendBetween(a, held.hold, e.h1);
    Indicators.BlendBetween(a, s.h1, e.h2);
    Indicators.BlendBetween(a, s.h2, e.h3);
    Indicators.BlendBetween(a, s.h3, e.h4);
  }

  /** The envelope is never negative: each sample keeps the level invariant. */
  lemma ProcessKeepsLevels(m: Math, f: Follower, val: real)
    requires Ready(f) && Levels(f)
    ensures Levels(ProcessEnvelope(m, f, val).0)
    ensures ProcessEnvelope(m, f, val).1 >= 0.0
  {
    EstimateKeepsLevels(m, f, val);
    var e := Estimate(m, f, val);
    HoldKeepsLevels(m, e.0, e.1);
  }
}
