/**
 * The envelope follower's indicators: a simple moving average over a ring
 * buffer (with its per-sample dB trend), an exponential moving average, and
 * an exponential average of a boolean with a hysteresis latch.
 */
module Indicators {
  import opened Libm
  import opened Utils
  import opened Series
  import DSP

  /** The ring buffer's fixed capacity. */
  const Capacity: nat := 1024
  /** The floor applied to both dB values of the trend. */
  const DbFloor: real := -150.0

  /** One step of an exponential average: alpha of the sample, 1 - alpha of the previous value. */
  function Blend(alpha: real, sample: real, value: real): (r: real)
    ensures r - value == alpha * (sample - value)
  {
    sample * alpha + value * (1.0 - alpha)
  }

  /** For alpha in [0, 1] a blend lies between the previous value and the sample. */
  lemma BlendBetween(alpha: real, sample: real, value: real)
    requires 0.0 <= alpha <= 1.0
    ensures value <= sample ==> value <= Blend(alpha, sample, value) <= sample
    ensures sample <= value ==> sample <= Blend(alpha, sample, value) <= value
  {
    var d := sample - value;
    assert Blend(alpha, sample, value) - value == alpha * d;
    DSP.FractionBetween(alpha, d, Blend(alpha, sample, value) - value);
  }

  // ---------------------------------------------------------------------
  // Sma
  // ---------------------------------------------------------------------

  /**
   * The slots in use (`sampleCount` of them), the slot to overwrite next,
   * the running sum and the last dB trend. Slots beyond `sampleCount` are
   * never read and are not modelled.
   */
  datatype Sma = Sma(queue: seq<real>, head: nat, sum: real, dbDecay: real)

  /** The running sum is the sum of the queued values and the head is a slot. */
  predicate Valid(s: Sma)
  {
    |s.queue| <= Capacity &&
    (if |s.queue| == 0 then s.head == 0 else s.head < |s.queue|) &&
    s.sum == Sum(s.queue)
  }

  /** The queued values from the oldest to the newest. */
  function Window(s: Sma): (w: seq<real>)
    requires s.head <= |s.queue|
    ensures |w| == |s.queue|
  {
    s.queue[s.head..] + s.queue[..s.head]
  }

  /** The oldest queued value sits at the head. */
  lemma WindowFront(s: Sma)
    requires s.head < |s.queue|
    ensures Window(s)[0] == s.queue[s.head]
  {
  }

  function Zeros(n: nat): (z: seq<real>)
    ensures |z| == n && forall i :: 0 <= i < n ==> z[i] == 0.0
  {
    seq(n, i => 0.0)
  }

  /** `Init`: a window of min(n, 1024) zeros, head, sum and trend 0. */
  function Init(n: nat): (s: Sma)
    ensures Valid(s)
    ensures |s.queue| == if n < Capacity then n else Capacity
    ensures s.head == 0 && s.sum == 0.0 && s.dbDecay == 0.0
    ensures forall i :: 0 <= i < |s.queue| ==> s.queue[i] == 0.0
  {
    var count := if n < Capacity then n else Capacity;
    ZerosSum(count);
    Sma(Zeros(count), 0, 0.0, 0.0)
  }

  lemma {:induction false} ZerosSum(n: nat)
    ensures Sum(Zeros(n)) == 0.0
  {
    if n > 0 {
      assert Zeros(n)[1..] == Zeros(n - 1);
      ZerosSum(n - 1);
    }
  }

  /** A level in dB, floored at -150. */
  function FlooredDb(m: Math, x: real): (r: real)
    ensures r >= DbFloor
    ensures GainToDb(m, x) >= DbFloor ==> r == GainToDb(m, x)
  {
    var db := GainToDb(m, x);
    if db < DbFloor then DbFloor else db
  }

  /**
   * `Update`: the oldest value is replaced by the sample, the head moves on
   * cyclically, the sum follows, and the trend is the floored dB difference
   * between the new and the evicted value spread over the window. Returns
   * the mean of the window.
   */
  function Update(m: Math, s: Sma, sample: real): (r: (Sma, real))
    requires Valid(s) && |s.queue| >= 1
    ensures Valid(r.0) && |r.0.queue| == |s.queue|
    ensures r.0.head == (s.head + 1) % |s.queue| && r.0.queue == s.queue[s.head := sample]
    ensures Window(r.0) == Window(s)[1..] + [sample]
    ensures r.1 == Mean(r.0.queue)
    ensures r.0.dbDecay == PerSample(FlooredDb(m, sample) - FlooredDb(m, Window(s)[0]), |s.queue|)
  {
    WindowFront(s);
    var pushed := Push(s, sample);
    var decay := PerSample(FlooredDb(m, sample) - FlooredDb(m, s.queue[s.head]), |s.queue|);
    (pushed.(dbDecay := decay), PerSample(pushed.sum, |s.queue|))
  }

  /** The arithmetic mean of a non-empty window. */
  function Mean(q: seq<real>): real
    requires |q| >= 1
  {
    Sum(q) / (|q| as real)
  }

  /** The ring-buffer half of `Update`: overwrite the oldest slot, advance the head, adjust the sum. */
  function Push(s: Sma, sample: real): (r: Sma)
    requires Valid(s) && |s.queue| >= 1
    ensures Valid(r) && |r.queue| == |s.queue| && r.dbDecay == s.dbDecay
    ensures r.head == (s.head + 1) % |s.queue| && r.queue == s.queue[s.head := sample]
    ensures Window(r) == Window(s)[1..] + [sample]
  {
    SumUpdate(s.queue, s.head, sample);
    WindowAdvances(s.queue, s.head, sample);
    Sma(s.queue[s.head := sample], NextHead(s.head, |s.queue|), s.sum - s.queue[s.head] + sample, s.dbDecay)
  }

  /** A quantity spread evenly over the window. */
  function PerSample(x: real, count: nat): (r: real)
    requires count >= 1
    ensures r * (count as real) == x
  {
    x / count as real
  }

  /** The head's cyclic advance. */
  function NextHead(h: nat, count: nat): (r: nat)
    requires h < count
    ensures r < count && r == (h + 1) % count
  {
    WrapsAtCount(h + 1, count);
    if h + 1 >= count then 0 else h + 1
  }

  /** Below the count a value is its own remainder, and the count itself wraps to 0. */
  lemma WrapsAtCount(k: nat, count: nat)
    requires 0 < k <= count
    ensures k < count ==> k % count == k
    ensures k == count ==> k % count == 0
  {
  }

  /** Overwriting the oldest slot and moving the head on appends to the window and drops its front. */
  lemma WindowAdvances(q: seq<real>, h: nat, x: real)
    requires h < |q|
    ensures var h' := NextHead(h, |q|);
      q[h := x][h'..] + q[h := x][..h'] == (q[h..] + q[..h])[1..] + [x]
  {
    var q' := q[h := x];
    assert (q[h..] + q[..h])[1..] == q[h + 1..] + q[..h];
    if h + 1 >= |q| {
      assert q'[0..] + q'[..0] == q';
      assert q' == q[..h] + [x];
    } else {
      assert q'[h + 1..] == q[h + 1..];
      assert q'[..h + 1] == q[..h] + [x];
    }
  }

  /** The evicted value is the oldest in the window. */
  lemma EvictsOldest(s: Sma)
    requires Valid(s) && |s.queue| >= 1
    ensures Window(s)[0] == s.queue[s.head]
  {
  }

  /** Feeding a sequence of samples, one `Update` each. */
  function Feed(m: Math, s: Sma, xs: seq<real>): (r: Sma)
    requires Valid(s) && |s.queue| >= 1
    ensures Valid(r) && |r.queue| == |s.queue|
    decreases |xs|
  {
    if |xs| == 0 then s else Feed(m, Update(m, s, xs[0]).0, xs[1..])
  }

  /** After k updates the window holds the old window without its k oldest values, then the k samples. */
  lemma {:induction false} FeedWindow(m: Math, s: Sma, xs: seq<real>)
    requires Valid(s) && |s.queue| >= 1 && |xs| <= |s.queue|
    ensures Window(Feed(m, s, xs)) == Window(s)[|xs|..] + xs
    decreases |xs|
  {
    if |xs| == 0 {
      assert Window(s)[0..] + [] == Window(s);
    } else {
      var next := Update(m, s, xs[0]).0;
      assert Feed(m, s, xs) == Feed(m, next, xs[1..]);
      assert Window(next) == Window(s)[1..] + [xs[0]];
      FeedWindow(m, next, xs[1..]);
      ShiftAlgebra(Window(s), xs);
    }
  }

  lemma ShiftAlgebra(w: seq<real>, xs: seq<real>)
    requires 1 <= |xs| <= |w|
    ensures (w[1..] + [xs[0]])[|xs| - 1..] + xs[1..] == w[|xs|..] + xs
  {
    assert (w[1..] + [xs[0]])[|xs| - 1..] == w[|xs|..] + [xs[0]];
  }

  /**
   * FIFO: once the window has been filled, it holds exactly the last
   * `sampleCount` samples in order, and the mean is their average.
   */
  lemma LastSamples(m: Math, s: Sma, xs: seq<real>)
    requires Valid(s) && |s.queue| >= 1 && |xs| == |s.queue|
    ensures Window(Feed(m, s, xs)) == xs
    ensures Sum(Feed(m, s, xs).queue) == Sum(xs)
  {
    var r := Feed(m, s, xs);
    FeedWindow(m, s, xs);
    assert Window(s)[|xs|..] == [];
    assert Window(r) == xs;
    SumRotate(r.queue, r.head);
  }

  /** A window of non-negative values has a non-negative sum. */
  lemma {:induction false} SumNonNegative(q: seq<real>)
    requires forall i :: 0 <= i < |q| ==> q[i] >= 0.0
    ensures Sum(q) >= 0.0
  {
    if |q| > 0 {
      SumNonNegative(q[1..]);
    }
  }

  // ---------------------------------------------------------------------
  // Ema
  // ---------------------------------------------------------------------

  /** The smoothing factor and the average; the average starts at 0. */
  datatype Ema = Ema(alpha: real, value: real)

  function EmaInit(e: Ema, alpha: real): (r: Ema)
    ensures r.alpha == alpha && r.value == e.value
  {
    e.(alpha := alpha)
  }

  /** `Ema::Update`: blend the sample in and return the new average. */
  function EmaUpdate(e: Ema, sample: real): (r: (Ema, real))
    ensures r.0.alpha == e.alpha && r.1 == r.0.value
    ensures r.1 - e.value == e.alpha * (sample - e.value)
  {
    var v := Blend(e.alpha, sample, e.value);
    (e.(value := v), v)
  }

  /** The average moves toward the sample and never past it; a sample equal to the average is a fixed point. */
  lemma EmaTracks(e: Ema, sample: real)
    requires 0.0 <= e.alpha <= 1.0
    ensures e.value <= sample ==> e.value <= EmaUpdate(e, sample).1 <= sample
    ensures sample <= e.value ==> sample <= EmaUpdate(e, sample).1 <= e.value
    ensures sample == e.value ==> EmaUpdate(e, sample).0 == e
  {
    BlendBetween(e.alpha, sample, e.value);
  }

  // ---------------------------------------------------------------------
  // EmaLatch
  // ---------------------------------------------------------------------

  /** The smoothing factor, the latch threshold, the average of the signs and the latched output. */
  datatype EmaLatch = EmaLatch(alpha: real, latch: real, value: real, current: real)

  function LatchInit(e: EmaLatch, alpha: real, latch: real): (r: EmaLatch)
    ensures r == e.(alpha := alpha, latch := latch)
  {
    e.(alpha := alpha, latch := latch)
  }

  /** true counts as +1, false as -1. */
  function Sign(input: bool): (r: real)
    ensures r == 1.0 || r == -1.0
    ensures r > 0.0 <==> input
  {
    if input then 1.0 else -1.0
  }

  /**
   * `EmaLatch::Update`: average the sign; the output turns +1 above the
   * latch and -1 below its negation (the second test wins if both hold),
   * and otherwise keeps its previous value.
   */
  function LatchUpdate(e: EmaLatch, input: bool): (r: (EmaLatch, real))
    ensures r.0.alpha == e.alpha && r.0.latch == e.latch && r.1 == r.0.current
    ensures r.0.value - e.value == e.alpha * (Sign(input) - e.value)
    ensures r.0.value < -e.latch ==> r.1 == -1.0
    ensures -e.latch <= r.0.value && r.0.value > e.latch ==> r.1 == 1.0
    ensures -e.latch <= r.0.value <= e.latch ==> r.1 == e.current
  {
    var v := Blend(e.alpha, Sign(input), e.value);
    var c1 := if v > e.latch then 1.0 else e.current;
    var c2 := if v < -e.latch then -1.0 else c1;
    (e.(value := v, current := c2), c2)
  }

  /** For alpha in [0, 1] the averaged sign stays within [-1, 1]. */
  lemma LatchValueBounded(e: EmaLatch, input: bool)
    requires 0.0 <= e.alpha <= 1.0 && -1.0 <= e.value <= 1.0
    ensures -1.0 <= LatchUpdate(e, input).0.value <= 1.0
  {
    BlendBetween(e.alpha, Sign(input), e.value);
  }

  /** The latched output is always -1, 0 (before the first crossing) or +1. */
  lemma LatchOutputs(e: EmaLatch, input: bool)
    requires e.current == -1.0 || e.current == 0.0 || e.current == 1.0
    ensures var c := LatchUpdate(e, input).1; c == -1.0 || c == 0.0 || c == 1.0
  {
  }
}
