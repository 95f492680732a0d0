/**
 * `Transfer<T>`: a direct-form IIR filter running over a 50-slot ring buffer
 * per channel.
 *
 * The filter keeps T numerator coefficients b and T denominator coefficients
 * a, a cached gain 1/a[0], a ring index, and for each channel the last 50
 * inputs and outputs. Each sample advances the index by one (mod 50), stores
 * the input, and computes
 *
 *   y[n] = gain * (sum over j < T of b[j]*x[n-j] - sum over 1 <= j < T of a[j]*y[n-j]).
 */
module Transfer {
  import opened Wrappers
  import opened Buffers
  import opened Series

  /** The ring size (`modulo`). */
  const Modulo: nat := 50

  /** The ring slot j samples behind slot idx. */
  function Slot(idx: nat, j: nat): (r: nat)
    requires idx < Modulo && j < Modulo
    ensures r < Modulo
    ensures r == idx <==> j == 0
  {
    if j <= idx then idx - j else idx + Modulo - j
  }

  /** The slot after idx. */
  function Next(idx: nat): (r: nat)
    requires idx < Modulo
    ensures r < Modulo
    ensures Slot(r, 1) == idx
  {
    if idx + 1 == Modulo then 0 else idx + 1
  }

  /** The source's unsigned (index - j) % modulo and (index + 1) % modulo. */
  lemma SlotAndNextAreModular(idx: nat, j: nat)
    requires idx < Modulo && j < Modulo
    ensures Slot(idx, j) == (idx + Modulo - j) % Modulo
    ensures Next(idx) == (idx + 1) % Modulo
  {
  }

  /** The index after n samples. */
  function Advance(start: nat, n: nat): (r: nat)
    requires start < Modulo
    ensures r < Modulo
  {
    if n == 0 then start else Next(Advance(start, n - 1))
  }

  /** n samples move the index n places round the ring. */
  lemma {:induction false} AdvanceIsModular(start: nat, n: nat)
    requires start < Modulo
    ensures Advance(start, n) == (start + n) % Modulo
  {
    if n > 0 {
      AdvanceIsModular(start, n - 1);
      NextOfRemainder(Advance(start, n - 1), start + n - 1);
    }
  }

  /** The slot after k's slot is k + 1's slot. */
  lemma NextOfRemainder(p: nat, k: nat)
    requires p == k % Modulo
    ensures Next(p) == (k + 1) % Modulo
  {
    NextIsModular(p);
    ModuloSucc(k);
  }

  /** The slot after idx is idx + 1 modulo the ring size. */
  lemma NextIsModular(idx: nat)
    requires idx < Modulo
    ensures Next(idx) == (idx + 1) % Modulo
  {
  }

  /** Taking the remainder before or after adding one gives the same slot. */
  lemma ModuloSucc(k: nat)
    ensures (k % Modulo + 1) % Modulo == (k + 1) % Modulo
  {
    var q := k / Modulo;
    var r := k % Modulo;
    assert k == q * Modulo + r;
    if r + 1 < Modulo {
      assert k + 1 == q * Modulo + (r + 1);
    } else {
      assert k + 1 == (q + 1) * Modulo;
    }
  }

  /** One step back from the next slot is one step less back from this one. */
  lemma SlotShift(idx: nat, j: nat)
    requires idx < Modulo && j + 1 < Modulo
    ensures Slot(Next(idx), j + 1) == Slot(idx, j)
  {
  }

  /** The 50 most recent inputs and outputs of one channel. */
  datatype Line = Line(input: seq<real>, output: seq<real>)

  datatype Filter = Filter(b: seq<real>, a: seq<real>, gain: real, index: nat, left: Line, right: Line)

  predicate LineValid(l: Line)
  {
    |l.input| == Modulo && |l.output| == Modulo
  }

  /** T coefficients on each side (1 <= T <= 50), an index inside the ring, full rings. */
  predicate Valid(t: Filter)
  {
    1 <= |t.b| == |t.a| <= Modulo && t.index < Modulo && LineValid(t.left) && LineValid(t.right)
  }

  function Zeros(n: nat): (r: seq<real>)
    ensures |r| == n && forall i :: 0 <= i < n ==> r[i] == 0.0
  {
    seq(n, _ => 0.0)
  }

  const ZeroLine: Line := Line(Zeros(Modulo), Zeros(Modulo))

  /** A newly constructed filter: index 0, gain 0; the coefficient arrays start at zero. */
  function Fresh(size: nat): (r: Filter)
    requires 1 <= size <= Modulo
    ensures Valid(r) && |r.b| == size
    ensures r.index == 0 && r.gain == 0.0
  {
    Filter(Zeros(size), Zeros(size), 0.0, 0, ZeroLine, ZeroLine)
  }

  /** `Init`: zeroes a, b and the four ring buffers; the index and the gain are kept. */
  function Init(t: Filter): (r: Filter)
    requires Valid(t)
    ensures Valid(r)
    ensures |r.b| == |t.b| && forall j :: 0 <= j < |r.b| ==> r.b[j] == 0.0 && r.a[j] == 0.0
    ensures forall k :: 0 <= k < Modulo ==> r.left.input[k] == 0.0 && r.left.output[k] == 0.0
    ensures forall k :: 0 <= k < Modulo ==> r.right.input[k] == 0.0 && r.right.output[k] == 0.0
    ensures r.index == t.index && r.gain == t.gain
  {
    t.(b := Zeros(|t.b|), a := Zeros(|t.a|), left := ZeroLine, right := ZeroLine)
  }

  /** `SetB`: replaces the numerator only. */
  function SetB(t: Filter, b: seq<real>): (r: Filter)
    requires Valid(t) && |b| == |t.b|
    ensures Valid(r)
    ensures r.b == b
    ensures r.a == t.a && r.gain == t.gain && r.index == t.index && r.left == t.left && r.right == t.right
  {
    t.(b := b)
  }

  /** `SetA`: replaces the denominator and caches 1/a[0], or 0 when a[0] is 0. */
  function SetA(t: Filter, a: seq<real>): (r: Filter)
    requires Valid(t) && |a| == |t.a|
    ensures Valid(r)
    ensures r.a == a
    ensures a[0] == 0.0 ==> r.gain == 0.0
    ensures a[0] != 0.0 ==> r.gain * a[0] == 1.0
    ensures r.b == t.b && r.index == t.index && r.left == t.left && r.right == t.right
  {
    t.(a := a, gain := if a[0] == 0.0 then 0.0 else 1.0 / a[0])
  }

  // ---------------------------------------------------------------------
  // One sample
  // ---------------------------------------------------------------------

  /** The value j samples behind slot idx. */
  function Hist(buf: seq<real>, idx: nat, j: nat): real
    requires |buf| == Modulo && idx < Modulo && j < Modulo
  {
    buf[Slot(idx, j)]
  }

  /** sum over j < n of c[j] * buf[idx - j]: the feed-forward sum. */
  function FirSum(c: seq<real>, buf: seq<real>, idx: nat, n: nat): real
    requires |buf| == Modulo && idx < Modulo && n <= |c| && n <= Modulo
  {
    if n == 0 then 0.0 else FirSum(c, buf, idx, n - 1) + c[n - 1] * Hist(buf, idx, n - 1)
  }

  /** sum over 1 <= j < n of c[j] * buf[idx - j]: the feedback sum, which skips a[0]. */
  function FeedbackSum(c: seq<real>, buf: seq<real>, idx: nat, n: nat): real
    requires |buf| == Modulo && idx < Modulo && n <= |c| && n <= Modulo
  {
    if n <= 1 then 0.0 else FeedbackSum(c, buf, idx, n - 1) + c[n - 1] * Hist(buf, idx, n - 1)
  }

  /** One channel's step at the already advanced index idx: store x, compute and store y. */
  function StepLine(b: seq<real>, a: seq<real>, gain: real, l: Line, idx: nat, x: real): (r: (Line, real))
    requires 1 <= |b| == |a| <= Modulo && LineValid(l) && idx < Modulo
    ensures LineValid(r.0)
    ensures Hist(r.0.input, idx, 0) == x && Hist(r.0.output, idx, 0) == r.1
    ensures forall j :: 1 <= j < Modulo ==> Hist(r.0.input, idx, j) == Hist(l.input, idx, j)
    ensures forall j :: 1 <= j < Modulo ==> Hist(r.0.output, idx, j) == Hist(l.output, idx, j)
    ensures gain == 0.0 ==> r.1 == 0.0
  {
    var input := l.input[idx := x];
    var y := gain * (FirSum(b, input, idx, |b|) - FeedbackSum(a, l.output, idx, |a|));
    (Line(input, l.output[idx := y]), y)
  }

  /** One sample through both channels. A null right input arrives here as 0. */
  function Step(t: Filter, xl: real, xr: real): (r: (Filter, real, real))
    requires Valid(t)
    ensures Valid(r.0)
    ensures r.0.index == Next(t.index)
    ensures r.0.b == t.b && r.0.a == t.a && r.0.gain == t.gain
    ensures t.gain == 0.0 ==> r.1 == 0.0 && r.2 == 0.0
  {
    var idx := Next(t.index);
    var (left, yl) := StepLine(t.b, t.a, t.gain, t.left, idx, xl);
    var (right, yr) := StepLine(t.b, t.a, t.gain, t.right, idx, xr);
    (t.(index := idx, left := left, right := right), yl, yr)
  }

  /** The source's b loop: out[idx] accumulates b[j] * in[idx - j] for j < T. */
  method FirLoop(b: seq<real>, bufIn: seq<real>, out: seq<real>, idx: nat) returns (out': seq<real>)
    requires 1 <= |b| <= Modulo && |bufIn| == Modulo && |out| == Modulo && idx < Modulo
    ensures |out'| == Modulo
    ensures out'[idx] == out[idx] + FirSum(b, bufIn, idx, |b|)
    ensures forall k :: 0 <= k < Modulo && k != idx ==> out'[k] == out[k]
  {
    out' := out;
    var j := 0;
    while j < |b|
      invariant 0 <= j <= |b|
      invariant |out'| == Modulo
      invariant out'[idx] == out[idx] + FirSum(b, bufIn, idx, j)
      invariant forall k :: 0 <= k < Modulo && k != idx ==> out'[k] == out[k]
    {
      out' := out'[idx := out'[idx] + b[j] * bufIn[Slot(idx, j)]];
      j := j + 1;
    }
  }

  /**
   * The source's a loop: out[idx] loses a[j] * out[idx - j] for 1 <= j < T.
   * Slot idx itself is never read back, so the sum sees the earlier outputs.
   */
  method FeedbackLoop(a: seq<real>, out: seq<real>, idx: nat) returns (out': seq<real>)
    requires 1 <= |a| <= Modulo && |out| == Modulo && idx < Modulo
    ensures |out'| == Modulo
    ensures out'[idx] == out[idx] - FeedbackSum(a, out, idx, |a|)
    ensures forall k :: 0 <= k < Modulo && k != idx ==> out'[k] == out[k]
  {
    out' := out;
    var j := 1;
    while j < |a|
      invariant 1 <= j <= |a|
      invariant |out'| == Modulo
      invariant out'[idx] == out[idx] - FeedbackSum(a, out, idx, j)
      invariant forall k :: 0 <= k < Modulo && k != idx ==> out'[k] == out[k]
    {
      out' := out'[idx := out'[idx] - a[j] * out'[Slot(idx, j)]];
      j := j + 1;
    }
  }

  /** The feedback sum never reads slot idx, so a write there does not change it. */
  lemma {:induction false} FeedbackIgnoresNewest(a: seq<real>, out: seq<real>, idx: nat, y: real, n: nat)
    requires |out| == Modulo && idx < Modulo && n <= |a| && n <= Modulo
    ensures FeedbackSum(a, out[idx := y], idx, n) == FeedbackSum(a, out, idx, n)
    decreases n
  {
    if n > 1 {
      FeedbackIgnoresNewest(a, out, idx, y, n - 1);
      assert Hist(out[idx := y], idx, n - 1) == Hist(out, idx, n - 1);
    }
  }

  /**
   * The source's per-channel statements for one sample: store x, zero the
   * output slot, accumulate the b terms, subtract the a terms, scale by gain.
   */
  method StepLineLoop(b: seq<real>, a: seq<real>, gain: real, l: Line, idx: nat, x: real) returns (r: Line, y: real)
    requires 1 <= |b| == |a| <= Modulo && LineValid(l) && idx < Modulo
    ensures (r, y) == StepLine(b, a, gain, l, idx, x)
  {
    var bufIn := l.input[idx := x];
    var bufOut := l.output[idx := 0.0];
    bufOut := FirLoop(b, bufIn, bufOut, idx);
    assert bufOut == l.output[idx := bufOut[idx]];
    FeedbackIgnoresNewest(a, l.output, idx, bufOut[idx], |a|);
    bufOut := FeedbackLoop(a, bufOut, idx);
    y := bufOut[idx] * gain;
    bufOut := bufOut[idx := y];
    r := Line(bufIn, bufOut);
    var expected := StepLine(b, a, gain, l, idx, x);
    assert expected.1 == y;
    assert expected.0.input == bufIn;
    assert expected.0.output == bufOut;
  }

  // ---------------------------------------------------------------------
  // Blocks
  // ---------------------------------------------------------------------

  /**
   * One channel through successive samples, starting from ring index start:
   * the channel's final rings and its outputs.
   */
  function RunLine(b: seq<real>, a: seq<real>, gain: real, l: Line, start: nat, xs: seq<real>): (r: (Line, seq<real>))
    requires 1 <= |b| == |a| <= Modulo && LineValid(l) && start < Modulo
    ensures LineValid(r.0) && |r.1| == |xs|
    ensures gain == 0.0 ==> forall i :: 0 <= i < |xs| ==> r.1[i] == 0.0
    decreases |xs|
  {
    if |xs| == 0 then (l, [])
    else
      var n := |xs| - 1;
      var r := RunLine(b, a, gain, l, start, xs[..n]);
      var s := StepLine(b, a, gain, r.0, Advance(start, n + 1), xs[n]);
      (s.0, r.1 + [s.1])
  }

  /**
   * Successive samples through the filter: the final filter and both output
   * sequences. The channels share only the index, so each runs on its own.
   */
  function Run(t: Filter, xsL: seq<real>, xsR: seq<real>): (r: (Filter, seq<real>, seq<real>))
    requires Valid(t) && |xsL| == |xsR|
    ensures Valid(r.0) && |r.1| == |r.2| == |xsL|
    ensures r.0.b == t.b && r.0.a == t.a && r.0.gain == t.gain
    ensures r.0.index == Advance(t.index, |xsL|)
    ensures t.gain == 0.0 ==> forall i :: 0 <= i < |xsL| ==> r.1[i] == 0.0 && r.2[i] == 0.0
  {
    var left := RunLine(t.b, t.a, t.gain, t.left, t.index, xsL);
    var right := RunLine(t.b, t.a, t.gain, t.right, t.index, xsR);
    (t.(index := Advance(t.index, |xsL|), left := left.0, right := right.0), left.1, right.1)
  }

  /** The right channel's inputs: the block when present, zeros when it is absent. */
  function RightInputs(input: Frame, len: nat): (r: seq<real>)
    requires Fits(input, len)
    ensures |r| == len
    ensures input.right.None? ==> forall i :: 0 <= i < len ==> r[i] == 0.0
    ensures input.right.Some? ==> r == input.right.value[..len]
  {
    if input.right.Some? then input.right.value[..len] else Zeros(len)
  }

  /**
   * Block `Process`: len samples through the filter. The left output is
   * always written; the right output is written whenever that buffer is
   * present, even when the right input is absent.
   */
  function Process(t: Filter, input: Frame, output: Frame, len: nat): (r: (Filter, Frame))
    requires Valid(t) && Fits(input, len) && Fits(output, len)
    ensures Valid(r.0) && SameShape(r.1, output)
    ensures r.0.b == t.b && r.0.a == t.a && r.0.gain == t.gain
    ensures r.0.index == Advance(t.index, len)
    ensures r.1.left[len..] == output.left[len..]
    ensures output.right.Some? ==> r.1.right.value[len..] == output.right.value[len..]
    ensures t.gain == 0.0 ==> forall i :: 0 <= i < len ==> r.1.left[i] == 0.0
    ensures t.gain == 0.0 && output.right.Some? ==> forall i :: 0 <= i < len ==> r.1.right.value[i] == 0.0
  {
    var (t1, ysL, ysR) := Run(t, input.left[..len], RightInputs(input, len));
    var right := if output.right.Some? then Some(ysR + output.right.value[len..]) else None;
    (t1, Frame(ysL + output.left[len..], right))
  }

  /** An empty block changes neither the filter nor the outputs. */
  lemma ProcessEmpty(t: Filter, input: Frame, output: Frame)
    requires Valid(t) && Fits(input, 0) && Fits(output, 0)
    ensures Process(t, input, output, 0) == (t, output)
  {
    assert output.left[0..] == output.left;
    if output.right.Some? {
      assert output.right.value[0..] == output.right.value;
    }
  }

  /** The source's `Process(float)`: one left sample, no right buffers. */
  function ProcessSample(t: Filter, x: real): (r: (Filter, real))
    requires Valid(t)
    ensures Valid(r.0) && r.0.index == Next(t.index)
    ensures t.gain == 0.0 ==> r.1 == 0.0
  {
    var (t1, yl, _) := Step(t, x, 0.0);
    (t1, yl)
  }

  /** Running one more sample extends a block's outputs by that sample's outputs. */
  lemma RunSnoc(t: Filter, xsL: seq<real>, xsR: seq<real>, i: nat)
    requires Valid(t) && |xsL| == |xsR| && i < |xsL|
    ensures Run(t, xsL[..i + 1], xsR[..i + 1]) ==
      var r := Run(t, xsL[..i], xsR[..i]);
      var s := Step(r.0, xsL[i], xsR[i]);
      (s.0, r.1 + [s.1], r.2 + [s.2])
  {
    assert xsL[..i + 1][..i] == xsL[..i] && xsR[..i + 1][..i] == xsR[..i];
  }

  /**
   * The source's sample loop over a block: sample i of each channel is read,
   * run through the filter and emitted in turn; the outputs are the ones
   * `Process` stores.
   */
  method RunLoop(t: Filter, xsL: seq<real>, xsR: seq<real>) returns (t': Filter, ysL: seq<real>, ysR: seq<real>)
    requires Valid(t) && |xsL| == |xsR|
    ensures Run(t, xsL, xsR) == (t', ysL, ysR)
  {
    t', ysL, ysR := t, [], [];
    var i := 0;
    while i < |xsL|
      invariant 0 <= i <= |xsL|
      invariant Run(t, xsL[..i], xsR[..i]) == (t', ysL, ysR)
    {
      RunSnoc(t, xsL, xsR, i);
      var yl, yr;
      t', yl, yr := StepLoop(t', xsL[i], xsR[i]);
      ysL, ysR := ysL + [yl], ysR + [yr];
      i := i + 1;
    }
    assert xsL[..i] == xsL && xsR[..i] == xsR;
  }

  /** One pass of the source's loop body: advance the index, then each channel. */
  method StepLoop(t: Filter, xl: real, xr: real) returns (t': Filter, yl: real, yr: real)
    requires Valid(t)
    ensures t' == Step(t, xl, xr).0 && yl == Step(t, xl, xr).1 && yr == Step(t, xl, xr).2
  {
    var idx := Next(t.index);
    var left, right;
    left, yl := StepLineLoop(t.b, t.a, t.gain, t.left, idx, xl);
    right, yr := StepLineLoop(t.b, t.a, t.gain, t.right, idx, xr);
    t' := t.(index := idx, left := left, right := right);
    var expected := Step(t, xl, xr);
    assert expected.0 == t' && expected.1 == yl && expected.2 == yr;
  }

  /** `Process` built from a block run: the filter and the left channel. */
  lemma ProcessLeft(t: Filter, input: Frame, output: Frame, len: nat, ysL: seq<real>)
    requires Valid(t) && Fits(input, len) && Fits(output, len)
    requires Run(t, input.left[..len], RightInputs(input, len)).1 == ysL
    ensures Process(t, input, output, len).0 == Run(t, input.left[..len], RightInputs(input, len)).0
    ensures Process(t, input, output, len).1.left == ysL + output.left[len..]
  {
  }

  /** `Process` built from a block run: the right channel. */
  lemma ProcessRight(t: Filter, input: Frame, output: Frame, len: nat, ysR: seq<real>)
    requires Valid(t) && Fits(input, len) && Fits(output, len)
    requires Run(t, input.left[..len], RightInputs(input, len)).2 == ysR
    ensures output.right.Some? ==> Process(t, input, output, len).1.right == Some(ysR + output.right.value[len..])
    ensures output.right.None? ==> Process(t, input, output, len).1.right.None?
  {
  }

  /**
   * The source's sample loop with each channel's input and output pointing at
   * one buffer: sample i is read before it is overwritten.
   */
  method RunInPlace(t: Filter, left: seq<real>, right: seq<real>, len: nat) returns (t': Filter, left': seq<real>, right': seq<real>)
    requires Valid(t) && len <= |left| && len <= |right|
    ensures |left'| == |left| && |right'| == |right|
    ensures Run(t, left[..len], right[..len]) == (t', left'[..len], right'[..len])
    ensures left'[len..] == left[len..] && right'[len..] == right[len..]
  {
    ghost var xsL, xsR := left[..len], right[..len];
    t', left', right' := t, left, right;
    var i := 0;
    while i < len
      invariant 0 <= i <= len
      invariant |left'| == |left| && |right'| == |right|
      invariant Run(t, xsL[..i], xsR[..i]) == (t', left'[..i], right'[..i])
      invariant left'[i..] == left[i..] && right'[i..] == right[i..]
    {
      assert left'[i] == left[i] && right'[i] == right[i];
      RunSnoc(t, xsL, xsR, i);
      var yl, yr;
      t', yl, yr := StepLoop(t', left'[i], right'[i]);
      UpdateAt(left', i, yl);
      UpdateAt(right', i, yr);
      left' := left'[i := yl];
      right' := right'[i := yr];
      i := i + 1;
    }
    Whole(xsL);
    Whole(xsR);
  }

  /**
   * Block `Process` with the input and output frames being one frame, as the
   * distortion calls it; a missing right channel is run on zeros and dropped.
   */
  method ProcessInPlace(t: Filter, buf: Frame, len: nat) returns (t': Filter, out: Frame)
    requires Valid(t) && Fits(buf, len)
    ensures t' == Process(t, buf, buf, len).0 && out == Process(t, buf, buf, len).1
  {
    var right := if buf.right.Some? then buf.right.value else Zeros(len);
    var left', right';
    t', left', right' := RunInPlace(t, buf.left, right, len);
    assert right[..len] == RightInputs(buf, len);
    ProcessLeft(t, buf, buf, len, left'[..len]);
    ProcessRight(t, buf, buf, len, right'[..len]);
    assert left' == left'[..len] + buf.left[len..];
    if buf.right.Some? {
      assert right' == right'[..len] + buf.right.value[len..];
      out := Frame(left', Some(right'));
    } else {
      out := Frame(left', None);
    }
  }

  // ---------------------------------------------------------------------
  // The ring buffer implements the difference equation
  // ---------------------------------------------------------------------

  /** sum over j < n of c[j] * xs[k-j] over a plain signal. */
  function SignalFir(c: seq<real>, xs: seq<real>, k: nat, n: nat): real
    requires n <= |c| && n <= k + 1 && k < |xs|
  {
    if n == 0 then 0.0 else SignalFir(c, xs, k, n - 1) + c[n - 1] * xs[k - (n - 1)]
  }

  /** sum over 1 <= j < n of c[j] * ys[k-j] over a plain signal. */
  function SignalFeedback(c: seq<real>, ys: seq<real>, k: nat, n: nat): real
    requires n <= |c| && n <= k + 1 && k < |ys|
  {
    if n <= 1 then 0.0 else SignalFeedback(c, ys, k, n - 1) + c[n - 1] * ys[k - (n - 1)]
  }

  /** The difference equation's right-hand side at sample k. */
  function Recurrence(b: seq<real>, a: seq<real>, gain: real, xs: seq<real>, ys: seq<real>, k: nat): real
    requires |b| == |a| <= k + 1 && k < |xs| && k < |ys|
  {
    gain * (SignalFir(b, xs, k, |b|) - SignalFeedback(a, ys, k, |a|))
  }

  lemma {:induction false} FirMatches(c: seq<real>, buf: seq<real>, idx: nat, xs: seq<real>, k: nat, n: nat)
    requires |buf| == Modulo && idx < Modulo && n <= |c| && n <= Modulo && n <= k + 1 && k < |xs|
    requires forall j :: 0 <= j < n ==> Hist(buf, idx, j) == xs[k - j]
    ensures FirSum(c, buf, idx, n) == SignalFir(c, xs, k, n)
    decreases n
  {
    if n > 0 {
      FirMatches(c, buf, idx, xs, k, n - 1);
      assert Hist(buf, idx, n - 1) == xs[k - (n - 1)];
    }
  }

  lemma {:induction false} FeedbackMatches(c: seq<real>, buf: seq<real>, idx: nat, ys: seq<real>, k: nat, n: nat)
    requires |buf| == Modulo && idx < Modulo && n <= |c| && n <= Modulo && n <= k + 1 && k < |ys|
    requires forall j :: 1 <= j < n ==> Hist(buf, idx, j) == ys[k - j]
    ensures FeedbackSum(c, buf, idx, n) == SignalFeedback(c, ys, k, n)
    decreases n
  {
    if n > 1 {
      FeedbackMatches(c, buf, idx, ys, k, n - 1);
      assert Hist(buf, idx, n - 1) == ys[k - (n - 1)];
    }
  }

  /** The sums only read the n most recent samples. */
  lemma {:induction false} SignalSumsAgree(c: seq<real>, xs: seq<real>, zs: seq<real>, k: nat, n: nat)
    requires n <= |c| && n <= k + 1 && k < |xs| && k < |zs|
    requires forall i :: k + 1 - n <= i <= k ==> xs[i] == zs[i]
    ensures SignalFir(c, xs, k, n) == SignalFir(c, zs, k, n)
    ensures SignalFeedback(c, xs, k, n) == SignalFeedback(c, zs, k, n)
    decreases n
  {
    if n > 0 {
      SignalSumsAgree(c, xs, zs, k, n - 1);
      assert xs[k - (n - 1)] == zs[k - (n - 1)];
    }
  }

  /** Channel l's rings hold the last inputs xs and outputs ys, newest at idx. */
  ghost predicate Remembers(l: Line, idx: nat, xs: seq<real>, ys: seq<real>)
    requires LineValid(l) && idx < Modulo && |xs| == |ys|
  {
    forall j :: 0 <= j < |xs| && j < Modulo ==>
      Hist(l.input, idx, j) == xs[|xs| - 1 - j] && Hist(l.output, idx, j) == ys[|ys| - 1 - j]
  }

  /** One channel step pushes the new input and output onto the remembered history. */
  lemma StepLineRemembers(b: seq<real>, a: seq<real>, gain: real, l: Line, prev: nat, x: real, xs: seq<real>, ys: seq<real>)
    requires 1 <= |b| == |a| <= Modulo && LineValid(l) && prev < Modulo && |xs| == |ys|
    requires Remembers(l, prev, xs, ys)
    ensures Remembers(StepLine(b, a, gain, l, Next(prev), x).0, Next(prev), xs + [x], ys + [StepLine(b, a, gain, l, Next(prev), x).1])
  {
    var idx := Next(prev);
    var r := StepLine(b, a, gain, l, idx, x);
    var xs', ys' := xs + [x], ys + [r.1];
    forall j | 0 <= j < |xs'| && j < Modulo
      ensures Hist(r.0.input, idx, j) == xs'[|xs'| - 1 - j] && Hist(r.0.output, idx, j) == ys'[|ys'| - 1 - j]
    {
      if j > 0 {
        SlotShift(prev, j - 1);
        assert Hist(r.0.input, idx, j) == Hist(l.input, idx, j) == Hist(l.input, prev, j - 1);
        assert Hist(r.0.output, idx, j) == Hist(l.output, idx, j) == Hist(l.output, prev, j - 1);
        assert xs'[|xs'| - 1 - j] == xs[|xs| - 1 - (j - 1)];
        assert ys'[|ys'| - 1 - j] == ys[|ys| - 1 - (j - 1)];
      }
    }
  }

  /** After a block, a channel's rings hold that block's inputs and outputs. */
  lemma {:induction false} RunLineRemembers(b: seq<real>, a: seq<real>, gain: real, l: Line, start: nat, xs: seq<real>)
    requires 1 <= |b| == |a| <= Modulo && LineValid(l) && start < Modulo
    ensures Remembers(RunLine(b, a, gain, l, start, xs).0, Advance(start, |xs|), xs, RunLine(b, a, gain, l, start, xs).1)
    decreases |xs|
  {
    if |xs| > 0 {
      var n := |xs| - 1;
      RunLineRemembers(b, a, gain, l, start, xs[..n]);
      var r1 := RunLine(b, a, gain, l, start, xs[..n]);
      StepLineRemembers(b, a, gain, r1.0, Advance(start, n), xs[n], xs[..n], r1.1);
      assert xs[..n] + [xs[n]] == xs;
    }
  }

  /** The first m outputs of a block are the outputs of its first m samples. */
  lemma {:induction false} RunLinePrefix(b: seq<real>, a: seq<real>, gain: real, l: Line, start: nat, xs: seq<real>, m: nat)
    requires 1 <= |b| == |a| <= Modulo && LineValid(l) && start < Modulo && m <= |xs|
    ensures RunLine(b, a, gain, l, start, xs[..m]).1 == RunLine(b, a, gain, l, start, xs).1[..m]
    decreases |xs|
  {
    if m < |xs| {
      var n := |xs| - 1;
      RunLinePrefix(b, a, gain, l, start, xs[..n], m);
      assert xs[..n][..m] == xs[..m];
      var ys1 := RunLine(b, a, gain, l, start, xs[..n]).1;
      var ys := RunLine(b, a, gain, l, start, xs).1;
      assert ys[..m] == ys1[..m];
    } else {
      assert xs[..m] == xs;
    }
  }

  /** A block's run is its prefix's run followed by one channel step. */
  lemma RunLineSnoc(b: seq<real>, a: seq<real>, gain: real, l: Line, start: nat, xs: seq<real>)
    requires 1 <= |b| == |a| <= Modulo && LineValid(l) && start < Modulo && |xs| > 0
    ensures var n := |xs| - 1;
      var r1 := RunLine(b, a, gain, l, start, xs[..n]);
      var s := StepLine(b, a, gain, r1.0, Next(Advance(start, n)), xs[n]);
      RunLine(b, a, gain, l, start, xs) == (s.0, r1.1 + [s.1])
  {
  }

  /** A step's output is the difference equation over the rings it leaves behind. */
  lemma StepLineOutput(b: seq<real>, a: seq<real>, gain: real, l: Line, idx: nat, x: real, line: Line, y: real)
    requires 1 <= |b| == |a| <= Modulo && LineValid(l) && idx < Modulo
    requires (line, y) == StepLine(b, a, gain, l, idx, x)
    ensures LineValid(line)
    ensures y == gain * (FirSum(b, line.input, idx, |b|) - FeedbackSum(a, line.output, idx, |a|))
  {
    var fir := FirSum(b, l.input[idx := x], idx, |b|);
    var feedback := FeedbackSum(a, l.output, idx, |a|);
    assert y == gain * (fir - feedback);
    assert line == Line(l.input[idx := x], l.output[idx := y]);
    FeedbackIgnoresNewest(a, l.output, idx, y, |a|);
  }

  /** The last output of a non-empty block is the difference equation over the rings the block leaves. */
  lemma RunLineLastOutput(b: seq<real>, a: seq<real>, gain: real, l: Line, start: nat, xs: seq<real>, r: (Line, seq<real>))
    requires 1 <= |b| == |a| <= Modulo && LineValid(l) && start < Modulo && |xs| > 0
    requires r == RunLine(b, a, gain, l, start, xs)
    ensures LineValid(r.0) && |r.1| == |xs|
    ensures r.1[|xs| - 1] == gain * (FirSum(b, r.0.input, Advance(start, |xs|), |b|) - FeedbackSum(a, r.0.output, Advance(start, |xs|), |a|))
  {
    var n := |xs| - 1;
    var r1 := RunLine(b, a, gain, l, start, xs[..n]);
    var idx := Advance(start, |xs|);
    assert idx == Next(Advance(start, n));
    RunLineSnoc(b, a, gain, l, start, xs);
    assert (r.0, r.1[n]) == StepLine(b, a, gain, r1.0, idx, xs[n]);
    StepLineOutput(b, a, gain, r1.0, idx, xs[n], r.0, r.1[n]);
  }

  /** The last output of a block at least T samples long, in terms of the block alone. */
  lemma RunLineLast(b: seq<real>, a: seq<real>, gain: real, l: Line, start: nat, xs: seq<real>)
    requires 1 <= |b| == |a| <= Modulo && LineValid(l) && start < Modulo && |xs| >= |b|
    ensures RunLine(b, a, gain, l, start, xs).1[|xs| - 1] ==
      Recurrence(b, a, gain, xs, RunLine(b, a, gain, l, start, xs).1, |xs| - 1)
  {
    var n := |xs| - 1;
    var r := RunLine(b, a, gain, l, start, xs);
    var idx := Advance(start, |xs|);
    RunLineLastOutput(b, a, gain, l, start, xs, r);
    RunLineRemembers(b, a, gain, l, start, xs);
    FirMatches(b, r.0.input, idx, xs, n, |b|);
    FeedbackMatches(a, r.0.output, idx, r.1, n, |a|);
    RecurrenceOfSums(b, a, gain, xs, r.1, n, FirSum(b, r.0.input, idx, |b|), FeedbackSum(a, r.0.output, idx, |a|));
  }

  /** Sums equal to the signal sums give the difference equation's value. */
  lemma RecurrenceOfSums(b: seq<real>, a: seq<real>, gain: real, xs: seq<real>, ys: seq<real>, k: nat, fir: real, feedback: real)
    requires |b| == |a| <= k + 1 && k < |xs| && k < |ys|
    requires fir == SignalFir(b, xs, k, |b|) && feedback == SignalFeedback(a, ys, k, |a|)
    ensures gain * (fir - feedback) == Recurrence(b, a, gain, xs, ys, k)
  {
    var d := SignalFir(b, xs, k, |b|) - SignalFeedback(a, ys, k, |a|);
    assert fir - feedback == d;
    assert Recurrence(b, a, gain, xs, ys, k) == gain * d;
  }

  /** The difference equation at sample k reads only samples up to k. */
  lemma RecurrenceOfPrefix(b: seq<real>, a: seq<real>, gain: real, xs: seq<real>, ys: seq<real>, k: nat)
    requires |b| == |a| <= k + 1 && k < |xs| && k < |ys|
    ensures Recurrence(b, a, gain, xs[..k + 1], ys[..k + 1], k) == Recurrence(b, a, gain, xs, ys, k)
  {
    SignalSumsAgree(b, xs[..k + 1], xs, k, |b|);
    SignalSumsAgree(a, ys[..k + 1], ys, k, |a|);
  }

  /** From the T-th sample of a block on, a channel's outputs satisfy the difference equation. */
  lemma RunLineRecurrence(b: seq<real>, a: seq<real>, gain: real, l: Line, start: nat, xs: seq<real>, k: nat)
    requires 1 <= |b| == |a| <= Modulo && LineValid(l) && start < Modulo && k < |xs| && k + 1 >= |b|
    ensures RunLine(b, a, gain, l, start, xs).1[k] == Recurrence(b, a, gain, xs, RunLine(b, a, gain, l, start, xs).1, k)
  {
    var ys := RunLine(b, a, gain, l, start, xs).1;
    var ps := RunLine(b, a, gain, l, start, xs[..k + 1]).1;
    RunLinePrefix(b, a, gain, l, start, xs, k + 1);
    RunLineLast(b, a, gain, l, start, xs[..k + 1]);
    RecurrenceOfPrefix(b, a, gain, xs, ys, k);
    assert ps[k] == ys[k];
  }

  /**
   * From the T-th sample of a block on, every output of both channels
   * satisfies the filter's difference equation
   * y[k] = gain * (sum over j < T of b[j]*x[k-j] - sum over 1 <= j < T of a[j]*y[k-j]).
   */
  lemma RunRecurrence(t: Filter, xsL: seq<real>, xsR: seq<real>, k: nat)
    requires Valid(t) && |xsL| == |xsR| && k < |xsL| && k + 1 >= |t.b|
    ensures Run(t, xsL, xsR).1[k] == Recurrence(t.b, t.a, t.gain, xsL, Run(t, xsL, xsR).1, k)
    ensures Run(t, xsL, xsR).2[k] == Recurrence(t.b, t.a, t.gain, xsR, Run(t, xsL, xsR).2, k)
  {
    RunLineRecurrence(t.b, t.a, t.gain, t.left, t.index, xsL, k);
    RunLineRecurrence(t.b, t.a, t.gain, t.right, t.index, xsR, k);
  }
}
