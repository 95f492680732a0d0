/**
 * `Biquad`: the second-order section of the envelope follower's input
 * filter, with the seven cookbook responses.
 *
 * The coefficient formulas divide by the rate, by Q (or, for the shelves,
 * by the gain and the slope) and finally by a0. In floats a zero divisor
 * yields infinities and NaNs; here it yields coefficients `None`, and only a
 * filter with coefficients can process samples.
 */
module BiquadFilter {
  import opened Wrappers
  import opened Libm
  import opened Utils

  datatype Kind = LowPass | HighPass | BandPass | Notch | Peak | LowShelf | HighShelf

  datatype Coefs = Coefs(a0: real, a1: real, a2: real, b0: real, b1: real, b2: real)

  /** The last input, the one before, the last output and the two before it. */
  datatype History = History(x1: real, x2: real, y: real, y1: real, y2: real)

  datatype Biquad = Biquad(
    kind: Kind, samplerate: int, freq: real, q: real, slope: real, gain: real,
    coefs: Option<Coefs>, h: History)

  /** The floor of `SetGain` (-60 dB) and of `SetQ`. */
  const GainFloor: real := 0.001
  const QFloor: real := 0.001

  function Silent(): (h: History)
    ensures h.x1 == 0.0 && h.x2 == 0.0 && h.y == 0.0 && h.y1 == 0.0 && h.y2 == 0.0
  {
    History(0.0, 0.0, 0.0, 0.0, 0.0)
  }

  /** A filter as constructed: low-pass, every number 0. */
  function Fresh(): (b: Biquad)
    ensures b.kind == LowPass && b.samplerate == 0 && b.q == 0.0 && b.gain == 0.0 && b.h == Silent()
  {
    Biquad(LowPass, 0, 0.0, 0.0, 0.0, 0.0, Some(Coefs(0.0, 0.0, 0.0, 0.0, 0.0, 0.0)), Silent())
  }

  function SetFreq(b: Biquad, value: real): (r: Biquad)
    ensures r == b.(freq := value)
  {
    b.(freq := value)
  }

  function SetSlope(b: Biquad, value: real): (r: Biquad)
    ensures r == b.(slope := value)
  {
    b.(slope := value)
  }

  /** `SetGain`: values below -60 dB are raised to it; nothing else changes. */
  function SetGain(b: Biquad, value: real): (r: Biquad)
    ensures r.gain >= GainFloor
    ensures value >= GainFloor ==> r.gain == value
    ensures value < GainFloor ==> r.gain == GainFloor
    ensures r == b.(gain := r.gain)
  {
    b.(gain := if value < GainFloor then GainFloor else value)
  }

  function SetGainDb(m: Math, b: Biquad, value: real): (r: Biquad)
    ensures r == SetGain(b, DbToGain(m, value))
  {
    SetGain(b, DbToGain(m, value))
  }

  /** `SetQ`: values below 0.001 are raised to it; nothing else changes. */
  function SetQ(b: Biquad, value: real): (r: Biquad)
    ensures r.q >= QFloor
    ensures value >= QFloor ==> r.q == value
    ensures value < QFloor ==> r.q == QFloor
    ensures r == b.(q := r.q)
  {
    b.(q := if value < QFloor then QFloor else value)
  }

  predicate Shelf(k: Kind)
  {
    k == LowShelf || k == HighShelf
  }

  /** Every divisor of the coefficient formulas, except a0, is non-zero. */
  predicate Computable(b: Biquad)
  {
    b.samplerate != 0 &&
    (if Shelf(b.kind) then b.gain != 0.0 && b.slope != 0.0 else b.q != 0.0) &&
    (b.kind == Peak ==> b.gain != 0.0)
  }

  /** The cookbook coefficients before normalisation. */
  function Raw(m: Math, b: Biquad): (c: Coefs)
    requires Computable(b)
    ensures b.kind == LowPass ==> c.b0 == c.b2 && c.b1 == 2.0 * c.b0
    ensures b.kind == HighPass ==> c.b0 == c.b2 && c.b1 == -2.0 * c.b0
    ensures b.kind == BandPass ==> c.b1 == 0.0 && c.b2 == -c.b0
    ensures b.kind == Notch ==> c.b0 == 1.0 && c.b2 == 1.0 && c.b1 == c.a1
    ensures b.kind == Peak ==> c.b1 == c.a1
    ensures !Shelf(b.kind) ==> c.a0 + c.a2 == 2.0
  {
    var omega := 2.0 * Pi * b.freq / (b.samplerate as real);
    var s := m.sin(omega);
    var cs := m.cos(omega);
    var g := b.gain;
    var shelfAlpha := if Shelf(b.kind) then s / 2.0 * m.sqrt((g + 1.0 / g) * (1.0 / b.slope - 1.0) + 2.0) else 0.0;
    var alpha := if Shelf(b.kind) then shelfAlpha else s / (2.0 * b.q);
    var sg := if Shelf(b.kind) then m.sqrt(g) else 0.0;
    match b.kind
    case LowPass => Coefs(1.0 + alpha, -2.0 * cs, 1.0 - alpha, (1.0 - cs) / 2.0, 1.0 - cs, (1.0 - cs) / 2.0)
    case HighPass => Coefs(1.0 + alpha, -2.0 * cs, 1.0 - alpha, (1.0 + cs) / 2.0, -(1.0 + cs), (1.0 + cs) / 2.0)
    case BandPass => Coefs(1.0 + alpha, -2.0 * cs, 1.0 - alpha, alpha, 0.0, -alpha)
    case Notch => Coefs(1.0 + alpha, -2.0 * cs, 1.0 - alpha, 1.0, -2.0 * cs, 1.0)
    case Peak => Coefs(1.0 + alpha / g, -2.0 * cs, 1.0 - alpha / g, 1.0 + alpha * g, -2.0 * cs, 1.0 - alpha * g)
    case LowShelf =>
      Coefs((g + 1.0) + (g - 1.0) * cs + 2.0 * sg * alpha, -2.0 * ((g - 1.0) + (g + 1.0) * cs),
            (g + 1.0) + (g - 1.0) * cs - 2.0 * sg * alpha,
            g * ((g + 1.0) - (g - 1.0) * cs + 2.0 * sg * alpha), 2.0 * g * ((g - 1.0) - (g + 1.0) * cs),
            g * ((g + 1.0) - (g - 1.0) * cs - 2.0 * sg * alpha))
    case HighShelf =>
      Coefs((g + 1.0) - (g - 1.0) * cs + 2.0 * sg * alpha, 2.0 * ((g - 1.0) - (g + 1.0) * cs),
            (g + 1.0) - (g - 1.0) * cs - 2.0 * sg * alpha,
            g * ((g + 1.0) + (g - 1.0) * cs + 2.0 * sg * alpha), -2.0 * g * ((g - 1.0) + (g + 1.0) * cs),
            g * ((g + 1.0) + (g - 1.0) * cs - 2.0 * sg * alpha))
  }

  /** Five of the six coefficients divided by a0; a0 itself is kept as computed. */
  function Normalise(c: Coefs): (r: Coefs)
    requires c.a0 != 0.0
    ensures r.a0 == c.a0
    ensures r.b0 * c.a0 == c.b0 && r.b1 * c.a0 == c.b1 && r.b2 * c.a0 == c.b2
    ensures r.a1 * c.a0 == c.a1 && r.a2 * c.a0 == c.a2
  {
    var g := 1.0 / c.a0;
    Coefs(c.a0, c.a1 * g, c.a2 * g, c.b0 * g, c.b1 * g, c.b2 * g)
  }

  /** `Update`: recompute the coefficients from the settings; the history is kept. */
  function Update(m: Math, b: Biquad): (r: Biquad)
    ensures r == b.(coefs := r.coefs)
    ensures r.coefs.Some? <==> Computable(b) && Raw(m, b).a0 != 0.0
    ensures r.coefs.Some? ==> r.coefs.value == Normalise(Raw(m, b))
  {
    if Computable(b) && Raw(m, b).a0 != 0.0 then b.(coefs := Some(Normalise(Raw(m, b))))
    else b.(coefs := None)
  }

  /** Normalisation keeps the coefficient relations of the low-pass, high-pass and notch responses. */
  lemma UpdateShapes(m: Math, b: Biquad)
    requires Update(m, b).coefs.Some?
    ensures var c := Update(m, b).coefs.value;
      && (b.kind == LowPass ==> c.b0 == c.b2 && c.b1 == 2.0 * c.b0)
      && (b.kind == HighPass ==> c.b0 == c.b2 && c.b1 == -2.0 * c.b0)
      && (b.kind == Notch ==> c.b1 == c.a1)
  {
    var raw := Raw(m, b);
    NormaliseShapes(raw);
  }

  /** The relations between raw coefficients survive the division by a0. */
  lemma NormaliseShapes(raw: Coefs)
    requires raw.a0 != 0.0
    ensures var c := Normalise(raw);
      && (raw.b0 == raw.b2 ==> c.b0 == c.b2)
      && (raw.b1 == 2.0 * raw.b0 ==> c.b1 == 2.0 * c.b0)
      && (raw.b1 == -2.0 * raw.b0 ==> c.b1 == -2.0 * c.b0)
      && (raw.b1 == raw.a1 ==> c.b1 == c.a1)
  {
    var c := Normalise(raw);
    Unscale(raw.a0, c.b0, c.b2, raw.b0, raw.b2);
    Unscale(raw.a0, c.b1, c.a1, raw.b1, raw.a1);
    Unscale(raw.a0, c.b1, 2.0 * c.b0, raw.b1, 2.0 * raw.b0);
    Unscale(raw.a0, c.b1, -2.0 * c.b0, raw.b1, -2.0 * raw.b0);
  }

  /** Scaling by a non-zero factor is injective. */
  lemma Unscale(k: real, x: real, y: real, kx: real, ky: real)
    requires k != 0.0 && x * k == kx && y * k == ky
    ensures kx == ky <==> x == y
  {
    if kx == ky {
      assert (x - y) * k == 0.0;
    }
  }

  /** The response with q = 1 used by the envelope follower always has coefficients, at any non-zero rate. */
  lemma LowPassComputable(m: Math, b: Biquad)
    ensures Libm.Valid(m) && b.kind == LowPass && b.samplerate != 0 && b.q == 1.0 ==>
      Update(m, b).coefs.Some? && Update(m, b).coefs.value.a0 >= 0.5
  {
    if Libm.Valid(m) && b.samplerate != 0 {
      var omega := 2.0 * Pi * b.freq / (b.samplerate as real);
      assert -1.0 <= m.sin(omega) <= 1.0;
    }
  }

  /** `ClearBuffers`. */
  function ClearBuffers(b: Biquad): (r: Biquad)
    ensures r.h == Silent()
    ensures r == b.(h := Silent())
  {
    b.(h := Silent())
  }

  /** `SetSamplerate`: store the rate and recompute. */
  function SetSamplerate(m: Math, b: Biquad, value: int): (r: Biquad)
    ensures r.samplerate == value
    ensures r == Update(m, b.(samplerate := value))
  {
    Update(m, b.(samplerate := value))
  }

  /**
   * `Init`: the kind and rate (which recompute the coefficients from the
   * settings held so far), then 0 dB, a quarter of the rate, Q 0.5 and a
   * clear history. The last three are stored without recomputing.
   */
  function Init(m: Math, b: Biquad, kind: Kind, samplerate: int): (r: Biquad)
    ensures r.kind == kind && r.samplerate == samplerate
    ensures r.freq == samplerate as real / 4.0 && r.q == 0.5 && r.slope == b.slope
    ensures Libm.Valid(m) ==> r.gain == 1.0
    ensures r.h == Silent()
    ensures r.coefs == Update(m, b.(kind := kind, samplerate := samplerate)).coefs
  {
    var b1 := SetSamplerate(m, b.(kind := kind), samplerate);
    var b2 := SetGainDb(m, b1, 0.0);
    var b3 := SetFreq(b2, samplerate as real / 4.0);
    ClearBuffers(SetQ(b3, 0.5))
  }

  /**
   * On a filter as constructed, `Init` computes coefficients with Q still 0:
   * a division by zero for every non-shelf kind. A caller must `Update`
   * after `Init` before processing.
   */
  lemma InitNeedsUpdate(m: Math, kind: Kind, samplerate: int)
    requires !Shelf(kind)
    ensures Init(m, Fresh(), kind, samplerate).coefs.None?
  {
  }

  /** One sample through the direct form I recurrence; a0 is never read. */
  function Process(b: Biquad, x: real): (r: (Biquad, real))
    requires b.coefs.Some?
    ensures var c := b.coefs.value;
      r.1 == c.b0 * x + c.b1 * b.h.x1 + c.b2 * b.h.x2 - c.a1 * b.h.y1 - c.a2 * b.h.y2
    ensures r.0 == b.(h := History(x, b.h.x1, r.1, r.1, b.h.y1))
  {
    var c := b.coefs.value;
    var y := c.b0 * x + c.b1 * b.h.x1 + c.b2 * b.h.x2 - c.a1 * b.h.y1 - c.a2 * b.h.y2;
    (b.(h := History(x, b.h.x1, y, y, b.h.y1)), y)
  }

  /** The output does not depend on a0. */
  lemma ProcessIgnoresA0(b: Biquad, x: real, a0: real)
    requires b.coefs.Some?
    ensures Process(b.(coefs := Some(b.coefs.value.(a0 := a0))), x).1 == Process(b, x).1
  {
  }

  /** Silence in, silence out: a clear history with zero input stays clear. */
  lemma ProcessSilence(b: Biquad)
    requires b.coefs.Some? && b.h.x1 == 0.0 && b.h.x2 == 0.0 && b.h.y1 == 0.0 && b.h.y2 == 0.0
    ensures Process(b, 0.0).1 == 0.0
    ensures Process(b, 0.0).0.h == Silent()
  {
  }

  /** The reference for the block form: `xs` fed one sample at a time, collecting the outputs. */
  function Run(b: Biquad, xs: seq<real>): (r: (Biquad, seq<real>))
    requires b.coefs.Some?
    ensures |r.1| == |xs|
    ensures r.0.coefs == b.coefs && r.0.kind == b.kind
    decreases |xs|
  {
    if |xs| == 0 then (b, [])
    else
      var (c, ys) := Run(b, xs[..|xs| - 1]);
      var (d, y) := Process(c, xs[|xs| - 1]);
      (d, ys + [y])
  }

  /** Running two blocks in turn is running their concatenation. */
  lemma {:induction false} RunConcat(b: Biquad, xs: seq<real>, zs: seq<real>)
    requires b.coefs.Some?
    ensures Run(b, xs + zs) == (Run(Run(b, xs).0, zs).0, Run(b, xs).1 + Run(Run(b, xs).0, zs).1)
    decreases |zs|
  {
    if |zs| == 0 {
      assert xs + zs == xs;
      assert Run(Run(b, xs).0, zs) == (Run(b, xs).0, []);
      assert Run(b, xs).1 + [] == Run(b, xs).1;
    } else {
      var last := |zs| - 1;
      var front := zs[..last];
      assert (xs + zs)[..|xs + zs| - 1] == xs + front;
      assert (xs + zs)[|xs + zs| - 1] == zs[last];
      RunConcat(b, xs, front);
      var mid := Run(b, xs);
      var inner := Run(mid.0, front);
      var step := Process(inner.0, zs[last]);
      assert zs[..|zs| - 1] == front;
      assert Run(mid.0, zs) == (step.0, inner.1 + [step.1]);
      assert Run(b, xs + front) == (inner.0, mid.1 + inner.1);
      assert Run(b, xs + zs) == (step.0, (mid.1 + inner.1) + [step.1]);
      assert (mid.1 + inner.1) + [step.1] == mid.1 + (inner.1 + [step.1]);
    }
  }

  /** Block `Process`: the first len samples filtered in order, the rest of the output untouched. */
  method ProcessBlock(b: Biquad, input: seq<real>, output: seq<real>, len: nat) returns (r: Biquad, out: seq<real>)
    requires b.coefs.Some? && len <= |input| && len <= |output|
    ensures |out| == |output| && out[len..] == output[len..]
    ensures (r, out[..len]) == Run(b, input[..len])
  {
    r := b;
    out := output;
    var i := 0;
    while i < len
      invariant 0 <= i <= len
      invariant r.coefs == b.coefs
      invariant |out| == |output| && out[i..] == output[i..]
      invariant (r, out[..i]) == Run(b, input[..i])
    {
      var step := Process(r, input[i]);
      assert input[..i + 1][..i] == input[..i];
      assert input[..i + 1][i] == input[i];
      r := step.0;
      out := out[i := step.1];
      assert out[..i + 1] == out[..i] + [step.1];
      i := i + 1;
    }
  }
}
