/**
 * `Lp1` and `Hp1`: the trapezoidal one-pole filters of the envelope
 * follower. Both classes carry the same state (the integrator `z` and the
 * coefficient g / (1 + g)) and the same update; the high-pass returns what
 * the low-pass removes.
 */
module OnePole {
  import opened Libm
  import DSP

  /** The integrator state and the coefficient. Both start at 0. */
  datatype Pole = Pole(z: real, g2: real)

  function Initial(): (p: Pole)
    ensures p.z == 0.0 && p.g2 == 0.0
  {
    Pole(0.0, 0.0)
  }

  /** `SetFc`: g = fcRel * pi, coefficient g / (1 + g), state kept. */
  function SetFc(p: Pole, fcRel: real): (r: Pole)
    requires fcRel * Pi + 1.0 != 0.0
    ensures r.z == p.z
    ensures fcRel >= 0.0 ==> 0.0 <= r.g2 < 1.0
    ensures fcRel == 0.0 ==> r.g2 == 0.0
    ensures r.g2 * (1.0 + fcRel * Pi) == fcRel * Pi
  {
    var g := fcRel * Pi;
    p.(g2 := g / (1.0 + g))
  }

  /** The shared state update, returning the new state and the low-pass value. */
  function Tick(p: Pole, x: real): (r: (Pole, real))
    ensures r.0.g2 == p.g2
    ensures r.0.z == 2.0 * r.1 - p.z
    ensures r.1 - p.z == p.g2 * (x - p.z)
  {
    var v := (x - p.z) * p.g2;
    var y := v + p.z;
    (p.(z := y + v), y)
  }

  /**
   * `Lp1::Process`: the output moves the fraction g2 of the way from the
   * state to the input, and the new state lies as far beyond the output.
   */
  function Lowpass(p: Pole, x: real): (r: (Pole, real))
    ensures r.0.g2 == p.g2
    ensures r.1 - p.z == p.g2 * (x - p.z)
    ensures r.0.z - r.1 == r.1 - p.z
  {
    Tick(p, x)
  }

  /** With a coefficient in [0, 1] the low-pass output lies between the state and the input. */
  lemma LowpassBetween(p: Pole, x: real)
    requires 0.0 <= p.g2 <= 1.0
    ensures p.z <= x ==> p.z <= Lowpass(p, x).1 <= x
    ensures x <= p.z ==> x <= Lowpass(p, x).1 <= p.z
  {
    Between(p.z, x, p.g2, Lowpass(p, x).1);
  }

  /** `Hp1::Process`: the same state update; it returns the input minus the low-pass value. */
  function Highpass(p: Pole, x: real): (r: (Pole, real))
    ensures r.0 == Tick(p, x).0
    ensures r.1 == x - Tick(p, x).1
  {
    var t := Tick(p, x);
    (t.0, x - t.1)
  }

  /** z + g (x - z) lies between z and x for g in [0, 1]. */
  lemma Between(z: real, x: real, g: real, y: real)
    requires 0.0 <= g <= 1.0 && y - z == g * (x - z)
    ensures z <= x ==> z <= y <= x
    ensures x <= z ==> x <= y <= z
  {
    DSP.FractionBetween(g, x - z, y - z);
  }

  /** The two filters split the input: high-pass plus low-pass is the input, with one common next state. */
  lemma Complementary(p: Pole, x: real)
    ensures Lowpass(p, x).1 + Highpass(p, x).1 == x
    ensures Lowpass(p, x).0 == Highpass(p, x).0
  {
  }

  /** An input equal to the state is a fixed point: the low-pass passes it, the high-pass gives 0. */
  lemma SteadyState(p: Pole, x: real)
    requires x == p.z
    ensures Lowpass(p, x) == (p, x)
    ensures Highpass(p, x) == (p, 0.0)
  {
    var t := Tick(p, x);
    var d := x - p.z;
    assert d == 0.0;
    assert p.g2 * d == 0.0;
    assert t.1 == p.z && t.0.z == p.z;
  }

  /** Silence in, silence out: a zero state with zero input stays zero. */
  lemma Silence(p: Pole)
    requires p.z == 0.0
    ensures Lowpass(p, 0.0) == (p, 0.0) && Highpass(p, 0.0) == (p, 0.0)
  {
    SteadyState(p, 0.0);
  }
}
