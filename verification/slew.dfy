/**
 * `Slew`: a one-pole smoother of control values with a half-life. Until
 * `Init` it passes its input straight through.
 */
module Slew {
  import opened Libm
  import DSP

  datatype Slew = Slew(htime: real, sampleRate: real, c1: real, c2: real, state: real)

  /** As constructed: c1 = 1, c2 = 0, state 0 (and, by choice, the half-life and rate 0). */
  function Fresh(): (s: Slew)
    ensures s.c1 == 1.0 && s.c2 == 0.0 && s.state == 0.0
  {
    Slew(0.0, 0.0, 1.0, 0.0, 0.0)
  }

  /** `Update`: c2 = 0.5^(1 / (rate * half-life)), c1 = 1 - c2. */
  function Update(m: Math, s: Slew): (r: Slew)
    requires s.sampleRate != 0.0 && s.htime != 0.0
    ensures r.c1 + r.c2 == 1.0
    ensures Libm.Valid(m) ==> r.c2 > 0.0 && r.c1 < 1.0
    ensures r.htime == s.htime && r.sampleRate == s.sampleRate && r.state == s.state
  {
    var c2 := m.pow(0.5, 1.0 / s.sampleRate / s.htime);
    s.(c2 := c2, c1 := 1.0 - c2)
  }

  /** `Init`: store the rate and the half-life, then `Update`. */
  function Init(m: Math, s: Slew, sampleRate: real, htime: real): (r: Slew)
    requires sampleRate != 0.0 && htime != 0.0
    ensures r == Update(m, s.(sampleRate := sampleRate, htime := htime))
    ensures r.c1 + r.c2 == 1.0 && r.state == s.state
  {
    Update(m, s.(sampleRate := sampleRate, htime := htime))
  }

  /** `Reset`: only the state is cleared. */
  function Reset(s: Slew): (r: Slew)
    ensures r.state == 0.0 && r == s.(state := 0.0)
  {
    s.(state := 0.0)
  }

  /** `Process`: the weighted sum of the input and the state becomes the new state. */
  function Process(s: Slew, input: real): (r: (Slew, real))
    ensures r.0 == s.(state := r.1)
    ensures s.c1 + s.c2 == 1.0 ==> r.1 - s.state == s.c1 * (input - s.state)
  {
    var state := s.c1 * input + s.c2 * s.state;
    (s.(state := state), state)
  }

  /** Before `Init` the smoother is transparent. */
  lemma FreshPassesThrough(input: real)
    ensures Process(Fresh(), input).1 == input
  {
  }

  /** With weights summing to 1 and c2 in [0, 1] the state moves toward the input without passing it; equal values are fixed. */
  lemma ProcessBetween(s: Slew, input: real)
    requires s.c1 + s.c2 == 1.0 && 0.0 <= s.c2 <= 1.0
    ensures s.state <= input ==> s.state <= Process(s, input).1 <= input
    ensures input <= s.state ==> input <= Process(s, input).1 <= s.state
    ensures input == s.state ==> Process(s, input).0 == s
  {
    var r := Process(s, input).1;
    assert r - s.state == s.c1 * (input - s.state);
    assert r - input == s.c2 * (s.state - input);
    if s.state <= input {
      DSP.NonNegProduct(s.c1, input - s.state);
      DSP.NonNegProduct(s.c2, input - s.state);
    } else {
      DSP.NonNegProduct(s.c1, s.state - input);
      DSP.NonNegProduct(s.c2, s.state - input);
    }
  }
}
