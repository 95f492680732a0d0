/**
 * `SlewLimiter`: limits how fast the gain (in dB) may rise and fall per
 * sample. The rates are derived from the time a 60 dB change should take.
 */
module SlewLimiter {

  datatype Limiter = Limiter(fs: real, slewUp: real, slewDown: real, output: real)

  /** A limiter as constructed: output 0 (and, by choice, the rate and the steps too). */
  function Fresh(): (l: Limiter)
    ensures l.output == 0.0
  {
    Limiter(0.0, 0.0, 0.0, 0.0)
  }

  /** `Init`: store the rate, steps of 1 dB; the output is kept. */
  function Init(l: Limiter, fs: real): (r: Limiter)
    ensures r.fs == fs && r.slewUp == 1.0 && r.slewDown == 1.0 && r.output == l.output
  {
    l.(fs := fs, slewUp := 1.0, slewDown := 1.0)
  }

  /** The per-sample step that covers 60 dB in the given time. */
  function Db60Step(ms: real, fs: real): (r: real)
    requires ms * fs != 0.0
    ensures r * (ms / 1000.0 * fs) == 60.0
    ensures ms * fs > 0.0 ==> r > 0.0
  {
    60.0 / (ms / 1000.0 * fs)
  }

  /** `UpdateDb60`: the up and down steps from the two times; the output is kept. */
  function UpdateDb60(l: Limiter, upMs: real, downMs: real): (r: Limiter)
    requires upMs * l.fs != 0.0 && downMs * l.fs != 0.0
    ensures r.fs == l.fs && r.output == l.output
    ensures r.slewUp * (upMs / 1000.0 * l.fs) == 60.0
    ensures r.slewDown * (downMs / 1000.0 * l.fs) == 60.0
  {
    l.(slewUp := Db60Step(upMs, l.fs), slewDown := Db60Step(downMs, l.fs))
  }

  /** `Process`: move toward the target by at most one step; returns the stored output. */
  function Process(l: Limiter, value: real): (r: (Limiter, real))
    ensures r.0 == l.(output := r.1)
    ensures value > l.output ==> r.1 <= l.output + l.slewUp
    ensures value <= l.output ==> r.1 >= l.output - l.slewDown
    ensures value > l.output && value <= l.output + l.slewUp ==> r.1 == value
    ensures value <= l.output && value >= l.output - l.slewDown ==> r.1 == value
    ensures value > l.output && value > l.output + l.slewUp ==> r.1 == l.output + l.slewUp
    ensures value <= l.output && value < l.output - l.slewDown ==> r.1 == l.output - l.slewDown
  {
    var out :=
      if value > l.output then (if value > l.output + l.slewUp then l.output + l.slewUp else value)
      else (if value < l.output - l.slewDown then l.output - l.slewDown else value);
    (l.(output := out), out)
  }

  /** With non-negative steps the output never overshoots: it lands between its old value and the target. */
  lemma NoOvershoot(l: Limiter, value: real)
    requires l.slewUp >= 0.0 && l.slewDown >= 0.0
    ensures value >= l.output ==> l.output <= Process(l, value).1 <= value
    ensures value <= l.output ==> value <= Process(l, value).1 <= l.output
  {
  }

  /** Once reached, a constant target is held. */
  lemma HoldsTarget(l: Limiter, value: real)
    requires l.output == value && l.slewDown >= 0.0
    ensures Process(l, value) == (l, value)
  {
  }

  /** A target is reached within k steps once it is within k up-steps. */
  lemma {:induction false} ReachesWithin(l: Limiter, value: real, k: nat)
    requires l.slewUp > 0.0 && l.slewDown >= 0.0 && l.output <= value <= l.output + (k as real) * l.slewUp
    ensures Repeat(l, value, k).output == value
    decreases k
  {
    if k > 0 {
      var next := Process(l, value).0;
      if next.output == value {
        StaysAt(next, value, k - 1);
      } else {
        assert next.output == l.output + l.slewUp;
        assert (k as real) * l.slewUp == ((k - 1) as real) * l.slewUp + l.slewUp;
        ReachesWithin(next, value, k - 1);
      }
    }
  }

  lemma {:induction false} StaysAt(l: Limiter, value: real, k: nat)
    requires l.output == value && l.slewDown >= 0.0
    ensures Repeat(l, value, k) == l
    decreases k
  {
    if k > 0 {
      HoldsTarget(l, value);
      StaysAt(l, value, k - 1);
    }
  }

  /** k steps toward one target. */
  function Repeat(l: Limiter, value: real, k: nat): (r: Limiter)
    ensures r.slewUp == l.slewUp && r.slewDown == l.slewDown
    decreases k
  {
    if k == 0 then l else Repeat(Process(l, value).0, value, k - 1)
  }
}
