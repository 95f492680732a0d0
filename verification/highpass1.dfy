/**
 * `Highpass1`: the first-order high-pass stage. Its coefficient derivation
 * is not part of this model, so `Update` is a parameter; what is modelled
 * is when it runs.
 */
module Highpass1 {
  import opened Utils
  import FirstOrder

  /**
   * `SetFreq`: the cutoff is always stored; `update` runs on the stored
   * stage exactly when the new value is not nearly equal to the previous
   * one. The flag reports whether it ran.
   */
  function SetFreq(update: FirstOrder.Stage -> FirstOrder.Stage, s: FirstOrder.Stage, freq: real): (r: (FirstOrder.Stage, bool))
    ensures r.1 <==> NotNearlyEqual(s.freq, freq)
    ensures r.1 ==> r.0 == update(s.(freq := freq))
    ensures !r.1 ==> r.0 == s.(freq := freq)
    ensures s.freq == freq ==> !r.1 && r.0 == s
  {
    var (stored, dirty) := FirstOrder.StoreFreq(s, freq);
    (if dirty then update(stored) else stored, dirty)
  }

  /**
   * With an `Update` that leaves the cutoff as stored, `GetFreq` reads back
   * the value just set, and setting it again does not recompute.
   */
  lemma SetFreqThenGetFreq(update: FirstOrder.Stage -> FirstOrder.Stage, s: FirstOrder.Stage, freq: real)
    requires update(s.(freq := freq)).freq == freq
    ensures SetFreq(update, s, freq).0.freq == freq
    ensures !SetFreq(update, SetFreq(update, s, freq).0, freq).1
    ensures SetFreq(update, SetFreq(update, s, freq).0, freq).0 == SetFreq(update, s, freq).0
  {
  }
}
