/**
 * The state shared by the first-order filter stages `Lowpass1` and
 * `Highpass1`: a cutoff, a sample rate and a `Transfer<2>` filter, with the
 * same setters and the same "recompute only on a real change" rule.
 */
module FirstOrder {
  import opened Utils
  import Transfer

  /** The sample rate a stage assumes before `Init` or `SetSampleRate`. */
  const DefaultSampleRate: real := 44100.0

  datatype Stage = Stage(freq: real, sampleRate: real, tf: Transfer.Filter)

  /** Two coefficients on each side. */
  predicate Valid(s: Stage)
  {
    Transfer.Valid(s.tf) && |s.tf.b| == 2
  }

  /** A constructed stage: 0 Hz at 44100 Hz over a fresh filter. */
  function Default(): (r: Stage)
    ensures Valid(r)
    ensures r.freq == 0.0 && r.sampleRate == DefaultSampleRate
    ensures r.tf.gain == 0.0 && r.tf.index == 0
  {
    Stage(0.0, DefaultSampleRate, Transfer.Fresh(2))
  }

  /** `Init`: stores the rate and clears the filter; the cutoff is kept. */
  function Init(s: Stage, sampleRate: real): (r: Stage)
    requires Valid(s)
    ensures Valid(r)
    ensures r.sampleRate == sampleRate && r.freq == s.freq
    ensures forall j :: 0 <= j < 2 ==> r.tf.b[j] == 0.0 && r.tf.a[j] == 0.0
    ensures forall k :: 0 <= k < Transfer.Modulo ==> r.tf.left.input[k] == 0.0 && r.tf.left.output[k] == 0.0
    ensures forall k :: 0 <= k < Transfer.Modulo ==> r.tf.right.input[k] == 0.0 && r.tf.right.output[k] == 0.0
  {
    s.(sampleRate := sampleRate, tf := Transfer.Init(s.tf))
  }

  /** `SetSampleRate`: stores the rate and nothing else; the coefficients stay as they are. */
  function SetSampleRate(s: Stage, sampleRate: real): (r: Stage)
    ensures r.sampleRate == sampleRate
    ensures r.freq == s.freq && r.tf == s.tf
  {
    s.(sampleRate := sampleRate)
  }

  /**
   * The first half of `SetFreq`: the new cutoff is always stored, and the
   * flag says whether the coefficients must be recomputed.
   */
  function StoreFreq(s: Stage, freq: real): (r: (Stage, bool))
    ensures r.0.freq == freq && r.0.sampleRate == s.sampleRate && r.0.tf == s.tf
    ensures r.1 <==> NotNearlyEqual(s.freq, freq)
    ensures s.freq == freq ==> !r.1
  {
    (s.(freq := freq), NotNearlyEqual(s.freq, freq))
  }
}
