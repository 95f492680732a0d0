/**
 * `Expander`: turns the envelope level (in dB) into a gain change (in dB).
 * Two soft-knee expansion curves bound how far the output level may follow
 * changes of the input level; the gain never falls below the reduction.
 */
module Expander {
  import opened DSP

  /** The knee half-width of both curves, and the lower curve's threshold offset, in dB. */
  const Knee: real := 4.0
  const LowerOffset: real := 4.0
  /** The running levels of a fresh expander. */
  const StartDb: real := -150.0

  datatype Expander = Expander(
    prevInDb: real, outputDb: real,
    reductionDb: real, upperSlope: real, lowerSlope: real, thresholdDb: real)

  /** `Update`: store the settings; the lower curve is twice as steep. The running levels are kept. */
  function Update(e: Expander, thresholdDb: real, reductionDb: real, slope: real): (r: Expander)
    ensures r.thresholdDb == thresholdDb && r.reductionDb == reductionDb
    ensures r.upperSlope == slope && r.lowerSlope == 2.0 * slope
    ensures r.prevInDb == e.prevInDb && r.outputDb == e.outputDb
  {
    e.(thresholdDb := thresholdDb, reductionDb := reductionDb, upperSlope := slope, lowerSlope := slope * 2.0)
  }

  /** The constructor: both running levels at -150 dB, threshold -20, reduction -100, slope 2. */
  function New(): (e: Expander)
    ensures e.prevInDb == StartDb && e.outputDb == StartDb
    ensures e.thresholdDb == -20.0 && e.reductionDb == -100.0 && e.upperSlope == 2.0 && e.lowerSlope == 4.0
  {
    Update(Expander(StartDb, StartDb, 0.0, 0.0, 0.0, 0.0), -20.0, -100.0, 2.0)
  }

  /**
   * The knee segment: the point on the line from the knee's lower end toward
   * the compressed curve. It meets the identity at threshold - knee and the
   * compressed line at threshold + knee, so the curve is continuous.
   */
  function KneeValue(x: real, threshold: real, ratio: real, knee: real): (r: real)
    requires ratio != 0.0 && knee > 0.0
    ensures x == threshold - knee ==> r == threshold - knee
    ensures x == threshold + knee ==> r == threshold + knee / ratio
  {
    assert (threshold + knee - (threshold - knee)) / (2.0 * knee) == 1.0;
    var kneeLow := threshold - knee;
    var position := (x - kneeLow) / (2.0 * knee);
    var kDiff := knee * position;
    var xa := kneeLow + kDiff;
    var yb := threshold + kDiff / ratio;
    var slope := (yb - xa) / knee;
    xa + slope * position * knee
  }

  /** The compression curve: identity below the knee, 1/ratio above it, the knee segment in between. */
  function Curve(x: real, threshold: real, ratio: real, knee: real): (r: real)
    requires ratio != 0.0
    ensures x <= threshold - knee ==> r == x
    ensures x >= threshold + knee && x > threshold - knee ==> r == threshold + (x - threshold) / ratio
  {
    if x <= threshold - knee then x
    else if x >= threshold + knee then threshold + (x - threshold) / ratio
    else KneeValue(x, threshold, ratio, knee)
  }

  /**
   * `Compress`: the curve, and with `expand` the same curve scaled by the
   * ratio about the threshold, so that it has slope 1 above the knee and
   * slope `ratio` below it.
   */
  function Compress(x: real, threshold: real, ratio: real, knee: real, expand: bool): (r: real)
    requires ratio != 0.0
    ensures !expand ==> r == Curve(x, threshold, ratio, knee)
    ensures expand ==> r == Curve(x, threshold, ratio, knee) * ratio - (threshold * ratio - threshold)
  {
    var output := Curve(x, threshold, ratio, knee);
    if expand then output * ratio - (threshold * ratio - threshold) else output
  }

  /** Expansion: below the knee the level is pushed away from the threshold by the ratio; above it, it passes unchanged. */
  lemma ExpandShape(x: real, threshold: real, ratio: real, knee: real)
    requires ratio != 0.0
    ensures x <= threshold - knee ==> Compress(x, threshold, ratio, knee, true) == threshold + (x - threshold) * ratio
    ensures x >= threshold + knee && knee > 0.0 ==> Compress(x, threshold, ratio, knee, true) == x
  {
    if x >= threshold + knee && knee > 0.0 {
      var c := Curve(x, threshold, ratio, knee);
      assert c == threshold + (x - threshold) / ratio;
      assert c * ratio == threshold * ratio + (x - threshold);
    }
  }

  /**
   * The upper bound: the expansion curve at the threshold, with the upper
   * slope: the identity from 4 dB above the threshold, and a fall of
   * `upperSlope` dB per dB from 4 dB below it.
   */
  function UpperDb(e: Expander, dbVal: real): (r: real)
    requires e.upperSlope != 0.0
    ensures dbVal <= e.thresholdDb - Knee ==> r == e.thresholdDb + (dbVal - e.thresholdDb) * e.upperSlope
    ensures dbVal >= e.thresholdDb + Knee ==> r == dbVal
  {
    ExpandShape(dbVal, e.thresholdDb, e.upperSlope, Knee);
    Compress(dbVal, e.thresholdDb, e.upperSlope, Knee, true)
  }

  /** The lower bound: the same shape about a threshold 4 dB higher, with the lower slope. */
  function LowerDb(e: Expander, dbVal: real): (r: real)
    requires e.lowerSlope != 0.0
    ensures var t := e.thresholdDb + LowerOffset;
      dbVal <= t - Knee ==> r == t + (dbVal - t) * e.lowerSlope
    ensures dbVal >= e.thresholdDb + LowerOffset + Knee ==> r == dbVal
  {
    ExpandShape(dbVal, e.thresholdDb + LowerOffset, e.lowerSlope, Knee);
    Compress(dbVal, e.thresholdDb + LowerOffset, e.lowerSlope, Knee, true)
  }

  /**
   * `Expand`: the output level follows the input level's change, held
   * inside the two curves (the lower one wins if they cross); returns the
   * gain change, never below the reduction.
   */
  function Expand(e: Expander, dbVal: real): (r: (Expander, real))
    requires e.upperSlope != 0.0 && e.lowerSlope != 0.0
    ensures r.0 == e.(prevInDb := dbVal, outputDb := r.0.outputDb)
    ensures r.1 == FMax(r.0.outputDb - dbVal, e.reductionDb)
    ensures r.1 >= e.reductionDb
    ensures var desired := e.outputDb + (dbVal - e.prevInDb);
      && (desired < LowerDb(e, dbVal) ==> r.0.outputDb == LowerDb(e, dbVal))
      && (desired >= LowerDb(e, dbVal) ==> r.0.outputDb == FMin(desired, UpperDb(e, dbVal)))
  {
    var upper := UpperDb(e, dbVal);
    var lower := LowerDb(e, dbVal);
    var desired := e.outputDb + (dbVal - e.prevInDb);
    var out := if desired < lower then lower else if desired > upper then upper else desired;
    var gainDiff := out - dbVal;
    (e.(outputDb := out, prevInDb := dbVal), if gainDiff < e.reductionDb then e.reductionDb else gainDiff)
  }

  /** Between the curves the output level moves exactly as much as the input level. */
  lemma ExpandTracks(e: Expander, dbVal: real)
    requires e.upperSlope != 0.0 && e.lowerSlope != 0.0
    requires LowerDb(e, dbVal) <= e.outputDb + (dbVal - e.prevInDb) <= UpperDb(e, dbVal)
    ensures Expand(e, dbVal).0.outputDb - e.outputDb == dbVal - e.prevInDb
  {
  }

  /** When the curves do not cross, the output level lies between them. */
  lemma ExpandBounded(e: Expander, dbVal: real)
    requires e.upperSlope != 0.0 && e.lowerSlope != 0.0
    requires LowerDb(e, dbVal) <= UpperDb(e, dbVal)
    ensures LowerDb(e, dbVal) <= Expand(e, dbVal).0.outputDb <= UpperDb(e, dbVal)
  {
  }
}
