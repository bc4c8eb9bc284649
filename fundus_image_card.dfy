/**
 * The fundus image card: the status icon, the quality badge and the two
 * feature rows.
 */
module FundusImageCard {
  import opened Wrappers
  import opened Thresholds
  import Text
  import opened Lifecycle
  import FundusProcess
  import Draws

  datatype Icon = CheckCircle | Spinner | AlertCircle | Clock

  /** Completed, processing and failed have their own icons; anything else shows the clock. */
  function StatusIcon(s: Status): (icon: Icon)
    ensures icon == CheckCircle <==> s == Completed
    ensures icon == Spinner <==> s == Processing
    ensures icon == AlertCircle <==> s == Failed
    ensures icon == Clock <==> s == Pending
  {
    match s
    case Completed => CheckCircle
    case Processing => Spinner
    case Failed => AlertCircle
    case Pending => Clock
  }

  datatype Grade = Excellent | Good | Poor
  datatype QualityBadge = QualityBadge(grade: Grade, percentage: int)

  /** No badge for a missing or zero score; otherwise the grade band and the rounded percentage. */
  function QualityBadgeOf(score: Option<real>): (b: Option<QualityBadge>)
    ensures b.None? <==> score.None? || score.value == 0.0
    ensures b.Some? ==> (b.value.grade == Excellent <==> BandOf(score.value) == High)
    ensures b.Some? ==> (b.value.grade == Good <==> BandOf(score.value) == Medium)
    ensures b.Some? ==> (b.value.grade == Poor <==> BandOf(score.value) == Low)
    ensures b.Some? ==> score.value * 100.0 - 0.5 < b.value.percentage as real <= score.value * 100.0 + 0.5
  {
    if score.None? || score.value == 0.0 then None
    else
      var s := score.value;
      var percentage := Text.Round(s * 100.0);
      if s >= 0.8 then Some(QualityBadge(Excellent, percentage))
      else if s >= 0.6 then Some(QualityBadge(Good, percentage))
      else Some(QualityBadge(Poor, percentage))
  }

  /** A score written by the processing step always gets a badge, and never "Poor". */
  lemma ProcessedImageNeverPoor(r: real)
    requires Draws.IsDraw(r)
    ensures QualityBadgeOf(Some(FundusProcess.QualityScore(r))).Some?
    ensures QualityBadgeOf(Some(FundusProcess.QualityScore(r))).value.grade != Poor
  {
  }

  datatype FeatureRows = FeatureRows(opticDisc: string, macula: string)

  function DetectionText(detected: bool): (t: string)
    ensures t == "Detected" <==> detected
  {
    if detected then "Detected" else "Not Found"
  }

  /** The two rows appear only when features are present. */
  function FeatureRowsOf(features: Option<FundusProcess.FundusFeatures>): (rows: Option<FeatureRows>)
    ensures rows.Some? <==> features.Some?
    ensures rows.Some? ==> (rows.value.opticDisc == "Detected" <==> features.value.opticDiscDetected)
    ensures rows.Some? ==> (rows.value.macula == "Detected" <==> features.value.maculaDetected)
  {
    if features.None? then None
    else Some(FeatureRows(DetectionText(features.value.opticDiscDetected),
                          DetectionText(features.value.maculaDetected)))
  }
}
