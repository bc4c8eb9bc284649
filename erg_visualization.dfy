/**
 * The ERG visualization panel: the still-processing placeholder, the
 * amplitude classifier, the signal-quality colour and percentage, and the
 * clinical texts derived from them.
 */
module ErgVisualization {
  import opened Wrappers
  import opened Thresholds
  import Text
  import ErgProcess

  datatype AmplitudeStatus = Normal | Reduced | Elevated
  datatype Wave = AWave | BWave

  function NormalLow(w: Wave): real {
    if w == AWave then 50.0 else 200.0
  }

  function NormalHigh(w: Wave): real {
    if w == AWave then 150.0 else 500.0
  }

  /** Both ends of the normal band are inclusive; below it is Reduced, above it Elevated. */
  function AmplitudeStatusOf(amplitude: real, w: Wave): (s: AmplitudeStatus)
    ensures s == Normal <==> NormalLow(w) <= amplitude <= NormalHigh(w)
    ensures s == Reduced <==> amplitude < NormalLow(w)
    ensures s == Elevated <==> amplitude > NormalHigh(w)
  {
    if NormalLow(w) <= amplitude && amplitude <= NormalHigh(w) then Normal
    else if amplitude < NormalLow(w) then Reduced
    else Elevated
  }

  /** Every amplitude the ERG processing step generates is classified Normal. */
  lemma GeneratedAmplitudesAreNormal(d: ErgProcess.ErgDraws)
    requires ErgProcess.ValidDraws(d)
    ensures AmplitudeStatusOf(ErgProcess.ExtractFeatures(d).aWaveAmplitude, AWave) == Normal
    ensures AmplitudeStatusOf(ErgProcess.ExtractFeatures(d).bWaveAmplitude, BWave) == Normal
  {
  }

  function QualityColour(score: real): (c: Colour)
    ensures c == Green <==> BandOf(score) == High
    ensures c == Yellow <==> BandOf(score) == Medium
    ensures c == Red <==> BandOf(score) == Low
  {
    if score >= 0.8 then Green
    else if score >= 0.6 then Yellow
    else Red
  }

  /** `q || 0`: a missing or zero signal quality counts as 0. */
  function QualityOrZero(q: Option<real>): (v: real)
    ensures q.None? ==> v == 0.0
    ensures q.Some? ==> v == q.value
  {
    if q.Some? && q.value != 0.0 then q.value else 0.0
  }

  /** The displayed percentage: the rounded score times 100, or 0 when the score is falsy. */
  function Percent(q: Option<real>): (p: int)
    ensures q.None? ==> p == 0
    ensures q.Some? ==> q.value * 100.0 - 0.5 < p as real <= q.value * 100.0 + 0.5
  {
    if q.Some? && q.value != 0.0 then Text.Round(q.value * 100.0) else 0
  }

  function PhotoreceptorText(s: AmplitudeStatus): (t: string)
    ensures t == "Normal photoreceptor response detected" <==> s == Normal
  {
    if s == Normal then "Normal photoreceptor response detected"
    else "Potential photoreceptor dysfunction indicated"
  }

  function BipolarText(s: AmplitudeStatus): (t: string)
    ensures t == "Normal bipolar cell response detected" <==> s == Normal
  {
    if s == Normal then "Normal bipolar cell response detected"
    else "Potential bipolar cell dysfunction indicated"
  }

  /** The cone-function line follows the oscillatory-potentials flag. */
  function ConeText(oscillatory: bool): (t: string)
    ensures t == "Oscillatory potentials suggest normal cone function" <==> oscillatory
  {
    if oscillatory then "Oscillatory potentials suggest normal cone function"
    else "Reduced oscillatory potentials may indicate cone dysfunction"
  }

  /** The signal-integrity line, given whether the quality is in the high band. */
  function IntegrityText(reliable: bool): (t: string)
    ensures t == "High signal quality supports reliable color vision assessment" <==> reliable
  {
    if reliable then "High signal quality supports reliable color vision assessment"
    else "Signal quality may affect color vision analysis accuracy"
  }

  /** The recording the panel shows. */
  datatype ErgFile = ErgFile(id: string, filename: string, signalQuality: Option<real>,
                             features: Option<ErgProcess.ErgFeatures>)

  /**
   * What the component decides for a recording: the placeholder, or the
   * quality percentage and colour, the baseline percentage, both amplitude
   * statuses, whether the cone and signal-integrity lines read as normal,
 * and whether the "Artifacts Detected" badge shows.
   * The wording of each line is the text function above applied to the
   * matching status or flag.
   */
  datatype Panel =
    | StillProcessing
    | Analysis(qualityPercent: int, qualityColour: Colour, baselinePercent: int,
               aStatus: AmplitudeStatus, bStatus: AmplitudeStatus,
               oscillatory: bool, reliable: bool, artifacts: bool)

  /** What the component renders for a recording. */
  function Render(file: ErgFile): (p: Panel)
    ensures p == StillProcessing <==> file.features.None?
    ensures p.Analysis? ==> p.aStatus == AmplitudeStatusOf(file.features.value.aWaveAmplitude, AWave)
    ensures p.Analysis? ==> p.bStatus == AmplitudeStatusOf(file.features.value.bWaveAmplitude, BWave)
    ensures p.Analysis? ==> p.oscillatory == file.features.value.oscillatoryPotentials
    ensures p.Analysis? ==> p.artifacts == file.features.value.artifactDetection
    ensures p.Analysis? ==> (p.reliable <==> BandOf(QualityOrZero(file.signalQuality)) == High)
    ensures p.Analysis? && file.signalQuality.None? ==> p.qualityPercent == 0 && p.qualityColour == Red && !p.reliable
    ensures p.Analysis? && file.signalQuality.Some? ==>
              p.qualityColour == QualityColour(file.signalQuality.value)
    ensures p.Analysis? && file.signalQuality.Some? ==>
              file.signalQuality.value * 100.0 - 0.5 < p.qualityPercent as real <= file.signalQuality.value * 100.0 + 0.5
    ensures p.Analysis? ==>
              var b := file.features.value.baselineStability * 100.0;
              b - 0.5 < p.baselinePercent as real <= b + 0.5
  {
    if file.features.None? then StillProcessing
    else
      var f := file.features.value;
      var quality := QualityOrZero(file.signalQuality);
      Analysis(
        Percent(file.signalQuality),
        QualityColour(quality),
        Percent(Some(f.baselineStability)),
        AmplitudeStatusOf(f.aWaveAmplitude, AWave),
        AmplitudeStatusOf(f.bWaveAmplitude, BWave),
        f.oscillatoryPotentials,
        quality >= 0.8,
        f.artifactDetection)
  }

  /**
   * A recording finished by the processing step renders as fully normal
   * retinal function, with its quality in the yellow or green band.
   */
  lemma ProcessedRecordingReadsNormal(id: string, filename: string, d: ErgProcess.ErgDraws)
    requires ErgProcess.ValidDraws(d)
    ensures var p := Render(ErgFile(id, filename, Some(ErgProcess.SignalQuality(d.quality)),
                                    Some(ErgProcess.ExtractFeatures(d))));
            && p.Analysis?
            && p.aStatus == Normal && p.bStatus == Normal
            && p.qualityColour != Red
  {
    GeneratedAmplitudesAreNormal(d);
  }
}
