/**
 * The analysis detail dialog: nothing for a null analysis; otherwise the
 * coloured confidences and severity, and the fundus and ERG rows when the
 * joined records exist.
 */
module AnalysisDetailModal {
  import opened Wrappers
  import opened Thresholds
  import Text
  import ResultsPage
  import MultimodalResults

  datatype FileRows = FileRows(filename: string, percentage: int)

  datatype DetailView = DetailView(
    colorBlindnessType: string,
    severityColour: Colour,
    combinedColour: Colour,
    combinedPercentage: int,
    fundusColour: Colour,
    fundusPercentage: int,
    fundusRows: Option<FileRows>,
    ergColour: Colour,
    ergPercentage: int,
    ergRows: Option<FileRows>)

  function RowsOf(info: Option<ResultsPage.FileInfo>): (rows: Option<FileRows>)
    ensures rows.Some? <==> info.Some?
    ensures rows.Some? ==> rows.value.filename == info.value.filename
    ensures rows.Some? ==>
              var x := info.value.score * 100.0;
              x - 0.5 < rows.value.percentage as real <= x + 0.5
  {
    if info.None? then None
    else Some(FileRows(info.value.filename, Text.Round(info.value.score * 100.0)))
  }

  /** What the dialog renders; the colours follow the same bands as the results view. */
  function Render(analysis: Option<ResultsPage.AnalysisResult>): (v: Option<DetailView>)
    ensures v.None? <==> analysis.None?
    ensures v.Some? ==> (v.value.fundusRows.Some? <==> analysis.value.fundusImage.Some?)
    ensures v.Some? ==> (v.value.ergRows.Some? <==> analysis.value.ergData.Some?)
    ensures v.Some? ==> v.value.colorBlindnessType == analysis.value.colorBlindnessType
    ensures v.Some? ==> (v.value.combinedColour == Green <==> analysis.value.combinedConfidence >= 0.8)
    ensures v.Some? ==> (v.value.combinedColour == Red <==> analysis.value.combinedConfidence < 0.6)
    ensures v.Some? ==> v.value.combinedColour == MultimodalResults.ConfidenceColour(analysis.value.combinedConfidence)
    ensures v.Some? ==> v.value.fundusColour == MultimodalResults.ConfidenceColour(analysis.value.fundusConfidence)
    ensures v.Some? ==> v.value.ergColour == MultimodalResults.ConfidenceColour(analysis.value.ergConfidence)
    ensures v.Some? ==> v.value.severityColour == MultimodalResults.SeverityColour(analysis.value.severityLevel)
    ensures v.Some? ==>
              var c := analysis.value.combinedConfidence * 100.0;
              c - 0.5 < v.value.combinedPercentage as real <= c + 0.5
    ensures v.Some? ==>
              var f := analysis.value.fundusConfidence * 100.0;
              f - 0.5 < v.value.fundusPercentage as real <= f + 0.5
    ensures v.Some? ==>
              var e := analysis.value.ergConfidence * 100.0;
              e - 0.5 < v.value.ergPercentage as real <= e + 0.5
    ensures v.Some? ==> (v.value.severityColour == Gray <==>
                           Text.ToLower(analysis.value.severityLevel) !in ["none", "mild", "moderate", "severe"])
  {
    if analysis.None? then None
    else
      var a := analysis.value;
      Some(DetailView(
        a.colorBlindnessType,
        MultimodalResults.SeverityColour(a.severityLevel),
        MultimodalResults.ConfidenceColour(a.combinedConfidence),
        Text.Round(a.combinedConfidence * 100.0),
        MultimodalResults.ConfidenceColour(a.fundusConfidence),
        Text.Round(a.fundusConfidence * 100.0),
        RowsOf(a.fundusImage),
        MultimodalResults.ConfidenceColour(a.ergConfidence),
        Text.Round(a.ergConfidence * 100.0),
        RowsOf(a.ergData)))
  }
}
