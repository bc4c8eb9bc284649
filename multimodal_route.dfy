/**
 * POST /api/analysis/multimodal: guards, the insert of a processing analysis
 * row, and the deferred fusion step that scores it and picks a diagnosis.
 */
module MultimodalRoute {
  import Wrappers
  import opened Lifecycle
  import opened Draws
  import opened Http
  import FundusProcess
  import ErgProcess

  type FundusRow = UploadRow<FundusProcess.FundusFeatures>
  type ErgRow = UploadRow<ErgProcess.ErgFeatures>

  datatype Diagnosis = Normal | Protanopia | Deuteranopia | Tritanopia | Protanomaly | Deuteranomaly {
    function Name(): string {
      match this
      case Normal => "Normal"
      case Protanopia => "Protanopia"
      case Deuteranopia => "Deuteranopia"
      case Tritanopia => "Tritanopia"
      case Protanomaly => "Protanomaly"
      case Deuteranomaly => "Deuteranomaly"
    }
  }

  datatype Severity = None | Mild | Moderate | Severe {
    function Name(): string {
      match this
      case None => "None"
      case Mild => "Mild"
      case Moderate => "Moderate"
      case Severe => "Severe"
    }
  }

  const Types: seq<Diagnosis> := [Normal, Protanopia, Deuteranopia, Tritanopia, Protanomaly, Deuteranomaly]
  const Weights: seq<real> := [0.4, 0.15, 0.15, 0.05, 0.125, 0.125]

  /** Sum of the first n weights. */
  function PrefixSum(n: nat): real
    requires n <= |Weights|
  {
    if n == 0 then 0.0 else PrefixSum(n - 1) + Weights[n - 1]
  }

  lemma WeightsSumToOne()
    ensures |Weights| == |Types| == 6
    ensures PrefixSum(6) == 1.0
  {
  }

  /** The first index k >= i whose cumulative weight reaches r, or 6 when there is none. */
  function FirstReached(r: real, i: nat): (k: nat)
    requires i <= 6
    ensures i <= k <= 6
    ensures k < 6 ==> r <= PrefixSum(k + 1)
    ensures forall j: nat :: i < j <= k ==> r > PrefixSum(j)
    decreases 6 - i
  {
    if i == 6 then 6 else if r <= PrefixSum(i + 1) then i else FirstReached(r, i + 1)
  }

  /** The diagnosis the selection loop settles on for the draw r. */
  function SelectedType(r: real): Diagnosis {
    var k := FirstReached(r, 0);
    if k < 6 then Types[k] else Normal
  }

  /** The cumulative-weight loop of the route, with its early exit. */
  method SelectType(r: real) returns (selected: Diagnosis)
    ensures selected == SelectedType(r)
  {
    selected := Normal;
    var cumulative := 0.0;
    var i := 0;
    while i < |Types|
      invariant 0 <= i <= |Types|
      invariant cumulative == PrefixSum(i)
      invariant FirstReached(r, 0) == FirstReached(r, i)
      invariant selected == Normal
    {
      cumulative := cumulative + Weights[i];
      if r <= cumulative {
        selected := Types[i];
        break;
      }
      i := i + 1;
    }
  }

  /**
   * For a draw in [0,1) the selection never falls back to the initial
   * "Normal"; each type owns one interval of draws, of its weight's length.
   */
  lemma SelectionBands(r: real)
    requires IsDraw(r)
    ensures FirstReached(r, 0) < 6
    ensures SelectedType(r) == Normal <==> r <= 0.4
    ensures SelectedType(r) == Protanopia <==> 0.4 < r <= 0.55
    ensures SelectedType(r) == Deuteranopia <==> 0.55 < r <= 0.7
    ensures SelectedType(r) == Tritanopia <==> 0.7 < r <= 0.75
    ensures SelectedType(r) == Protanomaly <==> 0.75 < r <= 0.875
    ensures SelectedType(r) == Deuteranomaly <==> 0.875 < r
  {
    assert PrefixSum(1) == 0.4 && PrefixSum(2) == 0.55 && PrefixSum(3) == 0.7;
    assert PrefixSum(4) == 0.75 && PrefixSum(5) == 0.875 && PrefixSum(6) == 1.0;
  }

  function FundusConfidence(r: real): (c: real)
    requires IsDraw(r)
    ensures 0.7 <= c < 1.0
  {
    r * 0.3 + 0.7
  }

  function ErgConfidence(r: real): (c: real)
    requires IsDraw(r)
    ensures 0.6 <= c < 0.9
  {
    r * 0.3 + 0.6
  }

  function JitterFactor(r: real): (j: real)
    requires IsDraw(r)
    ensures 0.95 <= j < 1.05
  {
    r * 0.1 + 0.95
  }

  const FundusWeight: real := 0.6
  const ErgWeight: real := 0.4

  /** The fusion formula: weighted sum of the two confidences times the jitter; not clamped. */
  function Fuse(fundus: real, erg: real, jitter: real): real {
    (fundus * FundusWeight + erg * ErgWeight) * jitter
  }

  /** The seven draws of one fusion step, in the order the source takes them. */
  datatype FusionDraws = FusionDraws(fundus: real, erg: real, jitter: real, typeDraw: real,
                                     red: real, green: real, blue: real)

  predicate ValidDraws(d: FusionDraws) {
    IsDraw(d.fundus) && IsDraw(d.erg) && IsDraw(d.jitter) && IsDraw(d.typeDraw) &&
    IsDraw(d.red) && IsDraw(d.green) && IsDraw(d.blue)
  }

  function Combined(d: FusionDraws): real
    requires ValidDraws(d)
  {
    Fuse(FundusConfidence(d.fundus), ErgConfidence(d.erg), JitterFactor(d.jitter))
  }

  /** Combined confidence lies in [0.627, 1.008): above 0.6, and not always below 1. */
  lemma CombinedBounds(d: FusionDraws)
    requires ValidDraws(d)
    ensures 0.627 <= Combined(d) < 1.008
  {
    var w := FundusConfidence(d.fundus) * FundusWeight + ErgConfidence(d.erg) * ErgWeight;
    var j := JitterFactor(d.jitter);
    assert 0.66 <= w < 0.96;
    assert Combined(d) == w * j;
    assert w * j - 0.627 == (w - 0.66) * j + 0.66 * (j - 0.95);
    assert (w - 0.66) * j >= 0.0;
    assert 1.008 - w * j == (0.96 - w) * j + 0.96 * (1.05 - j);
    assert (0.96 - w) * j > 0.0;
  }

  /** Without a clamp, high draws give a combined confidence above 1. */
  lemma CombinedMayExceedOne()
    ensures var d := FusionDraws(0.99, 0.99, 0.99, 0.0, 0.0, 0.0, 0.0);
            ValidDraws(d) && Combined(d) > 1.0
  {
  }

  /** The worked example: 0.9 and 0.7 weighted 0.6 / 0.4 give 0.82 before jitter. */
  lemma FusionExample()
    ensures Fuse(0.9, 0.7, 1.0) == 0.82
  {
  }

  /** The severity rule: None exactly for Normal, otherwise by combined-confidence thresholds. */
  function SeverityOf(t: Diagnosis, combined: real): (s: Severity)
    ensures s == None <==> t == Normal
    ensures t != Normal ==> (s == Severe <==> combined > 0.8)
    ensures t != Normal ==> (s == Moderate <==> 0.6 < combined <= 0.8)
    ensures t != Normal ==> (s == Mild <==> combined <= 0.6)
  {
    if t == Normal then None
    else if combined > 0.8 then Severe
    else if combined > 0.6 then Moderate
    else Mild
  }

  /** Given the draw ranges, the "Mild" branch is unreachable. */
  lemma NeverMild(d: FusionDraws)
    requires ValidDraws(d)
    ensures SeverityOf(SelectedType(d.typeDraw), Combined(d)) != Mild
  {
    CombinedBounds(d);
  }

  datatype ColourDistribution = ColourDistribution(red: real, green: real, blue: real)
  datatype CnnFeatures = CnnFeatures(opticDiscAnalysis: bool, maculaAnalysis: bool, vesselAnalysis: real,
                                     colours: ColourDistribution)
  datatype MlpFeatures = MlpFeatures(aWaveAnalysis: real, bWaveAnalysis: real, coneResponse: bool,
                                     signalIntegrity: real)
  datatype FusionWeights = FusionWeights(fundusWeight: real, ergWeight: real, attentionScores: seq<real>)
  datatype ModelVersions = ModelVersions(cnn: string, mlp: string, fusion: string)
  datatype AnalysisDetails = AnalysisDetails(cnn: CnnFeatures, mlp: MlpFeatures, weights: FusionWeights,
                                             versions: ModelVersions)

  /** `x || d` on a numeric field: an absent field or 0 gives the default. */
  function OrDefault(x: Wrappers.Option<real>, d: real): (v: real)
    ensures x.Some? && x.value != 0.0 ==> v == x.value
    ensures x.None? || x.value == 0.0 ==> v == d
  {
    if x.Some? && x.value != 0.0 then x.value else d
  }

  function VesselClarity(f: Wrappers.Option<FundusProcess.FundusFeatures>): Wrappers.Option<real> {
    if f.Some? then Wrappers.Some(f.value.vesselClarity) else Wrappers.None
  }

  function AWave(f: Wrappers.Option<ErgProcess.ErgFeatures>): Wrappers.Option<real> {
    if f.Some? then Wrappers.Some(f.value.aWaveAmplitude) else Wrappers.None
  }

  function BWave(f: Wrappers.Option<ErgProcess.ErgFeatures>): Wrappers.Option<real> {
    if f.Some? then Wrappers.Some(f.value.bWaveAmplitude) else Wrappers.None
  }

  /** analysis_details, built from the two upstream rows read at request time. */
  function Details(fundus: FundusRow, erg: ErgRow, d: FusionDraws): (details: AnalysisDetails)
    requires ValidDraws(d)
    ensures details.weights.fundusWeight + details.weights.ergWeight == 1.0
    ensures fundus.features.None? ==>
              !details.cnn.opticDiscAnalysis && !details.cnn.maculaAnalysis && details.cnn.vesselAnalysis == 0.8
    ensures erg.features.None? ==>
              details.mlp.aWaveAnalysis == 100.0 && details.mlp.bWaveAnalysis == 300.0 && !details.mlp.coneResponse
    ensures erg.score.None? ==> details.mlp.signalIntegrity == 0.8
    ensures 0.6 <= details.cnn.colours.red < 1.0 && 0.6 <= details.cnn.colours.green < 1.0
    ensures 0.6 <= details.cnn.colours.blue < 1.0
  {
    var ff := fundus.features;
    var ef := erg.features;
    AnalysisDetails(
      CnnFeatures(
        ff.Some? && ff.value.opticDiscDetected,
        ff.Some? && ff.value.maculaDetected,
        OrDefault(VesselClarity(ff), 0.8),
        ColourDistribution(d.red * 0.4 + 0.6, d.green * 0.4 + 0.6, d.blue * 0.4 + 0.6)),
      MlpFeatures(
        OrDefault(AWave(ef), 100.0),
        OrDefault(BWave(ef), 300.0),
        ef.Some? && ef.value.oscillatoryPotentials,
        OrDefault(erg.score, 0.8)),
      FusionWeights(FundusWeight, ErgWeight, [0.8, 0.7, 0.9, 0.6]),
      ModelVersions("v2.1.0", "v1.8.0", "v1.3.0"))
  }

  /** A row of multimodal_analyses. */
  datatype AnalysisRow = AnalysisRow(
    id: string,
    fundusImageId: string,
    ergDataId: string,
    status: Status,
    fundusConfidence: Wrappers.Option<real>,
    ergConfidence: Wrappers.Option<real>,
    combinedConfidence: Wrappers.Option<real>,
    colorBlindnessType: Wrappers.Option<Diagnosis>,
    severityLevel: Wrappers.Option<Severity>,
    details: Wrappers.Option<AnalysisDetails>,
    completedAt: Wrappers.Option<Timestamp>)

  /**
   * A completed analysis carries every scoring field, its severity is None
   * exactly for a Normal diagnosis and is never Mild, and its combined
   * confidence lies in [0.627, 1.008).
   */
  predicate CompletedIsConsistent(row: AnalysisRow) {
    row.status == Completed ==>
      && row.fundusConfidence.Some? && row.ergConfidence.Some? && row.combinedConfidence.Some?
      && row.colorBlindnessType.Some? && row.severityLevel.Some? && row.details.Some? && row.completedAt.Some?
      && (row.severityLevel.value == None <==> row.colorBlindnessType.value == Normal)
      && row.severityLevel.value != Mild
      && 0.627 <= row.combinedConfidence.value < 1.008
  }

  /** The inserted row: the two ids and status processing, nothing scored. */
  function NewAnalysis(id: string, fundusId: string, ergId: string): (row: AnalysisRow)
    ensures row.status == Processing && CompletedIsConsistent(row)
  {
    AnalysisRow(id, fundusId, ergId, Processing, Wrappers.None, Wrappers.None, Wrappers.None,
                Wrappers.None, Wrappers.None, Wrappers.None, Wrappers.None)
  }

  /** The completion update: every scoring field and completed_at in one write. */
  function CompletedAnalysis(row: AnalysisRow, fundus: FundusRow, erg: ErgRow, d: FusionDraws, at: Timestamp)
    : (r: AnalysisRow)
    requires ValidDraws(d)
    ensures r.id == row.id && r.fundusImageId == row.fundusImageId && r.ergDataId == row.ergDataId
    ensures r.status == Completed && CompletedIsConsistent(r)
    ensures r.fundusConfidence == Wrappers.Some(FundusConfidence(d.fundus))
    ensures r.ergConfidence == Wrappers.Some(ErgConfidence(d.erg))
    ensures r.combinedConfidence == Wrappers.Some(Combined(d))
    ensures r.colorBlindnessType == Wrappers.Some(SelectedType(d.typeDraw))
    ensures r.severityLevel == Wrappers.Some(SeverityOf(SelectedType(d.typeDraw), Combined(d)))
    ensures r.details == Wrappers.Some(Details(fundus, erg, d)) && r.completedAt == Wrappers.Some(at)
  {
    var t := SelectedType(d.typeDraw);
    NeverMild(d);
    CombinedBounds(d);
    row.(status := Completed,
         fundusConfidence := Wrappers.Some(FundusConfidence(d.fundus)),
         ergConfidence := Wrappers.Some(ErgConfidence(d.erg)),
         combinedConfidence := Wrappers.Some(Combined(d)),
         colorBlindnessType := Wrappers.Some(t),
         severityLevel := Wrappers.Some(SeverityOf(t, Combined(d))),
         details := Wrappers.Some(Details(fundus, erg, d)),
         completedAt := Wrappers.Some(at))
  }

  /** The table after the fusion step for analysis `id`. */
  function FinalizedRows(rows: map<string, AnalysisRow>, id: string, fundus: FundusRow, erg: ErgRow,
                         outcome: Outcome<FusionDraws>): (r: map<string, AnalysisRow>)
    requires outcome.Succeeded? ==> ValidDraws(outcome.draws)
    ensures r.Keys == rows.Keys
    ensures forall k :: k in rows && k != id ==> r[k] == rows[k]
    ensures id in rows && outcome.Succeeded? ==>
              r[id] == CompletedAnalysis(rows[id], fundus, erg, outcome.draws, outcome.now)
    ensures id in rows && outcome.Threw? ==> r[id] == rows[id].(status := Failed)
  {
    if id !in rows then rows
    else match outcome
      case Succeeded(d, now) => rows[id := CompletedAnalysis(rows[id], fundus, erg, d, now)]
      case Threw => rows[id := rows[id].(status := Failed)]
  }

  /** The request body: unparsable, or a JSON object with optional fundusId and ergId. */
  datatype Request = Malformed | Body(fundusId: Wrappers.Option<string>, ergId: Wrappers.Option<string>)

  /** The row a `.eq("id", id).eq("processing_status", "completed").single()` read returns. */
  function CompletedLookup<F>(rows: map<string, UploadRow<F>>, id: string): (r: Wrappers.Option<UploadRow<F>>)
    ensures r.Some? <==> id in rows && rows[id].status == Completed
    ensures r.Some? ==> r.value == rows[id]
  {
    if id in rows && rows[id].status == Completed then Wrappers.Some(rows[id]) else Wrappers.None
  }

  datatype Admission = Rejected(reply: Reply) | Admitted(fundusRow: FundusRow, ergRow: ErgRow)

  /** The guards, in source order: 401, unparsable body, 400 for a missing id, 400 for an unusable record. */
  function Admit(authenticated: bool, request: Request, fundus: map<string, FundusRow>, erg: map<string, ErgRow>)
    : (a: Admission)
    ensures !authenticated ==> a == Rejected(Unauthorized)
    ensures authenticated && request.Body? && !(Truthy(request.fundusId) && Truthy(request.ergId)) ==>
              a == Rejected(Error(400, "Both fundus ID and ERG ID required"))
    ensures a.Admitted? <==>
              && authenticated && request.Body? && Truthy(request.fundusId) && Truthy(request.ergId)
              && request.fundusId.value in fundus && fundus[request.fundusId.value].status == Completed
              && request.ergId.value in erg && erg[request.ergId.value].status == Completed
    ensures authenticated && request.Body? && Truthy(request.fundusId) && Truthy(request.ergId) && !a.Admitted? ==>
              a == Rejected(Error(400, "Selected data not found or not processed"))
    ensures a.Admitted? ==> a.fundusRow == fundus[request.fundusId.value] && a.ergRow == erg[request.ergId.value]
  {
    if !authenticated then Rejected(Unauthorized)
    else if request.Malformed? then Rejected(Error(500, "Analysis failed"))
    else if !Truthy(request.fundusId) || !Truthy(request.ergId) then
      Rejected(Error(400, "Both fundus ID and ERG ID required"))
    else
      var f := CompletedLookup(fundus, request.fundusId.value);
      var e := CompletedLookup(erg, request.ergId.value);
      if f.None? || e.None? then Rejected(Error(400, "Selected data not found or not processed"))
      else Admitted(f.value, e.value)
  }

  /** The multimodal_analyses table. */
  class AnalysisTable {
    var rows: map<string, AnalysisRow>

    ghost predicate Valid()
      reads this
    {
      forall id :: id in rows ==> rows[id].id == id && CompletedIsConsistent(rows[id])
    }

    constructor ()
      ensures Valid() && rows == map[]
    {
      rows := map[];
    }

    /**
     * The request handler. `newId` is the id the store generates for the
     * insert; the insert fails (and the route answers 500) when the store
     * reports an error or the id is taken. The reply goes out before the
     * fusion step runs.
     */
    method Post(fundus: UploadTable<FundusProcess.FundusFeatures>, erg: UploadTable<ErgProcess.ErgFeatures>,
                authenticated: bool, request: Request, newId: string, insertError: bool)
      returns (reply: Reply)
      requires Valid()
      modifies this
      ensures Valid()
      ensures var a := Admit(authenticated, request, fundus.rows, erg.rows);
              && (a.Rejected? ==> reply == a.reply && rows == old(rows))
              && (a.Admitted? && (insertError || newId in old(rows)) ==>
                    reply == Error(500, "Analysis failed") && rows == old(rows))
              && (a.Admitted? && !insertError && newId !in old(rows) ==>
                    && reply == Started(newId, "Multimodal analysis started")
                    && rows == old(rows)[newId := NewAnalysis(newId, request.fundusId.value, request.ergId.value)])
    {
      var a := Admit(authenticated, request, fundus.rows, erg.rows);
      if a.Rejected? {
        reply := a.reply;
      } else if insertError || newId in rows {
        reply := Error(500, "Analysis failed");
      } else {
        rows := rows[newId := NewAnalysis(newId, request.fundusId.value, request.ergId.value)];
        reply := Started(newId, "Multimodal analysis started");
      }
    }

    /**
     * The timer callback, with the fundus and ERG rows the request read for
     * this analysis's own ids: one completion write of all scoring fields,
     * or `failed` alone.
     */
    method Finalize(analysisId: string, fundus: FundusRow, erg: ErgRow, outcome: Outcome<FusionDraws>)
      requires Valid()
      requires analysisId in rows ==>
                 fundus.id == rows[analysisId].fundusImageId && erg.id == rows[analysisId].ergDataId
      requires outcome.Succeeded? ==> ValidDraws(outcome.draws)
      modifies this
      ensures Valid()
      ensures rows == FinalizedRows(old(rows), analysisId, fundus, erg, outcome)
    {
      match outcome
      case Succeeded(d, now) =>
        var fundusConfidence := FundusConfidence(d.fundus);
        var ergConfidence := ErgConfidence(d.erg);
        var combined := Fuse(fundusConfidence, ergConfidence, JitterFactor(d.jitter));
        var selected := SelectType(d.typeDraw);
        var severity := SeverityOf(selected, combined);
        var details := Details(fundus, erg, d);
        if analysisId in rows {
          var row := rows[analysisId].(
            status := Completed,
            fundusConfidence := Wrappers.Some(fundusConfidence),
            ergConfidence := Wrappers.Some(ergConfidence),
            combinedConfidence := Wrappers.Some(combined),
            colorBlindnessType := Wrappers.Some(selected),
            severityLevel := Wrappers.Some(severity),
            details := Wrappers.Some(details),
            completedAt := Wrappers.Some(now));
          assert row == CompletedAnalysis(rows[analysisId], fundus, erg, d, now);
          rows := rows[analysisId := row];
        }
      case Threw =>
        if analysisId in rows {
          rows := rows[analysisId := rows[analysisId].(status := Failed)];
        }
    }
  }
}
