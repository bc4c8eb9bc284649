/**
 * POST /api/erg/process: guards, the start write, and the deferred finalize
 * step that scores an ERG recording and extracts its waveform features.
 */
module ErgProcess {
  import opened Wrappers
  import opened Lifecycle
  import opened Draws
  import opened Http

  datatype ErgFeatures = ErgFeatures(
    aWaveAmplitude: real,        // microvolts
    bWaveAmplitude: real,        // microvolts
    aWaveLatency: real,          // ms
    bWaveLatency: real,          // ms
    implicitTime: real,          // ms
    oscillatoryPotentials: bool,
    signalToNoiseRatio: real,    // dB
    baselineStability: real,
    artifactDetection: bool)

  /** The ten draws of one finalize step, in the order the source takes them. */
  datatype ErgDraws = ErgDraws(quality: real, aWave: real, bWave: real, aLatency: real, bLatency: real,
                               implicitTime: real, oscillatory: real, snr: real, baseline: real, artifact: real)

  predicate ValidDraws(d: ErgDraws) {
    IsDraw(d.quality) && IsDraw(d.aWave) && IsDraw(d.bWave) && IsDraw(d.aLatency) && IsDraw(d.bLatency) &&
    IsDraw(d.implicitTime) && IsDraw(d.oscillatory) && IsDraw(d.snr) && IsDraw(d.baseline) && IsDraw(d.artifact)
  }

  predicate FeaturesInRange(f: ErgFeatures) {
    && 50.0 <= f.aWaveAmplitude < 150.0
    && 200.0 <= f.bWaveAmplitude < 500.0
    && 12.0 <= f.aWaveLatency < 17.0
    && 45.0 <= f.bWaveLatency < 55.0
    && 40.0 <= f.implicitTime < 60.0
    && 10.0 <= f.signalToNoiseRatio < 30.0
    && 0.7 <= f.baselineStability < 1.0
  }

  function SignalQuality(r: real): (q: real)
    requires IsDraw(r)
    ensures 0.6 <= q < 1.0
  {
    r * 0.4 + 0.6
  }

  function ExtractFeatures(d: ErgDraws): (f: ErgFeatures)
    requires ValidDraws(d)
    ensures FeaturesInRange(f)
    ensures f.oscillatoryPotentials <==> d.oscillatory > 0.3
    ensures f.artifactDetection <==> d.artifact > 0.8
  {
    ErgFeatures(
      d.aWave * 100.0 + 50.0,
      d.bWave * 300.0 + 200.0,
      d.aLatency * 5.0 + 12.0,
      d.bLatency * 10.0 + 45.0,
      d.implicitTime * 20.0 + 40.0,
      d.oscillatory > 0.3,
      d.snr * 20.0 + 10.0,
      d.baseline * 0.3 + 0.7,
      d.artifact > 0.8)
  }

  /** The request body: unparsable, or a JSON object with an optional ergId. */
  datatype Request = Malformed | Body(ergId: Option<string>)

  /** The reply of the route; the 401 check comes before reading the body. */
  function PostReply(authenticated: bool, request: Request): (reply: Reply)
    ensures !authenticated ==> reply == Unauthorized
    ensures authenticated && request.Body? && !Truthy(request.ergId) ==> reply == Error(400, "ERG ID required")
    ensures reply.Ok? <==> authenticated && request.Body? && Truthy(request.ergId)
    ensures reply.Ok? ==> reply.message == "ERG processing started"
  {
    if !authenticated then Unauthorized
    else if request.Malformed? then Error(500, "Processing failed")
    else if !Truthy(request.ergId) then Error(400, "ERG ID required")
    else Ok("ERG processing started")
  }

  /** The table after the finalize step. */
  function FinishedRows(rows: map<string, UploadRow<ErgFeatures>>, id: string, outcome: Outcome<ErgDraws>)
    : (r: map<string, UploadRow<ErgFeatures>>)
    requires outcome.Succeeded? ==> ValidDraws(outcome.draws)
    ensures r.Keys == rows.Keys
    ensures forall k :: k in rows && k != id ==> r[k] == rows[k]
    ensures id in rows && outcome.Succeeded? ==>
              && r[id].status == Completed
              && r[id].score.Some? && 0.6 <= r[id].score.value < 1.0
              && r[id].features.Some? && FeaturesInRange(r[id].features.value)
              && r[id].processedAt == Some(outcome.now)
              && r[id].filename == rows[id].filename && r[id].fileUrl == rows[id].fileUrl
    ensures id in rows && outcome.Threw? ==> r[id] == rows[id].(status := Failed)
  {
    match outcome
    case Succeeded(d, now) => WithCompletion(rows, id, SignalQuality(d.quality), ExtractFeatures(d), now)
    case Threw => WithStatus(rows, id, Failed)
  }

  /** The request handler: marks the row processing unconditionally and replies at once. */
  method Post(table: UploadTable<ErgFeatures>, authenticated: bool, request: Request) returns (reply: Reply)
    requires table.Valid()
    modifies table
    ensures table.Valid()
    ensures reply == PostReply(authenticated, request)
    ensures reply.Ok? ==> table.rows == WithStatus(old(table.rows), request.ergId.value, Processing)
    ensures !reply.Ok? ==> table.rows == old(table.rows)
  {
    reply := PostReply(authenticated, request);
    if reply.Ok? {
      table.SetStatus(request.ergId.value, Processing);
    }
  }

  /** The timer callback: one completion write, or a write of `failed` alone. */
  method Finish(table: UploadTable<ErgFeatures>, ergId: string, outcome: Outcome<ErgDraws>)
    requires table.Valid()
    requires outcome.Succeeded? ==> ValidDraws(outcome.draws)
    modifies table
    ensures table.Valid()
    ensures table.rows == FinishedRows(old(table.rows), ergId, outcome)
  {
    match outcome
    case Succeeded(d, now) =>
      var quality := SignalQuality(d.quality);
      var features := ExtractFeatures(d);
      table.Complete(ergId, quality, features, now);
    case Threw =>
      table.SetStatus(ergId, Failed);
  }
}
