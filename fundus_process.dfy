/**
 * POST /api/fundus/process: guards, the start write, and the deferred
 * finalize step that scores a fundus image and extracts its features.
 */
module FundusProcess {
  import opened Wrappers
  import opened Lifecycle
  import opened Draws
  import opened Http

  datatype FundusFeatures = FundusFeatures(
    opticDiscDetected: bool,
    maculaDetected: bool,
    vesselClarity: real,
    imageSharpness: real,
    illuminationQuality: real)

  /** The six draws of one finalize step, in the order the source takes them. */
  datatype FundusDraws = FundusDraws(quality: real, opticDisc: real, macula: real,
                                     vessel: real, sharpness: real, illumination: real)

  predicate ValidDraws(d: FundusDraws) {
    IsDraw(d.quality) && IsDraw(d.opticDisc) && IsDraw(d.macula) &&
    IsDraw(d.vessel) && IsDraw(d.sharpness) && IsDraw(d.illumination)
  }

  predicate FeaturesInRange(f: FundusFeatures) {
    && 0.5 <= f.vesselClarity < 1.0
    && 0.7 <= f.imageSharpness < 1.0
    && 0.6 <= f.illuminationQuality < 1.0
  }

  function QualityScore(r: real): (q: real)
    requires IsDraw(r)
    ensures 0.6 <= q < 1.0
  {
    r * 0.4 + 0.6
  }

  function ExtractFeatures(d: FundusDraws): (f: FundusFeatures)
    requires ValidDraws(d)
    ensures FeaturesInRange(f)
    ensures f.opticDiscDetected <==> d.opticDisc > 0.1
    ensures f.maculaDetected <==> d.macula > 0.15
  {
    FundusFeatures(
      d.opticDisc > 0.1,
      d.macula > 0.15,
      d.vessel * 0.5 + 0.5,
      d.sharpness * 0.3 + 0.7,
      d.illumination * 0.4 + 0.6)
  }

  /** The request body: unparsable, or a JSON object with an optional imageId. */
  datatype Request = Malformed | Body(imageId: Option<string>)

  /** The reply of the route; the 401 check comes before reading the body. */
  function PostReply(authenticated: bool, request: Request): (reply: Reply)
    ensures !authenticated ==> reply == Unauthorized
    ensures authenticated && request.Body? && !Truthy(request.imageId) ==> reply == Error(400, "Image ID required")
    ensures reply.Ok? <==> authenticated && request.Body? && Truthy(request.imageId)
    ensures reply.Ok? ==> reply.message == "Processing started"
  {
    if !authenticated then Unauthorized
    else if request.Malformed? then Error(500, "Processing failed")
    else if !Truthy(request.imageId) then Error(400, "Image ID required")
    else Ok("Processing started")
  }

  /** The table after the finalize step. */
  function FinishedRows(rows: map<string, UploadRow<FundusFeatures>>, id: string, outcome: Outcome<FundusDraws>)
    : (r: map<string, UploadRow<FundusFeatures>>)
    requires outcome.Succeeded? ==> ValidDraws(outcome.draws)
    ensures r.Keys == rows.Keys
    ensures forall k :: k in rows && k != id ==> r[k] == rows[k]
    ensures id in rows && outcome.Succeeded? ==>
              && r[id].status == Completed
              && r[id].score.Some? && 0.6 <= r[id].score.value < 1.0
              && r[id].features.Some? && FeaturesInRange(r[id].features.value)
              && r[id].processedAt == Some(outcome.now)
              && r[id].filename == rows[id].filename && r[id].fileUrl == rows[id].fileUrl
    ensures id in rows && outcome.Threw? ==> r[id] == rows[id].(status := Failed)
  {
    match outcome
    case Succeeded(d, now) => WithCompletion(rows, id, QualityScore(d.quality), ExtractFeatures(d), now)
    case Threw => WithStatus(rows, id, Failed)
  }

  /**
   * The request handler: on success the row is marked processing, whatever
   * its status was, and the reply is sent before the finalize step runs.
   */
  method Post(table: UploadTable<FundusFeatures>, authenticated: bool, request: Request) returns (reply: Reply)
    requires table.Valid()
    modifies table
    ensures table.Valid()
    ensures reply == PostReply(authenticated, request)
    ensures reply.Ok? ==> table.rows == WithStatus(old(table.rows), request.imageId.value, Processing)
    ensures !reply.Ok? ==> table.rows == old(table.rows)
  {
    reply := PostReply(authenticated, request);
    if reply.Ok? {
      table.SetStatus(request.imageId.value, Processing);
    }
  }

  /** The timer callback: one completion write, or a write of `failed` alone. */
  method Finish(table: UploadTable<FundusFeatures>, imageId: string, outcome: Outcome<FundusDraws>)
    requires table.Valid()
    requires outcome.Succeeded? ==> ValidDraws(outcome.draws)
    modifies table
    ensures table.Valid()
    ensures table.rows == FinishedRows(old(table.rows), imageId, outcome)
  {
    match outcome
    case Succeeded(d, now) =>
      var score := QualityScore(d.quality);
      var features := ExtractFeatures(d);
      table.Complete(imageId, score, features, now);
    case Threw =>
      table.SetStatus(imageId, Failed);
  }
}
