/**
 * The processing lifecycle of the fundus_images and erg_data tables:
 * pending -> processing -> completed | failed. The table is an in-memory map
 * from row id to row; each write is one `update(...).eq("id", id)`, which
 * changes nothing when no row has that id.
 */
module Lifecycle {
  import opened Wrappers

  /** An instant, in milliseconds; its text form is left out. */
  type Timestamp = int

  datatype Status = Pending | Processing | Completed | Failed {
    function Name(): string {
      match this
      case Pending => "pending"
      case Processing => "processing"
      case Completed => "completed"
      case Failed => "failed"
    }
  }

  /**
   * A row of fundus_images (score = quality_score) or erg_data
   * (score = signal_quality); F is the shape of extracted_features.
   */
  datatype UploadRow<F> = UploadRow(
    id: string,
    filename: string,
    fileUrl: string,
    status: Status,
    score: Option<real>,
    features: Option<F>,
    processedAt: Option<Timestamp>)

  /** A completed row carries its score, its features and its processing time. */
  predicate CompletedIsWhole<F>(row: UploadRow<F>) {
    row.status == Completed ==> row.score.Some? && row.features.Some? && row.processedAt.Some?
  }

  /** The stronger reading: derived fields appear only on completed rows. */
  predicate DerivedOnlyWhenCompleted<F>(row: UploadRow<F>) {
    row.score.Some? || row.features.Some? ==> row.status == Completed
  }

  ghost predicate TableInvariant<F>(rows: map<string, UploadRow<F>>) {
    forall id :: id in rows ==> rows[id].id == id && CompletedIsWhole(rows[id])
  }

  /** A freshly uploaded row: status pending, nothing derived yet. */
  function PendingRow<F>(id: string, filename: string, fileUrl: string): (row: UploadRow<F>)
    ensures row.status == Pending && DerivedOnlyWhenCompleted(row) && CompletedIsWhole(row)
  {
    UploadRow(id, filename, fileUrl, Pending, None, None, None)
  }

  /** `update({ processing_status: s }).eq("id", id)`: only that row's status changes. */
  function WithStatus<F>(rows: map<string, UploadRow<F>>, id: string, s: Status): (r: map<string, UploadRow<F>>)
    ensures r.Keys == rows.Keys
    ensures forall k :: k in rows && k != id ==> r[k] == rows[k]
    ensures id in rows ==> r[id] == rows[id].(status := s)
  {
    if id in rows then rows[id := rows[id].(status := s)] else rows
  }

  /** The completion update: status, score, features and time in a single write. */
  function WithCompletion<F>(rows: map<string, UploadRow<F>>, id: string, score: real, features: F, at: Timestamp)
    : (r: map<string, UploadRow<F>>)
    ensures r.Keys == rows.Keys
    ensures forall k :: k in rows && k != id ==> r[k] == rows[k]
    ensures id in rows ==> r[id].status == Completed && CompletedIsWhole(r[id])
    ensures id in rows ==> r[id] == rows[id].(status := Completed, score := Some(score),
                                               features := Some(features), processedAt := Some(at))
  {
    if id in rows
    then rows[id := rows[id].(status := Completed, score := Some(score), features := Some(features), processedAt := Some(at))]
    else rows
  }

  /** What the deferred finalize step met: its draws and the clock, or an exception. */
  datatype Outcome<D> = Succeeded(draws: D, now: Timestamp) | Threw

  /** One table, fundus_images or erg_data. */
  class UploadTable<F> {
    var rows: map<string, UploadRow<F>>

    ghost predicate Valid()
      reads this
    {
      TableInvariant(rows)
    }

    constructor ()
      ensures Valid() && rows == map[]
    {
      rows := map[];
    }

    /**
     * The upload pages' insert of a new pending row; the store generates the
     * id, and an id already taken is refused as the store would refuse it.
     */
    method InsertPending(id: string, filename: string, fileUrl: string) returns (inserted: bool)
      requires Valid()
      modifies this
      ensures Valid()
      ensures inserted <==> id !in old(rows)
      ensures rows == if inserted then old(rows)[id := PendingRow(id, filename, fileUrl)] else old(rows)
    {
      inserted := id !in rows;
      if inserted {
        rows := rows[id := PendingRow(id, filename, fileUrl)];
      }
    }

    /** Writes a status other than completed (the start step and the failure path). */
    method SetStatus(id: string, s: Status)
      requires Valid() && s != Completed
      modifies this
      ensures Valid()
      ensures rows == WithStatus(old(rows), id, s)
    {
      rows := WithStatus(rows, id, s);
    }

    /** Writes the completion update. */
    method Complete(id: string, score: real, features: F, at: Timestamp)
      requires Valid()
      modifies this
      ensures Valid()
      ensures rows == WithCompletion(old(rows), id, score, features, at)
    {
      rows := WithCompletion(rows, id, score, features, at);
    }
  }

  /**
   * The flow the upload pages drive: insert pending, start, then one finalize
   * write. The row ends completed with every derived field, or failed with
   * none, and derived fields appear only on a completed row.
   */
  lemma UploadFlowEndsWhole<F>(rows: map<string, UploadRow<F>>, id: string, filename: string, fileUrl: string,
                               success: bool, score: real, features: F, at: Timestamp)
    requires id !in rows
    ensures var inserted := rows[id := PendingRow(id, filename, fileUrl)];
            var started := WithStatus(inserted, id, Processing);
            var finished := if success then WithCompletion(started, id, score, features, at)
                            else WithStatus(started, id, Failed);
            && finished.Keys == rows.Keys + {id}
            && (forall k :: k in rows ==> finished[k] == rows[k])
            && finished[id].status == (if success then Completed else Failed)
            && CompletedIsWhole(finished[id])
            && DerivedOnlyWhenCompleted(finished[id])
            && (success ==> finished[id].score == Some(score))
            && (!success ==> finished[id].score.None? && finished[id].features.None?)
  {
  }

  /**
   * The start step is unconditional: restarting a completed row leaves its
   * old score and features in place while it is processing, and a failure
   * afterwards keeps them on a failed row.
   */
  lemma RestartKeepsStaleResults<F>(rows: map<string, UploadRow<F>>, id: string)
    requires id in rows && rows[id].status == Completed && rows[id].score.Some?
    ensures var restarted := WithStatus(rows, id, Processing);
            && restarted[id].status == Processing
            && restarted[id].score == rows[id].score
            && !DerivedOnlyWhenCompleted(restarted[id])
            && !DerivedOnlyWhenCompleted(WithStatus(restarted, id, Failed)[id])
  {
  }

  /** Every write keeps the table's invariant. */
  lemma WritesKeepInvariant<F>(rows: map<string, UploadRow<F>>, id: string, s: Status,
                               score: real, features: F, at: Timestamp)
    requires TableInvariant(rows) && s != Completed
    ensures TableInvariant(WithStatus(rows, id, s))
    ensures TableInvariant(WithCompletion(rows, id, score, features, at))
  {
  }
}
