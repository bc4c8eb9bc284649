/**
 * The ERG upload page: the per-file validation loop of the drop handler,
 * the append of each stored file as a pending entry, and removal by id.
 */
module ErgUpload {
  import opened Wrappers
  import opened Text
  import Seqs
  import opened Lifecycle

  /** A file handed over by the drop zone. */
  datatype DroppedFile = DroppedFile(name: string, mimeType: string, size: nat)

  /**
   * What the calls after validation do for one file: the upload endpoint
   * answers not-ok, the metadata insert reports an error, or the file is
   * stored under a new id (and the call that starts processing may throw).
   */
  datatype Transfer =
    | UploadNotOk
    | StoreError(message: string)
    | Stored(id: string, url: string, createdAt: string, processError: Option<string>)

  /** A file entry in the page's list. */
  datatype ErgDataFile = ErgDataFile(id: string, filename: string, fileUrl: string, status: Status, createdAt: string)

  const ValidTypes: seq<string> := [".csv", ".xlsx", ".xls", ".txt"]
  const MaxErgSize: nat := 50 * 1024 * 1024

  /** The text after the last '.', or the whole name when there is none. */
  function LastSegment(name: string): (r: string)
    ensures '.' !in r
  {
    if |name| == 0 then ""
    else if name[|name| - 1] == '.' then ""
    else LastSegment(name[..|name| - 1]) + [name[|name| - 1]]
  }

  /** A name without a dot is its own last segment. */
  lemma {:induction false} LastSegmentWithoutDot(name: string)
    requires '.' !in name
    ensures LastSegment(name) == name
  {
    if |name| > 0 {
      var init := name[..|name| - 1];
      assert '.' !in init by {
        forall i | 0 <= i < |init| ensures init[i] != '.' {
          assert init[i] == name[i];
        }
      }
      LastSegmentWithoutDot(init);
      assert init + [name[|name| - 1]] == name;
    }
  }

  /** "." followed by the lower-cased last dot-separated segment of the name. */
  function Extension(name: string): (ext: string)
    ensures |ext| >= 1 && ext[0] == '.'
  {
    "." + ToLower(LastSegment(name))
  }

  lemma {:induction false} LastSegmentAfterDot(base: string, ext: string)
    requires '.' !in ext
    ensures LastSegment(base + "." + ext) == ext
    decreases |ext|
  {
    var name := base + "." + ext;
    if |ext| == 0 {
      assert name[|name| - 1] == '.';
    } else {
      assert name[..|name| - 1] == base + "." + ext[..|ext| - 1];
      LastSegmentAfterDot(base, ext[..|ext| - 1]);
      assert ext[..|ext| - 1] + [ext[|ext| - 1]] == ext;
    }
  }

  /** A name "base.ext" with no further dot in ext has the extension "." + lower-cased ext. */
  lemma ExtensionOfDottedName(base: string, ext: string)
    requires '.' !in ext
    ensures Extension(base + "." + ext) == "." + ToLower(ext)
  {
    LastSegmentAfterDot(base, ext);
  }

  /** A name without any dot is taken whole as its extension, so a file named "csv" passes. */
  lemma UndottedNameIsItsOwnExtension()
    ensures Extension("csv") == ".csv" && ValidErgType("csv")
  {
    LastSegmentWithoutDot("csv");
  }

  predicate ValidErgType(name: string) {
    Extension(name) in ValidTypes
  }

  /** The error a file fails validation with; the type check comes before the size check. */
  function ValidationError(file: DroppedFile): (e: Option<string>)
    ensures e.None? <==> ValidErgType(file.name) && file.size <= MaxErgSize
    ensures !ValidErgType(file.name) ==>
              e == Some(file.name + " is not a valid ERG data file. Supported: CSV, Excel, TXT")
    ensures ValidErgType(file.name) && file.size > MaxErgSize ==> e == Some(file.name + " exceeds 50MB size limit")
  {
    if !ValidErgType(file.name) then Some(file.name + " is not a valid ERG data file. Supported: CSV, Excel, TXT")
    else if file.size > MaxErgSize then Some(file.name + " exceeds 50MB size limit")
    else None
  }

  /** A data file of exactly 50 MiB passes; one byte more does not. */
  lemma SizeLimitIsInclusive(name: string, mimeType: string)
    requires ValidErgType(name)
    ensures ValidationError(DroppedFile(name, mimeType, 52428800)).None?
    ensures ValidationError(DroppedFile(name, mimeType, 52428801)) == Some(name + " exceeds 50MB size limit")
  {
  }

  /** What one iteration of the loop produces: an entry to append, and the error it leaves (if any). */
  datatype FileResult = FileResult(added: Option<ErgDataFile>, error: Option<string>)

  function Attempt(file: DroppedFile, t: Transfer): (r: FileResult)
    ensures r.added.Some? <==> ValidationError(file).None? && t.Stored?
    ensures r.added.Some? ==> r.added.value == ErgDataFile(t.id, file.name, t.url, Pending, t.createdAt)
    ensures ValidationError(file).Some? ==> r.error == ValidationError(file)
    ensures ValidationError(file).None? && t.UploadNotOk? ==> r.error == Some("Upload failed")
    ensures ValidationError(file).None? && t.StoreError? ==> r.error == Some(t.message)
    ensures r.added.Some? ==> r.error == t.processError
  {
    var v := ValidationError(file);
    if v.Some? then FileResult(None, v)
    else match t
      case UploadNotOk => FileResult(None, Some("Upload failed"))
      case StoreError(m) => FileResult(None, Some(m))
      case Stored(id, url, createdAt, processError) =>
        FileResult(Some(ErgDataFile(id, file.name, url, Pending, createdAt)), processError)
  }

  function AddedBy(r: FileResult): seq<ErgDataFile> {
    if r.added.Some? then [r.added.value] else []
  }

  /** The entries one file adds to the list. */
  function Added(file: DroppedFile, t: Transfer): (added: seq<ErgDataFile>)
    ensures |added| <= 1
    ensures forall e :: e in added ==> e.status == Pending
  {
    AddedBy(Attempt(file, t))
  }

  /** The error one file leaves, if it leaves one. */
  function ErrorOf(file: DroppedFile, t: Transfer): Option<string> {
    Attempt(file, t).error
  }

  /** The entries one drop appends, in file order: at most one per file, every one pending. */
  function Appended(files: seq<DroppedFile>, ts: seq<Transfer>): (added: seq<ErgDataFile>)
    requires |files| == |ts|
    ensures |added| <= |files|
    ensures forall e :: e in added ==> e.status == Pending
  {
    Seqs.GatherLength(files, ts, Added);
    Seqs.GatherAll(files, ts, Added, (e: ErgDataFile) => e.status == Pending);
    Seqs.Gather(files, ts, Added)
  }

  /** The error left after the loop: that of the last file that failed, or none. */
  function LastError(files: seq<DroppedFile>, ts: seq<Transfer>): (e: Option<string>)
    requires |files| == |ts|
    ensures e.None? <==> forall i :: 0 <= i < |files| ==> ErrorOf(files[i], ts[i]).None?
    ensures e.Some? ==> exists i :: 0 <= i < |files| && e == ErrorOf(files[i], ts[i]) &&
                                    forall j :: i < j < |files| ==> ErrorOf(files[j], ts[j]).None?
  {
    Seqs.LastSomeIsLast(files, ts, ErrorOf);
    Seqs.LastSome(files, ts, ErrorOf)
  }

  /** A failing file does not stop the loop: the files after it are handled as if it had been alone. */
  lemma AppendedSplit(f1: seq<DroppedFile>, t1: seq<Transfer>, f2: seq<DroppedFile>, t2: seq<Transfer>)
    requires |f1| == |t1| && |f2| == |t2|
    ensures Appended(f1 + f2, t1 + t2) == Appended(f1, t1) + Appended(f2, t2)
  {
    Seqs.GatherAppend(f1, t1, f2, t2, Added);
  }

  /** A file that fails validation appends nothing. */
  lemma RejectedFileAddsNothing(file: DroppedFile, t: Transfer)
    requires ValidationError(file).Some?
    ensures Appended([file], [t]) == []
  {
    Seqs.GatherStep([file], [t], Added, 0);
    assert [file][..1] == [file] && [t][..1] == [t];
  }

  /** An error on a later file replaces the message of an earlier one. */
  lemma LaterErrorWins(f1: seq<DroppedFile>, t1: seq<Transfer>, file: DroppedFile, t: Transfer)
    requires |f1| == |t1|
    requires ValidationError(file).Some?
    ensures LastError(f1 + [file], t1 + [t]) == ValidationError(file)
  {
    Seqs.LastSomeStep(f1 + [file], t1 + [t], ErrorOf, |f1|);
    assert (f1 + [file])[..|f1| + 1] == f1 + [file] && (t1 + [t])[..|t1| + 1] == t1 + [t];
  }

  /** The list without the entries carrying `id`. */
  function Without(files: seq<ErgDataFile>, id: string): (r: seq<ErgDataFile>)
    ensures forall f :: f in r <==> f in files && f.id != id
    ensures Seqs.IsSubsequence(r, files)
    ensures forall f :: multiset(r)[f] == if f.id != id then multiset(files)[f] else 0
  {
    Seqs.FilterIsSubsequence(files, (f: ErgDataFile) => f.id != id);
    Seqs.FilterMultiplicity(files, (f: ErgDataFile) => f.id != id);
    Seqs.Filter(files, (f: ErgDataFile) => f.id != id)
  }

  /** Removing an id no entry carries leaves the list as it is. */
  lemma WithoutUnknownId(files: seq<ErgDataFile>, id: string)
    requires forall i :: 0 <= i < |files| ==> files[i].id != id
    ensures Without(files, id) == files
  {
    Seqs.FilterKeepsAll(files, (f: ErgDataFile) => f.id != id);
  }

  predicate HasId(files: seq<ErgDataFile>, id: string) {
    exists i :: 0 <= i < |files| && files[i].id == id
  }

  class ErgUploadPage {
    var ergFiles: seq<ErgDataFile>
    var uploading: bool
    var uploadProgress: int
    var error: Option<string>

    constructor ()
      ensures ergFiles == [] && !uploading && uploadProgress == 0 && error == None
    {
      ergFiles := [];
      uploading := false;
      uploadProgress := 0;
      error := None;
    }

    /**
     * One pass of the drop handler's loop: validate the file, then upload,
     * record and start processing it; a failure sets the error and the
     * loop goes on with the next file.
     */
    method HandleFile(file: DroppedFile, t: Transfer)
      modifies this
      ensures ergFiles == old(ergFiles) + Added(file, t)
      ensures error == if ErrorOf(file, t).Some? then ErrorOf(file, t) else old(error)
      ensures uploading == old(uploading) && uploadProgress == old(uploadProgress)
    {
      var v := ValidationError(file);
      if v.Some? {
        error := v;
        return;
      }
      match t
      case UploadNotOk =>
        error := Some("Upload failed");
      case StoreError(m) =>
        error := Some(m);
      case Stored(id, url, createdAt, processError) =>
        ergFiles := ergFiles + [ErgDataFile(id, file.name, url, Pending, createdAt)];
        if processError.Some? {
          error := processError;
        }
    }

    /**
     * The drop handler. `transfers[i]` is what the upload, insert and
     * process calls do for `files[i]`.
     */
    method OnDrop(files: seq<DroppedFile>, transfers: seq<Transfer>)
      requires |files| == |transfers|
      modifies this
      ensures ergFiles == old(ergFiles) + Appended(files, transfers)
      ensures error == LastError(files, transfers)
      ensures !uploading && uploadProgress == 100
    {
      error := None;
      uploading := true;
      uploadProgress := 0;
      var i := 0;
      while i < |files|
        invariant 0 <= i <= |files|
        invariant ergFiles == old(ergFiles) + Appended(files[..i], transfers[..i])
        invariant error == LastError(files[..i], transfers[..i])
      {
        Seqs.GatherStep(files, transfers, Added, i);
        Seqs.LastSomeStep(files, transfers, ErrorOf, i);
        HandleFile(files[i], transfers[i]);
        i := i + 1;
      }
      assert files[..|files|] == files && transfers[..|transfers|] == transfers;
      uploading := false;
      uploadProgress := 100;
    }

    /**
     * Removal: nothing happens for an unknown id; a failing delete call sets
     * the error and keeps the list; otherwise the entries with the id go.
     */
    method RemoveFile(fileId: string, deleteThrows: bool)
      modifies this
      ensures !HasId(old(ergFiles), fileId) ==> ergFiles == old(ergFiles) && error == old(error)
      ensures HasId(old(ergFiles), fileId) && deleteThrows ==>
                ergFiles == old(ergFiles) && error == Some("Failed to delete file")
      ensures HasId(old(ergFiles), fileId) && !deleteThrows ==>
                ergFiles == Without(old(ergFiles), fileId) && error == old(error)
      ensures uploading == old(uploading) && uploadProgress == old(uploadProgress)
    {
      if !HasId(ergFiles, fileId) {
        return;
      }
      if deleteThrows {
        error := Some("Failed to delete file");
      } else {
        ergFiles := Without(ergFiles, fileId);
      }
    }
  }
}
