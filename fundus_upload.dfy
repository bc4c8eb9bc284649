/**
 * The fundus upload page: the per-file validation loop of the drop
 * handler, the append of each stored image as a pending entry, and removal
 * by id.
 */
module FundusUpload {
  import opened Wrappers
  import opened Text
  import Seqs
  import opened Lifecycle

  /** A file handed over by the drop zone. */
  datatype DroppedFile = DroppedFile(name: string, mimeType: string, size: nat)

  /**
   * What the calls after validation do for one image: the upload endpoint
   * answers not-ok, the metadata insert reports an error, or the image is
   * stored under a new id (and the call that starts processing may throw).
   */
  datatype Transfer =
    | UploadNotOk
    | StoreError(message: string)
    | Stored(id: string, url: string, createdAt: string, processError: Option<string>)

  /** An image entry in the page's list. */
  datatype UploadedImage = UploadedImage(id: string, url: string, filename: string, size: nat,
                                         uploadedAt: string, status: Status)

  const MaxImageSize: nat := 10 * 1024 * 1024

  predicate IsImageType(mimeType: string) {
    StartsWith(mimeType, "image/")
  }

  /** The error an image fails validation with; the MIME check comes before the size check. */
  function ValidationError(file: DroppedFile): (e: Option<string>)
    ensures e.None? <==> IsImageType(file.mimeType) && file.size <= MaxImageSize
    ensures !IsImageType(file.mimeType) ==> e == Some(file.name + " is not a valid image file")
    ensures IsImageType(file.mimeType) && file.size > MaxImageSize ==> e == Some(file.name + " exceeds 10MB size limit")
  {
    if !IsImageType(file.mimeType) then Some(file.name + " is not a valid image file")
    else if file.size > MaxImageSize then Some(file.name + " exceeds 10MB size limit")
    else None
  }

  /** An image of exactly 10 MiB passes; one byte more does not. */
  lemma SizeLimitIsInclusive(name: string, mimeType: string)
    requires IsImageType(mimeType)
    ensures ValidationError(DroppedFile(name, mimeType, 10485760)).None?
    ensures ValidationError(DroppedFile(name, mimeType, 10485761)) == Some(name + " exceeds 10MB size limit")
  {
  }

  /** What one iteration of the loop produces: an entry to append, and the error it leaves (if any). */
  datatype FileResult = FileResult(added: Option<UploadedImage>, error: Option<string>)

  function Attempt(file: DroppedFile, t: Transfer): (r: FileResult)
    ensures r.added.Some? <==> ValidationError(file).None? && t.Stored?
    ensures r.added.Some? ==> r.added.value == UploadedImage(t.id, t.url, file.name, file.size, t.createdAt, Pending)
    ensures ValidationError(file).Some? ==> r.error == ValidationError(file)
    ensures ValidationError(file).None? && t.UploadNotOk? ==> r.error == Some("Upload failed")
    ensures ValidationError(file).None? && t.StoreError? ==> r.error == Some(t.message)
    ensures r.added.Some? ==> r.error == t.processError
  {
    var v := ValidationError(file);
    if v.Some? then FileResult(None, v)
    else match t
      case UploadNotOk => FileResult(None, Some("Upload failed"))
      case StoreError(m) => FileResult(None, Some(m))
      case Stored(id, url, createdAt, processError) =>
        FileResult(Some(UploadedImage(id, url, file.name, file.size, createdAt, Pending)), processError)
  }

  function AddedBy(r: FileResult): seq<UploadedImage> {
    if r.added.Some? then [r.added.value] else []
  }

  /** The entries one file adds to the list. */
  function Added(file: DroppedFile, t: Transfer): (added: seq<UploadedImage>)
    ensures |added| <= 1
    ensures forall img :: img in added ==> img.status == Pending && img.size <= MaxImageSize
  {
    AddedBy(Attempt(file, t))
  }

  /** The error one file leaves, if it leaves one. */
  function ErrorOf(file: DroppedFile, t: Transfer): Option<string> {
    Attempt(file, t).error
  }

  /** The entries one drop appends, in file order: at most one per file, every one pending and within the limit. */
  function Appended(files: seq<DroppedFile>, ts: seq<Transfer>): (added: seq<UploadedImage>)
    requires |files| == |ts|
    ensures |added| <= |files|
    ensures forall img :: img in added ==> img.status == Pending && img.size <= MaxImageSize
  {
    Seqs.GatherLength(files, ts, Added);
    Seqs.GatherAll(files, ts, Added, (img: UploadedImage) => img.status == Pending && img.size <= MaxImageSize);
    Seqs.Gather(files, ts, Added)
  }

  /** The error left after the loop: that of the last file that failed, or none. */
  function LastError(files: seq<DroppedFile>, ts: seq<Transfer>): (e: Option<string>)
    requires |files| == |ts|
    ensures e.None? <==> forall i :: 0 <= i < |files| ==> ErrorOf(files[i], ts[i]).None?
    ensures e.Some? ==> exists i :: 0 <= i < |files| && e == ErrorOf(files[i], ts[i]) &&
                                    forall j :: i < j < |files| ==> ErrorOf(files[j], ts[j]).None?
  {
    Seqs.LastSomeIsLast(files, ts, ErrorOf);
    Seqs.LastSome(files, ts, ErrorOf)
  }

  /** A failing file does not stop the loop: the files after it are handled as if it had been alone. */
  lemma AppendedSplit(f1: seq<DroppedFile>, t1: seq<Transfer>, f2: seq<DroppedFile>, t2: seq<Transfer>)
    requires |f1| == |t1| && |f2| == |t2|
    ensures Appended(f1 + f2, t1 + t2) == Appended(f1, t1) + Appended(f2, t2)
  {
    Seqs.GatherAppend(f1, t1, f2, t2, Added);
  }

  /** An error on a later file replaces the message of an earlier one. */
  lemma LaterErrorWins(f1: seq<DroppedFile>, t1: seq<Transfer>, file: DroppedFile, t: Transfer)
    requires |f1| == |t1|
    requires ValidationError(file).Some?
    ensures LastError(f1 + [file], t1 + [t]) == ValidationError(file)
  {
    Seqs.LastSomeStep(f1 + [file], t1 + [t], ErrorOf, |f1|);
    assert (f1 + [file])[..|f1| + 1] == f1 + [file] && (t1 + [t])[..|t1| + 1] == t1 + [t];
  }

  /** The list without the entries carrying `id`. */
  function Without(images: seq<UploadedImage>, id: string): (r: seq<UploadedImage>)
    ensures forall img :: img in r <==> img in images && img.id != id
    ensures Seqs.IsSubsequence(r, images)
    ensures forall img :: multiset(r)[img] == if img.id != id then multiset(images)[img] else 0
  {
    Seqs.FilterIsSubsequence(images, (img: UploadedImage) => img.id != id);
    Seqs.FilterMultiplicity(images, (img: UploadedImage) => img.id != id);
    Seqs.Filter(images, (img: UploadedImage) => img.id != id)
  }

  /** Removing an id no entry carries leaves the list as it is. */
  lemma WithoutUnknownId(images: seq<UploadedImage>, id: string)
    requires forall i :: 0 <= i < |images| ==> images[i].id != id
    ensures Without(images, id) == images
  {
    Seqs.FilterKeepsAll(images, (img: UploadedImage) => img.id != id);
  }

  predicate HasId(images: seq<UploadedImage>, id: string) {
    exists i :: 0 <= i < |images| && images[i].id == id
  }

  class FundusUploadPage {
    var uploadedImages: seq<UploadedImage>
    var uploading: bool
    var uploadProgress: int
    var error: Option<string>

    constructor ()
      ensures uploadedImages == [] && !uploading && uploadProgress == 0 && error == None
    {
      uploadedImages := [];
      uploading := false;
      uploadProgress := 0;
      error := None;
    }

    /**
     * One pass of the drop handler's loop: validate the image, then upload,
     * record and start processing it; a failure sets the error and the
     * loop goes on with the next file.
     */
    method HandleFile(file: DroppedFile, t: Transfer)
      modifies this
      ensures uploadedImages == old(uploadedImages) + Added(file, t)
      ensures error == if ErrorOf(file, t).Some? then ErrorOf(file, t) else old(error)
      ensures uploading == old(uploading) && uploadProgress == old(uploadProgress)
    {
      var v := ValidationError(file);
      if v.Some? {
        error := v;
        return;
      }
      match t
      case UploadNotOk =>
        error := Some("Upload failed");
      case StoreError(m) =>
        error := Some(m);
      case Stored(id, url, createdAt, processError) =>
        uploadedImages := uploadedImages + [UploadedImage(id, url, file.name, file.size, createdAt, Pending)];
        if processError.Some? {
          error := processError;
        }
    }

    /**
     * The drop handler. `transfers[i]` is what the upload, insert and
     * process calls do for `files[i]`.
     */
    method OnDrop(files: seq<DroppedFile>, transfers: seq<Transfer>)
      requires |files| == |transfers|
      modifies this
      ensures uploadedImages == old(uploadedImages) + Appended(files, transfers)
      ensures error == LastError(files, transfers)
      ensures !uploading && uploadProgress == 100
    {
      error := None;
      uploading := true;
      uploadProgress := 0;
      var i := 0;
      while i < |files|
        invariant 0 <= i <= |files|
        invariant uploadedImages == old(uploadedImages) + Appended(files[..i], transfers[..i])
        invariant error == LastError(files[..i], transfers[..i])
      {
        Seqs.GatherStep(files, transfers, Added, i);
        Seqs.LastSomeStep(files, transfers, ErrorOf, i);
        HandleFile(files[i], transfers[i]);
        i := i + 1;
      }
      assert files[..|files|] == files && transfers[..|transfers|] == transfers;
      uploading := false;
      uploadProgress := 100;
    }

    /**
     * Removal: nothing happens for an unknown id; a failing delete call sets
     * the error and keeps the list; otherwise the entries with the id go.
     */
    method RemoveImage(imageId: string, deleteThrows: bool)
      modifies this
      ensures !HasId(old(uploadedImages), imageId) ==> uploadedImages == old(uploadedImages) && error == old(error)
      ensures HasId(old(uploadedImages), imageId) && deleteThrows ==>
                uploadedImages == old(uploadedImages) && error == Some("Failed to delete image")
      ensures HasId(old(uploadedImages), imageId) && !deleteThrows ==>
                uploadedImages == Without(old(uploadedImages), imageId) && error == old(error)
      ensures uploading == old(uploading) && uploadProgress == old(uploadProgress)
    {
      if !HasId(uploadedImages, imageId) {
        return;
      }
      if deleteThrows {
        error := Some("Failed to delete image");
      } else {
        uploadedImages := Without(uploadedImages, imageId);
      }
    }
  }
}
