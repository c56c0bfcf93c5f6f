/**
 * The upload queue of components/FileUpload.tsx: dropped PDFs wait as Pending entries until the upload button
 * sends every Pending one; each settles as Success (with the new document's id) or Error. The backend's answer to
 * each upload is an input, as a function of the file; the `onError` and `onUploadComplete` calls are recorded.
 */
module FileUpload {
  import opened Base
  import opened Strings
  import opened JsonValues
  import Types
  import opened Lists
  import ApiClient

  const DefaultMaxFiles := 15
  const ContextRequiredMessage := "A context ID is required to upload files."
  const UploadFailedMessage := "Upload failed"

  datatype UploadStatus = Pending | Uploading | Success | Error

  /** One row of the queue; `id` is the `document_id` of the upload's answer, as received. */
  datatype UploadableFile =
    UploadableFile(file: Types.BrowserFile, status: UploadStatus, progress: int, error: Option<string>, id: Option<Json>)

  /** A file the drop zone refused, with the messages of its errors. */
  datatype Rejection = Rejection(file: Types.BrowserFile, messages: seq<string>)

  predicate IsPending(f: UploadableFile) {
    f.status == Pending
  }

  /** The rows for newly accepted files: Pending, at progress 0. */
  function NewEntries(accepted: seq<Types.BrowserFile>): (r: seq<UploadableFile>)
    ensures |r| == |accepted|
    ensures forall i :: 0 <= i < |r| ==> r[i] == UploadableFile(accepted[i], Pending, 0, None, None)
  {
    seq(|accepted|, i requires 0 <= i < |accepted| => UploadableFile(accepted[i], Pending, 0, None, None))
  }

  /** The queue after a drop: old rows first, then the new ones, cut to `maxFiles` rows. */
  function Dropped(files: seq<UploadableFile>, accepted: seq<Types.BrowserFile>, maxFiles: int): (r: seq<UploadableFile>)
    ensures r <= files + NewEntries(accepted)
    ensures 0 <= maxFiles ==> |r| == Min(|files| + |accepted|, maxFiles)
  {
    SliceTo(files + NewEntries(accepted), maxFiles)
  }

  /** Existing rows win over new ones: while the old queue fits, a drop keeps all of it in front. */
  lemma DropKeepsExisting(files: seq<UploadableFile>, accepted: seq<Types.BrowserFile>, maxFiles: int)
    requires |files| <= maxFiles
    ensures files <= Dropped(files, accepted, maxFiles)
    ensures forall i :: |files| <= i < |Dropped(files, accepted, maxFiles)| ==>
      Dropped(files, accepted, maxFiles)[i] == UploadableFile(accepted[i - |files|], Pending, 0, None, None)
  {
    var all := files + NewEntries(accepted);
    var r := Dropped(files, accepted, maxFiles);
    assert |r| >= |files|;
    assert r[..|files|] == all[..|files|] == files;
    forall i | |files| <= i < |r|
      ensures r[i] == UploadableFile(accepted[i - |files|], Pending, 0, None, None)
    {
      assert r[i] == all[i] == NewEntries(accepted)[i - |files|];
    }
  }

  /** The `onError` text for one refused file. */
  function RejectionMessage(r: Rejection): string {
    "Failed to add " + r.file.name + ": " + Join(r.messages, ", ")
  }

  function RejectionMessages(rs: seq<Rejection>): (ms: seq<string>)
    ensures |ms| == |rs| && forall i :: 0 <= i < |rs| ==> ms[i] == RejectionMessage(rs[i])
  {
    seq(|rs|, i requires 0 <= i < |rs| => RejectionMessage(rs[i]))
  }

  /** `retryUpload(index)`: only that row changes, back to Pending at progress 0 with no error. */
  function Retried(files: seq<UploadableFile>, index: int): (r: seq<UploadableFile>)
    ensures |r| == |files|
    ensures forall j :: 0 <= j < |files| && j != index ==> r[j] == files[j]
    ensures 0 <= index < |files| ==> r[index] == files[index].(status := Pending, progress := 0, error := None)
  {
    if 0 <= index < |files| then UpdateAt(files, index, files[index].(status := Pending, progress := 0, error := None))
    else files
  }

  /** The rows as the upload starts: every Pending row turns Uploading, the rest stay as they are. */
  function Started(files: seq<UploadableFile>): (r: seq<UploadableFile>)
    ensures |r| == |files|
    ensures forall i :: 0 <= i < |files| ==>
      r[i] == if IsPending(files[i]) then files[i].(status := Uploading) else files[i]
  {
    seq(|files|, i requires 0 <= i < |files| => if IsPending(files[i]) then files[i].(status := Uploading) else files[i])
  }

  /**
   * How one upload settles. The row is the one captured before the upload, so it keeps that row's progress and
   * error; a failure's text is the answer's `detail`, or "Upload failed". An answer whose body is `null` makes
   * `response.document_id` throw a TypeError, which carries no `response`, so that upload fails with "Upload failed".
   */
  function Settle(entry: UploadableFile, outcome: Result<Json, ApiClient.Failure>): (r: UploadableFile)
    ensures r.file == entry.file && r.progress == entry.progress
    ensures r.status == if outcome.Ok? && outcome.value != JNull then Success else Error
    ensures outcome.Ok? && outcome.value != JNull ==>
      r == entry.(status := Success, id := Get(outcome.value, "document_id"))
    ensures outcome == Ok(JNull) ==> r == entry.(status := Error, error := Some(UploadFailedMessage))
    ensures outcome.Err? ==>
      r == entry.(status := Error, error := Some(ApiClient.DetailOr(outcome.error, UploadFailedMessage)))
  {
    match outcome
    case Ok(JNull) => entry.(status := Error, error := Some(UploadFailedMessage))
    case Ok(data) => entry.(status := Success, id := Get(data, "document_id"))
    case Err(failure) => entry.(status := Error, error := Some(ApiClient.DetailOr(failure, UploadFailedMessage)))
  }

  /** `settled.find(s => s.file === file)`. */
  function FindSettled(settled: seq<UploadableFile>, file: Types.BrowserFile): (r: Option<UploadableFile>)
    ensures r.Some? ==> r.value in settled && r.value.file == file
    ensures r.None? <==> forall s :: s in settled ==> s.file != file
    decreases |settled|
  {
    if |settled| == 0 then None
    else if settled[0].file == file then Some(settled[0])
    else FindSettled(settled[1..], file)
  }

  /** `find` returns the first match: no earlier settled row carries the same file. */
  lemma {:induction false} FindSettledFirst(settled: seq<UploadableFile>, file: Types.BrowserFile)
    ensures FindSettled(settled, file).Some? ==>
      exists k :: 0 <= k < |settled| && settled[k] == FindSettled(settled, file).value &&
                  forall j :: 0 <= j < k ==> settled[j].file != file
    decreases |settled|
  {
    if |settled| > 0 && settled[0].file == file {
      assert settled[0] == FindSettled(settled, file).value;
    } else if |settled| > 0 {
      var rest := settled[1..];
      FindSettledFirst(rest, file);
      if FindSettled(settled, file).Some? {
        var k :| 0 <= k < |rest| && rest[k] == FindSettled(rest, file).value &&
                 forall j :: 0 <= j < k ==> rest[j].file != file;
        assert settled[k + 1] == FindSettled(settled, file).value;
        forall j | 0 <= j < k + 1
          ensures settled[j].file != file
        {
          if j > 0 {
            assert settled[j] == rest[j - 1];
          }
        }
      }
    }
  }

  /** The final merge: each row whose file was uploaded is replaced by (the first) settled copy. */
  function Merge(files: seq<UploadableFile>, settled: seq<UploadableFile>): (r: seq<UploadableFile>)
    ensures |r| == |files|
    ensures forall i :: 0 <= i < |files| ==>
      r[i] == match FindSettled(settled, files[i].file) { case Some(s) => s case None => files[i] }
  {
    seq(|files|, i requires 0 <= i < |files| =>
      match FindSettled(settled, files[i].file) { case Some(s) => s case None => files[i] })
  }

  /** The ids handed to `onUploadComplete`: those of the successful uploads with a truthy id, in queue order. */
  function SuccessfulIds(settled: seq<UploadableFile>): (ids: seq<Json>)
    ensures |ids| <= |settled|
    ensures forall x :: x in ids ==> exists s :: s in settled && s.status == Success && s.id == Some(x) && Truthy(x)
    decreases |settled|
  {
    if |settled| == 0 then []
    else
      var rest := SuccessfulIds(settled[1..]);
      var s := settled[0];
      if s.status == Success && TruthyOpt(s.id) then [s.id.value] + rest else rest
  }

  /** A settled upload whose id is handed on: successful, with a truthy id. */
  predicate Delivered(s: UploadableFile) {
    s.status == Success && TruthyOpt(s.id)
  }

  /** `rows.map(f => f.id!)`; a row without an id would give `undefined`, written `null` here. */
  function IdsOf(rows: seq<UploadableFile>): (ids: seq<Json>)
    ensures |ids| == |rows|
    ensures forall k :: 0 <= k < |rows| && rows[k].id.Some? ==> ids[k] == rows[k].id.value
  {
    seq(|rows|, k requires 0 <= k < |rows| => if rows[k].id.Some? then rows[k].id.value else JNull)
  }

  lemma IdsOfCons(row: UploadableFile, rows: seq<UploadableFile>)
    requires row.id.Some?
    ensures IdsOf([row] + rows) == [row.id.value] + IdsOf(rows)
  {
    assert forall k :: 0 < k < |rows| + 1 ==> ([row] + rows)[k] == rows[k - 1];
  }

  /** The ids are exactly `settled.filter(successful with an id).map(id)`: in queue order, none left out. */
  lemma {:induction false} SuccessfulIdsInOrder(settled: seq<UploadableFile>)
    ensures SuccessfulIds(settled) == IdsOf(Filter(settled, Delivered))
    decreases |settled|
  {
    if |settled| > 0 {
      var rest := settled[1..];
      SuccessfulIdsInOrder(rest);
      if Delivered(settled[0]) {
        IdsOfCons(settled[0], Filter(rest, Delivered));
      }
    }
  }

  /** Every delivered upload's id is handed on. */
  lemma DeliveredIdsHandedOn(settled: seq<UploadableFile>, s: UploadableFile)
    requires s in settled && Delivered(s)
    ensures s.id.value in SuccessfulIds(settled)
  {
    SuccessfulIdsInOrder(settled);
    var kept := Filter(settled, Delivered);
    assert s in kept;
    var k :| 0 <= k < |kept| && kept[k] == s;
    assert IdsOf(kept)[k] == s.id.value;
  }

  /** The upload button's `disabled`. */
  function UploadDisabled(files: seq<UploadableFile>): (disabled: bool)
    ensures disabled <==> forall i :: 0 <= i < |files| ==> !IsPending(files[i])
  {
    |files| == 0 || forall i :: 0 <= i < |files| ==> !IsPending(files[i])
  }

  /** The button is disabled exactly when no row is Pending, i.e. when a click would do nothing. */
  lemma UploadDisabledIffNothingPending(files: seq<UploadableFile>)
    ensures UploadDisabled(files) <==> Filter(files, IsPending) == []
  {
    if !UploadDisabled(files) {
      var i :| 0 <= i < |files| && IsPending(files[i]);
      assert files[i] in Filter(files, IsPending);
    }
  }

  /** Every upload settles: after the merge no row that was Pending is left Pending or Uploading. */
  lemma PendingRowsSettle(files: seq<UploadableFile>, outcome: Types.BrowserFile -> Result<Json, ApiClient.Failure>, i: int)
    requires 0 <= i < |files| && IsPending(files[i])
    ensures var pending := Filter(files, IsPending);
      var settled := seq(|pending|, k requires 0 <= k < |pending| => Settle(pending[k], outcome(pending[k].file)));
      Merge(Started(files), settled)[i].status in {Success, Error} &&
      Merge(Started(files), settled)[i].file == files[i].file
  {
    var pending := Filter(files, IsPending);
    var settled := seq(|pending|, k requires 0 <= k < |pending| => Settle(pending[k], outcome(pending[k].file)));
    assert files[i] in pending;
    var k :| 0 <= k < |pending| && pending[k] == files[i];
    assert settled[k] == Settle(pending[k], outcome(pending[k].file));
    assert settled[k] in settled;
    assert Started(files)[i].file == files[i].file;
    var s := FindSettled(settled, files[i].file);
    assert s.Some?;
    var j :| 0 <= j < |settled| && settled[j] == s.value;
    assert settled[j] == Settle(pending[j], outcome(pending[j].file));
  }

  /** Rows whose file was not uploaded come out of the merge exactly as they went in. */
  lemma OtherRowsUntouched(files: seq<UploadableFile>, settled: seq<UploadableFile>, i: int)
    requires 0 <= i < |files|
    requires forall s :: s in settled ==> s.file != files[i].file
    ensures Merge(files, settled)[i] == files[i]
  {
    assert FindSettled(settled, files[i].file).None?;
  }

  class FileUploader {
    const contextId: string
    const maxFiles: int
    var files: seq<UploadableFile>
    /** The arguments of every `onError` call so far. */
    var errors: seq<string>
    /** The document ids of every `onUploadComplete` call so far. */
    var completions: seq<seq<Json>>

    constructor (contextId: string, maxFiles: int)
      ensures this.contextId == contextId && this.maxFiles == maxFiles
      ensures files == [] && errors == [] && completions == []
    {
      this.contextId := contextId;
      this.maxFiles := maxFiles;
      files := [];
      errors := [];
      completions := [];
    }

    /** A queue mounted without a `maxFiles` prop, which then defaults to 15. */
    constructor WithDefaultLimit(contextId: string)
      ensures this.contextId == contextId && maxFiles == DefaultMaxFiles
      ensures files == [] && errors == [] && completions == []
    {
      this.contextId := contextId;
      maxFiles := DefaultMaxFiles;
      files := [];
      errors := [];
      completions := [];
    }

    /** `onDrop(accepted, rejections)`: one `onError` per refused file, in order, then the new rows. */
    method OnDrop(accepted: seq<Types.BrowserFile>, rejections: seq<Rejection>)
      modifies this
      ensures errors == old(errors) + RejectionMessages(rejections)
      ensures files == Dropped(old(files), accepted, maxFiles)
      ensures completions == old(completions)
    {
      var k := 0;
      while k < |rejections|
        invariant 0 <= k <= |rejections|
        invariant errors == old(errors) + RejectionMessages(rejections[..k])
        invariant files == old(files) && completions == old(completions)
      {
        assert RejectionMessages(rejections[..k + 1]) == RejectionMessages(rejections[..k]) + [RejectionMessage(rejections[k])];
        errors := errors + [RejectionMessage(rejections[k])];
        k := k + 1;
      }
      assert rejections[..k] == rejections;
      files := Dropped(files, accepted, maxFiles);
    }

    /** `removeFile(index)`. */
    method RemoveFile(index: int)
      modifies this
      ensures files == RemoveAt(old(files), index)
      ensures errors == old(errors) && completions == old(completions)
    {
      files := RemoveAt(files, index);
    }

    /** `retryUpload(index)`. */
    method RetryUpload(index: int)
      modifies this
      ensures files == Retried(old(files), index)
      ensures errors == old(errors) && completions == old(completions)
    {
      files := Retried(files, index);
    }

    /**
     * `handleUpload()`: `outcome(file)` is the backend's answer to uploading `file`. Uploads are taken in queue
     * order; each failure reports its text through `onError`.
     */
    method HandleUpload(outcome: Types.BrowserFile -> Result<Json, ApiClient.Failure>)
      modifies this
      ensures contextId == "" ==>
        files == old(files) && errors == old(errors) + [ContextRequiredMessage] && completions == old(completions)
      ensures contextId != "" && Filter(old(files), IsPending) == [] ==>
        files == old(files) && errors == old(errors) && completions == old(completions)
      ensures contextId != "" && Filter(old(files), IsPending) != [] ==>
        var pending := Filter(old(files), IsPending);
        var settled := seq(|pending|, k requires 0 <= k < |pending| => Settle(pending[k], outcome(pending[k].file)));
        files == Merge(Started(old(files)), settled) &&
        errors == old(errors) + FailureTexts(settled) &&
        completions == old(completions) + (if SuccessfulIds(settled) != [] then [SuccessfulIds(settled)] else [])
    {
      if contextId == "" {
        errors := errors + [ContextRequiredMessage];
        return;
      }
      var pending := Filter(files, IsPending);
      if |pending| == 0 {
        return;
      }
      ghost var spec := seq(|pending|, k requires 0 <= k < |pending| => Settle(pending[k], outcome(pending[k].file)));
      files := Started(files);

      var settled: seq<UploadableFile> := [];
      var k := 0;
      while k < |pending|
        invariant 0 <= k <= |pending|
        invariant settled == spec[..k]
        invariant errors == old(errors) + FailureTexts(settled)
        invariant files == Started(old(files)) && completions == old(completions)
      {
        var s := Settle(pending[k], outcome(pending[k].file));
        assert spec[..k + 1] == settled + [s];
        FailureTextsSnoc(settled, s);
        if s.status == Error {
          errors := errors + [s.error.value];
        }
        settled := settled + [s];
        k := k + 1;
      }
      assert settled == spec;

      files := Merge(files, settled);
      var ids := SuccessfulIds(settled);
      if |ids| > 0 {
        completions := completions + [ids];
      }
    }
  }

  /** The `onError` texts of the failed uploads, in order. */
  function FailureTexts(settled: seq<UploadableFile>): seq<string>
    decreases |settled|
  {
    if |settled| == 0 then []
    else
      var s := settled[|settled| - 1];
      FailureTexts(settled[..|settled| - 1]) + (if s.status == Error && s.error.Some? then [s.error.value] else [])
  }

  lemma FailureTextsSnoc(settled: seq<UploadableFile>, s: UploadableFile)
    ensures FailureTexts(settled + [s]) ==
      FailureTexts(settled) + (if s.status == Error && s.error.Some? then [s.error.value] else [])
  {
    assert (settled + [s])[..|settled + [s]| - 1] == settled;
  }
}
