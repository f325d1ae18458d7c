/** The upload panel: a list of file records that start out uploading, are
    marked complete by a timer, and can be removed. */
module Upload {
  import opened Options
  import opened Lists

  datatype FileStatus = Uploading | Complete | Error

  datatype UploadedFile = UploadedFile(id: string, name: string, size: nat, mimeType: string, status: FileStatus)

  /** What the component reads from a browser `File`. */
  datatype PickedFile = PickedFile(name: string, size: nat, mimeType: string)

  /** The record created for a picked file. */
  function NewRecord(f: PickedFile, id: string): UploadedFile {
    UploadedFile(id, f.name, f.size, f.mimeType, Uploading)
  }

  /** The records one call of `handleFileUpload` appends, one per file, with
      the ids the caller drew for them. */
  function NewRecords(files: seq<PickedFile>, ids: seq<string>): (r: seq<UploadedFile>)
    requires |ids| == |files|
    ensures |r| == |files|
    ensures forall i :: 0 <= i < |files| ==>
      r[i].id == ids[i] && r[i].name == files[i].name && r[i].size == files[i].size
      && r[i].mimeType == files[i].mimeType && r[i].status == Uploading
  {
    seq(|files|, i requires 0 <= i < |files| => NewRecord(files[i], ids[i]))
  }

  /** The timer's `map`: every record with the id becomes complete. */
  function MarkComplete(files: seq<UploadedFile>, id: string): seq<UploadedFile>
  {
    if files == [] then []
    else [if files[0].id == id then files[0].(status := Complete) else files[0]]
         + MarkComplete(files[1..], id)
  }

  /** `removeFile`'s `filter`: the records whose id differs, in order. */
  function RemoveFile(files: seq<UploadedFile>, id: string): seq<UploadedFile>
  {
    if files == [] then []
    else (if files[0].id != id then [files[0]] else []) + RemoveFile(files[1..], id)
  }

  predicate HasId(files: seq<UploadedFile>, id: string) {
    exists f :: f in files && f.id == id
  }

  /** No record is in the error state. */
  predicate NoErrors(files: seq<UploadedFile>) {
    forall f :: f in files ==> f.status != Error
  }

  /** Marking complete keeps length and position; a record with the id changes
      only its status, to complete; any other record is untouched. */
  lemma {:induction false} MarkCompleteAt(files: seq<UploadedFile>, id: string, i: int)
    requires 0 <= i < |files|
    ensures |MarkComplete(files, id)| == |files|
    ensures var f, r := files[i], MarkComplete(files, id)[i];
      if f.id == id then r == f.(status := Complete) else r == f
  {
    if i > 0 {
      MarkCompleteAt(files[1..], id, i - 1);
    } else {
      MarkCompleteLength(files[1..], id);
    }
  }

  lemma {:induction false} MarkCompleteLength(files: seq<UploadedFile>, id: string)
    ensures |MarkComplete(files, id)| == |files|
  {
    if files != [] {
      MarkCompleteLength(files[1..], id);
    }
  }

  /** Completion for an id no record has (one already removed, say) is a
      no-op. */
  lemma {:induction false} MarkCompleteAbsent(files: seq<UploadedFile>, id: string)
    requires !HasId(files, id)
    ensures MarkComplete(files, id) == files
  {
    if files != [] {
      assert files[0] in files;
      assert !HasId(files[1..], id) by {
        forall f | f in files[1..] ensures f.id != id {
          assert f in files;
        }
      }
      MarkCompleteAbsent(files[1..], id);
    }
  }

  /** Marking complete twice is marking complete once. */
  lemma {:induction false} MarkCompleteIdempotent(files: seq<UploadedFile>, id: string)
    ensures MarkComplete(MarkComplete(files, id), id) == MarkComplete(files, id)
  {
    if files != [] {
      MarkCompleteIdempotent(files[1..], id);
    }
  }

  /** Marking complete never produces an error record. */
  lemma {:induction false} MarkCompleteNoErrors(files: seq<UploadedFile>, id: string)
    requires NoErrors(files)
    ensures NoErrors(MarkComplete(files, id))
  {
    if files != [] {
      assert files[0] in files;
      assert NoErrors(files[1..]) by {
        forall f | f in files[1..] ensures f.status != Error {
          assert f in files;
        }
      }
      MarkCompleteNoErrors(files[1..], id);
    }
  }

  /** A record survives removal exactly when it was there and has another
      id. */
  lemma {:induction false} RemoveFileMembership(files: seq<UploadedFile>, id: string, f: UploadedFile)
    ensures f in RemoveFile(files, id) <==> f in files && f.id != id
  {
    if files != [] {
      RemoveFileMembership(files[1..], id, f);
      assert files == [files[0]] + files[1..];
    }
  }

  /** Removal keeps the other records in their order. */
  lemma {:induction false} RemoveFileSubsequence(files: seq<UploadedFile>, id: string)
    ensures IsSubsequence(RemoveFile(files, id), files)
  {
    if files != [] {
      RemoveFileSubsequence(files[1..], id);
      assert files == [files[0]] + files[1..];
      if files[0].id != id {
        SubsequenceKeep(files[0], RemoveFile(files[1..], id), files[1..]);
      } else {
        assert RemoveFile(files, id) == RemoveFile(files[1..], id);
        SubsequenceSkip(files[0], RemoveFile(files[1..], id), files[1..]);
      }
    }
  }

  /** Removal keeps every record with another id as many times as it
      occurred and drops every record with the id; with
      `RemoveFileSubsequence` this fixes the result exactly, repeated
      records included. */
  lemma {:induction false} RemoveFileCounts(files: seq<UploadedFile>, id: string, f: UploadedFile)
    ensures multiset(RemoveFile(files, id))[f] == if f.id == id then 0 else multiset(files)[f]
  {
    if files != [] {
      RemoveFileCounts(files[1..], id, f);
      assert files == [files[0]] + files[1..];
    }
  }

  /** Removing an id no record has changes nothing. */
  lemma {:induction false} RemoveFileAbsent(files: seq<UploadedFile>, id: string)
    requires !HasId(files, id)
    ensures RemoveFile(files, id) == files
  {
    if files != [] {
      assert files[0] in files;
      assert !HasId(files[1..], id) by {
        forall f | f in files[1..] ensures f.id != id {
          assert f in files;
        }
      }
      RemoveFileAbsent(files[1..], id);
      assert files == [files[0]] + files[1..];
    }
  }

  /** After removal no record has the id. */
  lemma RemoveFileRemoves(files: seq<UploadedFile>, id: string)
    ensures !HasId(RemoveFile(files, id), id)
  {
    forall f | f in RemoveFile(files, id) ensures f.id != id {
      RemoveFileMembership(files, id, f);
    }
  }

  /** Removing twice is removing once. */
  lemma RemoveFileIdempotent(files: seq<UploadedFile>, id: string)
    ensures RemoveFile(RemoveFile(files, id), id) == RemoveFile(files, id)
  {
    RemoveFileRemoves(files, id);
    RemoveFileAbsent(RemoveFile(files, id), id);
  }

  /** A completion timer that fires after its record was removed leaves the
      list as the removal left it. */
  lemma CompleteAfterRemove(files: seq<UploadedFile>, id: string)
    ensures MarkComplete(RemoveFile(files, id), id) == RemoveFile(files, id)
  {
    RemoveFileRemoves(files, id);
    MarkCompleteAbsent(RemoveFile(files, id), id);
  }

  /** Removal never produces an error record. */
  lemma RemoveFileNoErrors(files: seq<UploadedFile>, id: string)
    requires NoErrors(files)
    ensures NoErrors(RemoveFile(files, id))
  {
    forall f | f in RemoveFile(files, id) ensures f.status != Error {
      RemoveFileMembership(files, id, f);
    }
  }

  /** The component's state. `pending` holds the ids of the records whose
      completion timers have not fired yet; the drag-highlight flag is left
      out. */
  class DocumentUpload {
    var uploadedFiles: seq<UploadedFile>
    var pending: multiset<string>

    /** No operation ever sets the error status. */
    ghost predicate Valid()
      reads this
    {
      NoErrors(uploadedFiles)
    }

    constructor ()
      ensures Valid() && uploadedFiles == [] && pending == multiset{}
    {
      uploadedFiles := [];
      pending := multiset{};
    }

    /** `handleFileUpload(files)`: `None` stands for a null file list. Each
        file is appended as an uploading record with the id drawn for it, and
        its completion timer is scheduled. */
    method HandleFileUpload(files: Option<seq<PickedFile>>, ids: seq<string>)
      requires Valid()
      requires files.Some? ==> |ids| == |files.value|
      modifies this
      ensures Valid()
      ensures files.None? ==> uploadedFiles == old(uploadedFiles) && pending == old(pending)
      ensures files.Some? ==> uploadedFiles == old(uploadedFiles) + NewRecords(files.value, ids)
      ensures files.Some? ==> pending == old(pending) + multiset(ids)
    {
      if files.None? {
        return;
      }
      var fs := files.value;
      var i := 0;
      while i < |fs|
        invariant 0 <= i <= |fs|
        invariant uploadedFiles == old(uploadedFiles) + NewRecords(fs[..i], ids[..i])
        invariant pending == old(pending) + multiset(ids[..i])
        invariant Valid()
      {
        var newFile := NewRecord(fs[i], ids[i]);
        assert NewRecords(fs[..i + 1], ids[..i + 1]) == NewRecords(fs[..i], ids[..i]) + [newFile];
        assert ids[..i + 1] == ids[..i] + [ids[i]];
        uploadedFiles := uploadedFiles + [newFile];
        pending := pending + multiset{ids[i]};
        i := i + 1;
      }
      assert fs[..i] == fs && ids[..i] == ids;
    }

    /** A completion timer fires for the record it was scheduled for. */
    method CompleteUpload(id: string)
      requires Valid()
      requires id in pending
      modifies this
      ensures Valid()
      ensures uploadedFiles == MarkComplete(old(uploadedFiles), id)
      ensures pending == old(pending) - multiset{id}
    {
      MarkCompleteNoErrors(uploadedFiles, id);
      uploadedFiles := MarkComplete(uploadedFiles, id);
      pending := pending - multiset{id};
    }

    /** `removeFile(id)`, the remove button of a record. */
    method RemoveFileById(id: string)
      requires Valid()
      modifies this`uploadedFiles
      ensures Valid()
      ensures uploadedFiles == RemoveFile(old(uploadedFiles), id)
    {
      RemoveFileNoErrors(uploadedFiles, id);
      uploadedFiles := RemoveFile(uploadedFiles, id);
    }
  }
}
