/** The hands service: a batch of file operations applied one after the other to the
    working copy, each reported by one result entry, none of them able to abort the batch. */
module Hands {
  import opened Common
  import opened CodeEditor

  datatype OperationKind = Create | Update | Delete

  /** `{type, filePath, description, context?}`; the description and context only steer the
      models, whose answers come in as an `EditOutcome`. */
  datatype FileOperation = FileOperation(kind: OperationKind, filePath: string, description: string, context: Option<string>)

  /** `{filePath, success, newContent?, error?}`. */
  datatype OperationResult = OperationResult(filePath: string, success: bool, newContent: Option<string>, error: Option<string>)

  /** One operation: a deletion removes the file, or fails with the store's message when it is
      missing; a creation or an update goes through the code editor, whose result is copied
      into the entry. */
  function OperationStep(files: map<string, string>, op: FileOperation, o: EditOutcome)
    : (r: (OperationResult, map<string, string>))
    ensures r.0.filePath == op.filePath
    ensures r.0.success <==> r.0.error.None?
    ensures op.kind == Delete ==>
              (r.0.success <==> op.filePath in files)
              && (r.0.success ==> r.1 == files - {op.filePath} && r.0.newContent.None?)
              && (!r.0.success ==>
                    r.1 == files
                    && r.0.error == Some("Failed to delete file " + op.filePath + ": " + MissingFileError(op.filePath)))
    ensures op.kind != Delete ==>
              var e := ApplyEdit(files, op.filePath, o);
              r.1 == e.1 && r.0.success == e.0.success && r.0.newContent == e.0.newContent && r.0.error == e.0.error
  {
    if op.kind == Delete then
      if op.filePath in files then (OperationResult(op.filePath, true, None, None), files - {op.filePath})
      else
        var message := "Failed to delete file " + op.filePath + ": " + ReadResult(files, op.filePath).error;
        (OperationResult(op.filePath, false, None, Some(message)), files)
    else
      var e := ApplyEdit(files, op.filePath, o);
      (OperationResult(op.filePath, e.0.success, e.0.newContent, e.0.error), e.1)
  }

  /** The batch as a whole: the operations in order, operation `i` getting outcome `i`. */
  function RunOperations(files: map<string, string>, ops: seq<FileOperation>, outcome: nat -> EditOutcome)
    : (r: (seq<OperationResult>, map<string, string>))
    ensures |r.0| == |ops|
    ensures forall i :: 0 <= i < |ops| ==> r.0[i].filePath == ops[i].filePath
    ensures forall i :: 0 <= i < |ops| ==> (r.0[i].success <==> r.0[i].error.None?)
    decreases |ops|
  {
    if ops == [] then ([], files)
    else
      var before := RunOperations(files, ops[..|ops| - 1], outcome);
      var step := OperationStep(before.1, ops[|ops| - 1], outcome(|ops| - 1));
      (before.0 + [step.0], step.1)
  }

  /** Creation and update are the same request: both let the editor decide by whether the
      file exists. */
  lemma CreateAndUpdateAlike(files: map<string, string>, op: FileOperation, o: EditOutcome)
    ensures OperationStep(files, op.(kind := Create), o) == OperationStep(files, op.(kind := Update), o)
  {
  }

  /** The results of a longer batch extend those of its first operations. */
  lemma {:induction false} RunOperationsPrefix(files: map<string, string>, ops: seq<FileOperation>, outcome: nat -> EditOutcome, n: nat)
    requires n <= |ops|
    ensures RunOperations(files, ops, outcome).0[..n] == RunOperations(files, ops[..n], outcome).0
    decreases |ops|
  {
    if n < |ops| {
      var init := ops[..|ops| - 1];
      assert init[..n] == ops[..n];
      assert RunOperations(files, ops, outcome).0[..|init|] == RunOperations(files, init, outcome).0;
      RunOperationsPrefix(files, init, outcome, n);
    } else {
      assert ops[..n] == ops;
    }
  }

  /** Deleting every file of a batch of deletions of distinct existing files leaves the
      working copy without them, and every entry reports success. */
  lemma {:induction false} DeletingExistingFiles(files: map<string, string>, ops: seq<FileOperation>, outcome: nat -> EditOutcome)
    requires forall i :: 0 <= i < |ops| ==> ops[i].kind == Delete && ops[i].filePath in files
    requires forall i, j :: 0 <= i < j < |ops| ==> ops[i].filePath != ops[j].filePath
    ensures var r := RunOperations(files, ops, outcome);
      (forall i :: 0 <= i < |ops| ==> r.0[i].success)
      && r.1 == files - set i | 0 <= i < |ops| :: ops[i].filePath
    decreases |ops|
  {
    if ops != [] {
      var init := ops[..|ops| - 1];
      var last := ops[|ops| - 1];
      assert last.filePath !in set i | 0 <= i < |init| :: init[i].filePath;
      assert (set i | 0 <= i < |ops| :: ops[i].filePath)
          == (set i | 0 <= i < |init| :: init[i].filePath) + {last.filePath};
      DeletingExistingFiles(files, init, outcome);
    }
  }

  /** One more operation extends the batch by its step. */
  lemma RunOperationsSnoc(files: map<string, string>, ops: seq<FileOperation>, outcome: nat -> EditOutcome, i: nat)
    requires i < |ops|
    ensures var before := RunOperations(files, ops[..i], outcome);
      var step := OperationStep(before.1, ops[i], outcome(i));
      RunOperations(files, ops[..i + 1], outcome) == (before.0 + [step.0], step.1)
  {
    assert ops[..i + 1][..i] == ops[..i];
  }

  /** `executeFileOperations`: one entry per operation, pushed in order; a failure is
      recorded and the loop goes on. */
  method ExecuteFileOperations(fs: FileStore, ops: seq<FileOperation>, outcome: nat -> EditOutcome)
    returns (results: seq<OperationResult>)
    modifies fs
    ensures (results, fs.files) == RunOperations(old(fs.files), ops, outcome)
  {
    results := [];
    var i := 0;
    while i < |ops|
      invariant 0 <= i <= |ops|
      invariant (results, fs.files) == RunOperations(old(fs.files), ops[..i], outcome)
    {
      var op := ops[i];
      ghost var before := fs.files;
      var entry: OperationResult;
      if op.kind == Delete {
        var deleted := fs.DeleteFile(op.filePath);
        if deleted.Ok? {
          entry := OperationResult(op.filePath, true, None, None);
        } else {
          entry := OperationResult(op.filePath, false, None, Some(deleted.error));
        }
      } else {
        var edit := ApplyCodeChanges(fs, op.filePath, outcome(i));
        entry := OperationResult(op.filePath, edit.success, edit.newContent, edit.error);
      }
      assert (entry, fs.files) == OperationStep(before, op, outcome(i));
      RunOperationsSnoc(old(fs.files), ops, outcome, i);
      results := results + [entry];
      i := i + 1;
    }
    assert ops[..i] == ops;
  }
}
