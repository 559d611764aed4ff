/** The debug loop: run a command, and while it fails ask the model for a diagnosis, let the
    hands apply the suggested edits and run the suggested extra commands, then try again, up
    to a retry bound. */
module DebugLoop {
  import opened Common
  import opened CodeEditor
  import opened CommandExecutor
  import opened Hands

  /** `{taskId, command, workDir, maxRetries, context?}`; `maxRetries` is a JavaScript
      number, `None` standing for `NaN`. */
  datatype DebugSession = DebugSession(taskId: string, command: string, workDir: string,
                                       maxRetries: Option<int>, context: Option<string>)

  /** One entry of `filesToModify`. */
  datatype FileChange = FileChange(path: string, changes: string)

  /** The model's error analysis. */
  datatype ErrorAnalysis = ErrorAnalysis(diagnosis: string, suggestedFix: string,
                                         filesToModify: seq<FileChange>, commandsToRun: seq<string>)

  /** `{attempt, error, diagnosis, fix, filesModified}`. */
  datatype Fix = Fix(attempt: nat, error: string, diagnosis: string, fix: string, filesModified: seq<string>)

  /** `{success, attempts, finalOutput, fixes}`. `attempts` is the bound itself when the
      retries run out, so it is a number that may be `NaN` (`None`); `finalOutput` is
      `undefined` (`None`) when the command never ran. */
  datatype DebugResult = DebugResult(success: bool, attempts: Option<int>, finalOutput: Option<ExecutionResult>,
                                     fixes: seq<Fix>)

  /** What the collaborators answer in one round: the sandbox's answer to the command, the
      model's analysis (or the error it threw), the editor's outcome for each file operation,
      and the error thrown by an extra command, if one of them throws. */
  datatype Round = Round(run: Result<ExecutionResult>, analysis: Result<ErrorAnalysis>,
                         edits: nat -> EditOutcome, extraFailure: Option<string>)

  /** `parseInt(MAX_RETRIES || '3')`: an unset or empty setting means 3. */
  function ConfiguredRetries(setting: Option<string>): (n: Option<int>)
    ensures setting.Some? && setting.value != "" ==> n == ParseInt(setting.value)
  {
    if setting.None? || setting.value == "" then ParseInt("3") else ParseInt(setting.value)
  }

  /** Without a setting the bound is three. */
  lemma DefaultRetries(setting: Option<string>)
    requires setting.None? || setting == Some("")
    ensures ConfiguredRetries(setting) == Some(3)
  {
    assert NatToString(3) == "3";
    ParseIntOfNatToString(3);
  }

  /** `parseInt` is called without a radix, so a hexadecimal setting counts in base 16:
      "0x10" allows sixteen retries, not zero. */
  lemma HexadecimalSetting()
    ensures ConfiguredRetries(Some("0x10")) == Some(16)
  {
    assert "0x10" == "0x" + "10";
    ParseIntOfHexText("10");
    assert "10"[..1] == "1";
  }

  /** `session.maxRetries || this.maxRetries`: zero and `NaN` are falsy. */
  function EffectiveBound(session: Option<int>, configured: Option<int>): (b: Option<int>)
    ensures session.Some? && session.value != 0 ==> b == session
    ensures session.None? || session.value == 0 ==> b == configured
  {
    if session.Some? && session.value != 0 then session else configured
  }

  /** How often `for (attempt = 0; attempt < bound; attempt++)` runs: never for `NaN` or a
      bound that is not positive. */
  function Iterations(bound: Option<int>): (n: nat)
    ensures bound.Some? && bound.value > 0 ==> n == bound.value
    ensures bound.None? || bound.value <= 0 ==> n == 0
  {
    if bound.Some? && bound.value > 0 then bound.value else 0
  }

  /** `stderr || stdout`. */
  function ErrorText(res: ExecutionResult): (t: string)
    ensures res.stderr != "" ==> t == res.stderr
    ensures res.stderr == "" ==> t == res.stdout
  {
    if res.stderr != "" then res.stderr else res.stdout
  }

  /** The operations `applyFixes` hands over: one update per suggested change, under the
      working directory. */
  function FixOperations(changes: seq<FileChange>, workDir: string): (ops: seq<FileOperation>)
    ensures |ops| == |changes|
    ensures forall i :: 0 <= i < |ops| ==>
              ops[i] == FileOperation(Update, workDir + "/" + changes[i].path, changes[i].changes, None)
  {
    if changes == [] then []
    else FixOperations(changes[..|changes| - 1], workDir)
         + [FileOperation(Update, workDir + "/" + changes[|changes| - 1].path, changes[|changes| - 1].changes, None)]
  }

  /** `results.filter(r => r.success).map(r => r.filePath)`. */
  function SuccessfulPaths(results: seq<OperationResult>): (paths: seq<string>)
    ensures |paths| <= |results|
  {
    if results == [] then []
    else
      var last := results[|results| - 1];
      SuccessfulPaths(results[..|results| - 1]) + (if last.success then [last.filePath] else [])
  }

  /** Filtering a concatenation filters each part. */
  lemma {:induction false} SuccessfulPathsAppend(a: seq<OperationResult>, b: seq<OperationResult>)
    ensures SuccessfulPaths(a + b) == SuccessfulPaths(a) + SuccessfulPaths(b)
    decreases |b|
  {
    if b == [] {
      assert a + b == a;
    } else {
      var init := b[..|b| - 1];
      assert (a + b)[..|a + b| - 1] == a + init;
      SuccessfulPathsAppend(a, init);
    }
  }

  /** A path is reported exactly when some successful operation has it. */
  lemma {:induction false} SuccessfulPathsMembers(results: seq<OperationResult>, p: string)
    ensures p in SuccessfulPaths(results) <==>
              exists i :: 0 <= i < |results| && results[i].success && results[i].filePath == p
  {
    if results != [] {
      var init := results[..|results| - 1];
      SuccessfulPathsMembers(init, p);
      if p in SuccessfulPaths(init) {
        var i :| 0 <= i < |init| && init[i].success && init[i].filePath == p;
        assert results[i] == init[i];
      }
      if exists i :: 0 <= i < |results| && results[i].success && results[i].filePath == p {
        var i :| 0 <= i < |results| && results[i].success && results[i].filePath == p;
        if i < |init| {
          assert init[i] == results[i];
        }
      }
    }
  }

  /** When every operation succeeded, every path is reported, in order. */
  lemma {:induction false} AllSuccessfulPaths(results: seq<OperationResult>)
    requires forall i :: 0 <= i < |results| ==> results[i].success
    ensures SuccessfulPaths(results) == seq(|results|, i requires 0 <= i < |results| => results[i].filePath)
  {
    if results != [] {
      AllSuccessfulPaths(results[..|results| - 1]);
    }
  }

  /** How the fixes of one round reach the working copy: from the files, the suggested
      changes and the editor's outcomes, the paths reported as modified and the new files. */
  type Applier = (map<string, string>, seq<FileChange>, nat -> EditOutcome) -> (seq<string>, map<string, string>)

  /** `applyFixes` through the hands: the changes become updates under `workDir`, and the
      paths of the successful ones are reported. */
  function HandsApplier(workDir: string): Applier {
    (files: map<string, string>, changes: seq<FileChange>, edits: nat -> EditOutcome) =>
      var applied := RunOperations(files, FixOperations(changes, workDir), edits);
      (SuccessfulPaths(applied.0), applied.1)
  }

  /** Every file the fixes report as modified lies under the working directory. */
  lemma FixedFilesUnderWorkDir(files: map<string, string>, changes: seq<FileChange>, workDir: string,
                               edits: nat -> EditOutcome)
    ensures forall p :: p in HandsApplier(workDir)(files, changes, edits).0 ==>
              exists i :: 0 <= i < |changes| && p == workDir + "/" + changes[i].path
  {
    var results := RunOperations(files, FixOperations(changes, workDir), edits).0;
    forall p | p in SuccessfulPaths(results)
      ensures exists i :: 0 <= i < |changes| && p == workDir + "/" + changes[i].path
    {
      SuccessfulPathsMembers(results, p);
    }
  }

  /** The loop from round `i` on, with the fixes recorded so far and the last result seen;
      the working copy is threaded through `apply`. An exception from the sandbox, the
      model or an extra command ends everything. */
  function DebugFrom(files: map<string, string>, bound: Option<int>, rounds: nat -> Round, apply: Applier,
                     i: nat, fixes: seq<Fix>, last: Option<ExecutionResult>)
    : (Result<DebugResult>, map<string, string>)
    decreases Iterations(bound) - i
  {
    if i >= Iterations(bound) then (Ok(DebugResult(false, bound, last, fixes)), files)
    else
      var round := rounds(i);
      match round.run
      case Err(e) => (Err(e), files)
      case Ok(res) =>
        if res.exitCode == 0 then (Ok(DebugResult(true, Some(i + 1), Some(res), fixes)), files)
        else
          match round.analysis
          case Err(e) => (Err(e), files)
          case Ok(analysis) =>
            var applied := apply(files, analysis.filesToModify, round.edits);
            var fix := Fix(i + 1, ErrorText(res), analysis.diagnosis, analysis.suggestedFix, applied.0);
            if |analysis.commandsToRun| > 0 && round.extraFailure.Some? then (Err(round.extraFailure.value), applied.1)
            else DebugFrom(applied.1, bound, rounds, apply, i + 1, fixes + [fix], Some(res))
  }

  /** `executeWithDebugLoop` as a whole. */
  function DebugLoop(files: map<string, string>, session: DebugSession, configured: Option<int>, rounds: nat -> Round)
    : (Result<DebugResult>, map<string, string>)
  {
    DebugFrom(files, EffectiveBound(session.maxRetries, configured), rounds, HandsApplier(session.workDir), 0, [], None)
  }

  /** The fixes of the first `i` rounds: one per failed run, numbered from 1, carrying that
      run's error text. */
  ghost predicate FixesOfFailures(rounds: nat -> Round, fixes: seq<Fix>)
  {
    forall j :: 0 <= j < |fixes| ==>
      rounds(j).run.Ok? && rounds(j).run.value.exitCode != 0
      && fixes[j].attempt == j + 1 && fixes[j].error == ErrorText(rounds(j).run.value)
  }

  /** What a finished loop reports: a fix for every failed run; on success the number of
      runs and the passing run's output; on exhaustion a fix for each of the `bound` runs, and
      the last run's output if there was one. */
  ghost predicate Reported(rounds: nat -> Round, bound: Option<int>, r: Result<DebugResult>)
  {
    r.Ok? ==>
      FixesOfFailures(rounds, r.value.fixes)
      && (r.value.success ==>
            |r.value.fixes| < Iterations(bound) && r.value.attempts == Some(|r.value.fixes| + 1)
            && r.value.finalOutput.Some? && r.value.finalOutput.value.exitCode == 0
            && rounds(|r.value.fixes|).run == Ok(r.value.finalOutput.value))
      && (!r.value.success ==>
            |r.value.fixes| == Iterations(bound) && r.value.attempts == bound
            && (Iterations(bound) == 0 ==> r.value.finalOutput.None?)
            && (Iterations(bound) > 0 ==> r.value.finalOutput == Some(rounds(Iterations(bound) - 1).run.value)))
  }

  /** One more failed run extends the fixes of the earlier ones. */
  lemma FixesGrow(rounds: nat -> Round, fixes: seq<Fix>, fix: Fix)
    requires FixesOfFailures(rounds, fixes)
    requires rounds(|fixes|).run.Ok? && rounds(|fixes|).run.value.exitCode != 0
    requires fix.attempt == |fixes| + 1 && fix.error == ErrorText(rounds(|fixes|).run.value)
    ensures FixesOfFailures(rounds, fixes + [fix])
  {
    forall j | 0 <= j < |fixes + [fix]|
      ensures rounds(j).run.Ok? && rounds(j).run.value.exitCode != 0
              && (fixes + [fix])[j].attempt == j + 1
              && (fixes + [fix])[j].error == ErrorText(rounds(j).run.value)
    {
      if j < |fixes| {
        assert (fixes + [fix])[j] == fixes[j];
      }
    }
  }

  /** What a finished loop reports, from any round on. */
  lemma {:induction false} DebugFromOutcome(files: map<string, string>, bound: Option<int>, rounds: nat -> Round,
                                            apply: Applier, i: nat, fixes: seq<Fix>, last: Option<ExecutionResult>)
    requires i <= Iterations(bound) && |fixes| == i && FixesOfFailures(rounds, fixes)
    requires i == 0 ==> last.None?
    requires i > 0 ==> last == Some(rounds(i - 1).run.value)
    ensures Reported(rounds, bound, DebugFrom(files, bound, rounds, apply, i, fixes, last).0)
    decreases Iterations(bound) - i
  {
    if i < Iterations(bound) {
      var round := rounds(i);
      if round.run.Ok? && round.run.value.exitCode != 0 && round.analysis.Ok? {
        var res := round.run.value;
        var analysis := round.analysis.value;
        if !(|analysis.commandsToRun| > 0 && round.extraFailure.Some?) {
          var applied := apply(files, analysis.filesToModify, round.edits);
          var fix := Fix(i + 1, ErrorText(res), analysis.diagnosis, analysis.suggestedFix, applied.0);
          DebugStep(files, bound, rounds, apply, i, fixes, last, res, analysis);
          FixesGrow(rounds, fixes, fix);
          DebugFromOutcome(applied.1, bound, rounds, apply, i + 1, fixes + [fix], Some(res));
        }
      }
    }
  }

  /** `executeWithDebugLoop`'s promises: at most `bound` runs; success on the first run that
      exits with 0, after one fix per earlier failure; otherwise, once the retries are spent,
      failure with `attempts` equal to the bound and a fix for every run, the last included. */
  lemma DebugLoopOutcome(files: map<string, string>, session: DebugSession, configured: Option<int>, rounds: nat -> Round)
    ensures Reported(rounds, EffectiveBound(session.maxRetries, configured), DebugLoop(files, session, configured, rounds).0)
  {
    DebugFromOutcome(files, EffectiveBound(session.maxRetries, configured), rounds, HandsApplier(session.workDir), 0, [], None);
  }

  /** A command that passes on its first run succeeds at once, without fixes and without
      touching the working copy. */
  lemma FirstRunPasses(files: map<string, string>, session: DebugSession, configured: Option<int>, rounds: nat -> Round)
    requires Iterations(EffectiveBound(session.maxRetries, configured)) > 0
    requires rounds(0).run.Ok? && rounds(0).run.value.exitCode == 0
    ensures DebugLoop(files, session, configured, rounds)
            == (Ok(DebugResult(true, Some(1), Some(rounds(0).run.value), [])), files)
  {
  }

  /** A `NaN` or non-positive bound never runs the command: the result is a failure with no
      output and no fixes. */
  lemma NoRetriesNoRun(files: map<string, string>, session: DebugSession, configured: Option<int>, rounds: nat -> Round)
    requires Iterations(EffectiveBound(session.maxRetries, configured)) == 0
    ensures DebugLoop(files, session, configured, rounds)
            == (Ok(DebugResult(false, EffectiveBound(session.maxRetries, configured), None, [])), files)
  {
  }

  /** One round of the loop, on the working copy, with the tail of the loop unchanged. */
  lemma DebugStep(files: map<string, string>, bound: Option<int>, rounds: nat -> Round, apply: Applier,
                  i: nat, fixes: seq<Fix>, last: Option<ExecutionResult>, res: ExecutionResult, analysis: ErrorAnalysis)
    requires i < Iterations(bound) && rounds(i).run == Ok(res) && res.exitCode != 0 && rounds(i).analysis == Ok(analysis)
    requires !(|analysis.commandsToRun| > 0 && rounds(i).extraFailure.Some?)
    ensures var applied := apply(files, analysis.filesToModify, rounds(i).edits);
      DebugFrom(files, bound, rounds, apply, i, fixes, last)
      == DebugFrom(applied.1, bound, rounds, apply, i + 1,
                   fixes + [Fix(i + 1, ErrorText(res), analysis.diagnosis, analysis.suggestedFix, applied.0)], Some(res))
  {
  }

  /** `applyFixes`: the edits go through the hands; the paths of the successful ones come
      back in order. */
  method ApplyFixes(fs: FileStore, changes: seq<FileChange>, workDir: string, edits: nat -> EditOutcome)
    returns (paths: seq<string>)
    modifies fs
    ensures (paths, fs.files) == HandsApplier(workDir)(old(fs.files), changes, edits)
  {
    var results := ExecuteFileOperations(fs, FixOperations(changes, workDir), edits);
    paths := SuccessfulPaths(results);
  }

  /** `executeWithDebugLoop`. */
  method ExecuteWithDebugLoop(fs: FileStore, session: DebugSession, configured: Option<int>, rounds: nat -> Round)
    returns (r: Result<DebugResult>)
    modifies fs
    ensures (r, fs.files) == DebugLoop(old(fs.files), session, configured, rounds)
  {
    var bound := EffectiveBound(session.maxRetries, configured);
    ghost var apply := HandsApplier(session.workDir);
    var n := Iterations(bound);
    var fixes: seq<Fix> := [];
    var last: Option<ExecutionResult> := None;
    var attempt := 0;
    while attempt < n
      invariant attempt <= n
      invariant DebugFrom(fs.files, bound, rounds, apply, attempt, fixes, last)
                == DebugLoop(old(fs.files), session, configured, rounds)
      decreases n - attempt
    {
      var round := rounds(attempt);
      if round.run.Err? {
        return Err(round.run.error);
      }
      var res := round.run.value;
      last := Some(res);
      if res.exitCode == 0 {
        return Ok(DebugResult(true, Some(attempt + 1), Some(res), fixes));
      }
      if round.analysis.Err? {
        return Err(round.analysis.error);
      }
      var analysis := round.analysis.value;
      ghost var before := fs.files;
      var modified := ApplyFixes(fs, analysis.filesToModify, session.workDir, round.edits);
      if |analysis.commandsToRun| > 0 && round.extraFailure.Some? {
        return Err(round.extraFailure.value);
      }
      DebugStep(before, bound, rounds, apply, attempt, fixes, last, res, analysis);
      fixes := fixes + [Fix(attempt + 1, ErrorText(res), analysis.diagnosis, analysis.suggestedFix, modified)];
      attempt := attempt + 1;
    }
    return Ok(DebugResult(false, bound, last, fixes));
  }

  /** The session `runTestsWithFixes` starts: the configured bound and the test command in
      front of the caller's context. */
  function TestSession(taskId: string, testCommand: string, workDir: string, context: Option<string>,
                       configured: Option<int>): (s: DebugSession)
    ensures s.command == testCommand && s.workDir == workDir
    ensures s.context == Some("Running tests: " + testCommand + "\n" + context.GetOr(""))
  {
    DebugSession(taskId, testCommand, workDir, configured, Some("Running tests: " + testCommand + "\n" + context.GetOr("")))
  }

  /** Test runs always use the configured bound. */
  lemma TestSessionBound(taskId: string, testCommand: string, workDir: string, context: Option<string>, configured: Option<int>)
    ensures EffectiveBound(TestSession(taskId, testCommand, workDir, context, configured).maxRetries, configured) == configured
  {
  }

  /** `runTestsWithFixes`. */
  method RunTestsWithFixes(fs: FileStore, taskId: string, testCommand: string, workDir: string, context: Option<string>,
                           configured: Option<int>, rounds: nat -> Round)
    returns (r: Result<DebugResult>)
    modifies fs
    ensures (r, fs.files) == DebugLoop(old(fs.files), TestSession(taskId, testCommand, workDir, context, configured),
                                       configured, rounds)
  {
    r := ExecuteWithDebugLoop(fs, TestSession(taskId, testCommand, workDir, context, configured), configured, rounds);
  }
}
