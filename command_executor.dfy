/** The command executor: every command runs in the sandbox and leaves an execution record
    whose status follows the exit code; a batch runs its commands in order and stops right
    after the first one that fails. */
module CommandExecutor {
  import opened Common

  /** What the sandbox reports for one command. */
  datatype ExecutionResult = ExecutionResult(stdout: string, stderr: string, exitCode: int, duration: nat, containerId: string)

  datatype ExecutionType = TEST | BUILD | INSTALL | SCRIPT | COMMAND

  /** `detectExecutionType`: the first matching class in the order test, build, install,
      script. */
  function DetectExecutionType(command: string): (t: ExecutionType)
    ensures t == TEST <==> Contains(command, "test") || Contains(command, "jest") || Contains(command, "mocha")
    ensures t == BUILD <==> t != TEST && (Contains(command, "build") || Contains(command, "compile"))
    ensures t == INSTALL <==> t != TEST && t != BUILD
                              && (Contains(command, "install") || Contains(command, "npm i") || Contains(command, "yarn add"))
    ensures t == SCRIPT <==> t != TEST && t != BUILD && t != INSTALL
                             && (Contains(command, "npm run") || Contains(command, "yarn"))
  {
    if Contains(command, "test") || Contains(command, "jest") || Contains(command, "mocha") then TEST
    else if Contains(command, "build") || Contains(command, "compile") then BUILD
    else if Contains(command, "install") || Contains(command, "npm i") || Contains(command, "yarn add") then INSTALL
    else if Contains(command, "npm run") || Contains(command, "yarn") then SCRIPT
    else COMMAND
  }

  /** A command that mentions a test runner is a test run, whatever else it mentions. */
  lemma TestWinsOverEverything(pre: string, post: string)
    ensures DetectExecutionType(pre + "jest" + post) == TEST
  {
    assert ("jest" + post)[..4] == "jest";
    assert OccursAt(pre + "jest" + post, "jest", |pre|) by {
      assert (pre + "jest" + post)[|pre|..|pre| + 4] == "jest";
    }
    ContainsIff(pre + "jest" + post, "jest");
  }

  /** `{command, workDir, env?, timeout?, sandboxed?}`. */
  datatype CommandExecution = CommandExecution(command: string, workDir: string, sandboxed: Option<bool>)

  /** A row of the execution table. */
  datatype ExecutionRecord = ExecutionRecord(
    taskId: string,
    kind: ExecutionType,
    command: string,
    workingDir: string,
    status: ExecutionStatus,
    sandboxed: bool,
    stdout: Option<string>,
    stderr: Option<string>,
    exitCode: Option<int>,
    duration: Option<nat>,
    containerId: Option<string>)

  datatype ExecutionStatus = RUNNING | SUCCESS | FAILED

  /** The record as created, before the command runs. */
  function StartedRecord(taskId: string, execution: CommandExecution): ExecutionRecord {
    ExecutionRecord(taskId, DetectExecutionType(execution.command), execution.command, execution.workDir,
                    RUNNING, execution.sandboxed != Some(false), None, None, None, None, None)
  }

  /** The record once the sandbox has answered or thrown. */
  function FinishedRecord(taskId: string, execution: CommandExecution, outcome: Result<ExecutionResult>)
    : ExecutionRecord
  {
    var started := StartedRecord(taskId, execution);
    match outcome
    case Ok(res) =>
      started.(stdout := Some(res.stdout), stderr := Some(res.stderr), exitCode := Some(res.exitCode),
               duration := Some(res.duration), containerId := Some(res.containerId),
               status := if res.exitCode == 0 then SUCCESS else FAILED)
    case Err(e) =>
      started.(stderr := Some(e), exitCode := Some(1), status := FAILED)
  }

  /** A record ends as SUCCESS exactly when the command ran and exited with 0. */
  lemma FinishedRecordStatus(taskId: string, execution: CommandExecution, outcome: Result<ExecutionResult>)
    ensures FinishedRecord(taskId, execution, outcome).status == SUCCESS <==> outcome.Ok? && outcome.value.exitCode == 0
    ensures FinishedRecord(taskId, execution, outcome).status != SUCCESS ==> FinishedRecord(taskId, execution, outcome).status == FAILED
    ensures FinishedRecord(taskId, execution, outcome).sandboxed <==> execution.sandboxed != Some(false)
    ensures FinishedRecord(taskId, execution, outcome).kind == DetectExecutionType(execution.command)
    ensures outcome.Ok? ==> FinishedRecord(taskId, execution, outcome).exitCode == Some(outcome.value.exitCode) && FinishedRecord(taskId, execution, outcome).stdout == Some(outcome.value.stdout)
                            && FinishedRecord(taskId, execution, outcome).stderr == Some(outcome.value.stderr)
    ensures outcome.Err? ==> FinishedRecord(taskId, execution, outcome).exitCode == Some(1) && FinishedRecord(taskId, execution, outcome).stderr == Some(outcome.error) && FinishedRecord(taskId, execution, outcome).stdout.None?
  {
  }

  /** The results of a batch from command `i` on, `runs[j]` being the sandbox's answer to
      command `j`: each result is kept, and the batch stops after the first non-zero exit; a
      thrown error ends it with that error. */
  function BatchFrom(runs: seq<Result<ExecutionResult>>, i: nat): Result<seq<ExecutionResult>>
    requires i <= |runs|
    decreases |runs| - i
  {
    if i == |runs| then Ok([])
    else match runs[i]
      case Err(e) => Err(e)
      case Ok(res) =>
        if res.exitCode != 0 then Ok([res])
        else match BatchFrom(runs, i + 1)
          case Err(e) => Err(e)
          case Ok(rest) => Ok([res] + rest)
  }

  /** What a batch reports: the answers of the commands it ran, all but the last with exit
      code 0, and a shorter list only when the last one failed; or the error one of them threw. */
  lemma {:induction false} BatchShape(runs: seq<Result<ExecutionResult>>, i: nat)
    requires i <= |runs|
    ensures BatchFrom(runs, i).Ok? ==> |BatchFrom(runs, i).value| <= |runs| - i
    ensures BatchFrom(runs, i).Ok? ==> forall j :: 0 <= j < |BatchFrom(runs, i).value| ==> runs[i + j] == Ok(BatchFrom(runs, i).value[j])
    ensures BatchFrom(runs, i).Ok? ==> forall j :: 0 <= j < |BatchFrom(runs, i).value| - 1 ==> BatchFrom(runs, i).value[j].exitCode == 0
    ensures BatchFrom(runs, i).Ok? && |BatchFrom(runs, i).value| < |runs| - i ==> BatchFrom(runs, i).value != [] && BatchFrom(runs, i).value[|BatchFrom(runs, i).value| - 1].exitCode != 0
    ensures BatchFrom(runs, i).Ok? && i < |runs| ==> BatchFrom(runs, i).value != []
    ensures BatchFrom(runs, i).Err? ==> exists j :: i <= j < |runs| && runs[j] == Err(BatchFrom(runs, i).error)
    decreases |runs| - i
  {
    if i < |runs| && !Stops(runs, i) {
      BatchShape(runs, i + 1);
      match BatchFrom(runs, i + 1) {
        case Err(_) =>
        case Ok(rest) =>
          assert BatchFrom(runs, i).value == [runs[i].value] + rest;
      }
    }
  }

  /** Whether command `i` ends the batch. */
  predicate Stops(runs: seq<Result<ExecutionResult>>, i: nat)
    requires i < |runs|
  {
    runs[i].Err? || runs[i].value.exitCode != 0
  }

  /** The number of commands a batch started from `i` attempts. */
  function AttemptedFrom(runs: seq<Result<ExecutionResult>>, i: nat): (k: nat)
    requires i <= |runs|
    ensures i < |runs| ==> 1 <= k <= |runs| - i
    ensures i == |runs| ==> k == 0
    decreases |runs| - i
  {
    if i == |runs| then 0
    else if Stops(runs, i) then 1
    else 1 + AttemptedFrom(runs, i + 1)
  }

  /** A successful batch attempted exactly the commands it reports. */
  lemma {:induction false} BatchReportsEveryAttempt(runs: seq<Result<ExecutionResult>>, i: nat)
    requires i <= |runs| && BatchFrom(runs, i).Ok?
    ensures |BatchFrom(runs, i).value| == AttemptedFrom(runs, i)
    decreases |runs| - i
  {
    if i < |runs| && !Stops(runs, i) {
      BatchReportsEveryAttempt(runs, i + 1);
    }
  }

  /** A batch whose commands all succeed reports every one of them. */
  lemma {:induction false} BatchOfSuccesses(runs: seq<Result<ExecutionResult>>, i: nat)
    requires i <= |runs|
    requires forall j :: i <= j < |runs| ==> runs[j].Ok? && runs[j].value.exitCode == 0
    ensures BatchFrom(runs, i).Ok? && |BatchFrom(runs, i).value| == |runs| - i
    decreases |runs| - i
  {
    if i < |runs| {
      BatchOfSuccesses(runs, i + 1);
    }
  }

  function Prepend(done: seq<ExecutionResult>, r: Result<seq<ExecutionResult>>): Result<seq<ExecutionResult>> {
    match r
    case Ok(rest) => Ok(done + rest)
    case Err(e) => Err(e)
  }

  lemma BatchStep(runs: seq<Result<ExecutionResult>>, i: nat, done: seq<ExecutionResult>)
    requires i < |runs| && !Stops(runs, i)
    ensures Prepend(done + [runs[i].value], BatchFrom(runs, i + 1)) == Prepend(done, BatchFrom(runs, i))
  {
    match BatchFrom(runs, i + 1) {
      case Err(_) =>
      case Ok(rest) =>
        assert done + [runs[i].value] + rest == done + ([runs[i].value] + rest);
    }
  }

  /** Commands that all exited with 0 only put their results in front of the rest. */
  lemma {:induction false} BatchSkipsSuccesses(runs: seq<Result<ExecutionResult>>, i: nat, done: seq<ExecutionResult>)
    requires i <= |runs| && |done| == i
    requires forall j :: 0 <= j < i ==> runs[j] == Ok(done[j]) && done[j].exitCode == 0
    ensures BatchFrom(runs, 0) == Prepend(done, BatchFrom(runs, i))
    ensures AttemptedFrom(runs, 0) == i + AttemptedFrom(runs, i)
  {
    if i == 0 {
      match BatchFrom(runs, 0) {
        case Err(_) =>
        case Ok(all) => assert done + all == all;
      }
    } else {
      var init := done[..i - 1];
      BatchSkipsSuccesses(runs, i - 1, init);
      BatchStep(runs, i - 1, init);
      assert init + [runs[i - 1].value] == done;
    }
  }

  /** A batch whose first `i` commands exited with 0 stops at command `i` when it fails. */
  lemma BatchStopsAt(runs: seq<Result<ExecutionResult>>, i: nat, done: seq<ExecutionResult>)
    requires i < |runs| && |done| == i
    requires forall j :: 0 <= j < i ==> runs[j] == Ok(done[j]) && done[j].exitCode == 0
    requires Stops(runs, i)
    ensures BatchFrom(runs, 0) == if runs[i].Err? then Err(runs[i].error) else Ok(done + [runs[i].value])
    ensures AttemptedFrom(runs, 0) == i + 1
  {
    BatchSkipsSuccesses(runs, i, done);
  }

  /** A batch whose commands all exited with 0 reports all of them. */
  lemma BatchCompletes(runs: seq<Result<ExecutionResult>>, done: seq<ExecutionResult>)
    requires |done| == |runs|
    requires forall j :: 0 <= j < |runs| ==> runs[j] == Ok(done[j]) && done[j].exitCode == 0
    ensures BatchFrom(runs, 0) == Ok(done)
    ensures AttemptedFrom(runs, 0) == |runs|
  {
    BatchSkipsSuccesses(runs, |runs|, done);
    assert done + [] == done;
  }

  /** The records a batch leaves for its first `k` commands. */
  function BatchRecords(taskId: string, commands: seq<string>, workDir: string, runs: seq<Result<ExecutionResult>>, k: nat)
    : (recs: seq<ExecutionRecord>)
    requires k <= |commands| && k <= |runs|
    ensures |recs| == k
  {
    if k == 0 then []
    else BatchRecords(taskId, commands, workDir, runs, k - 1)
         + [FinishedRecord(taskId, CommandExecution(commands[k - 1], workDir, None), runs[k - 1])]
  }

  /** One more command that exited with 0 extends the successful prefix. */
  lemma SuccessesGrow(runs: seq<Result<ExecutionResult>>, done: seq<ExecutionResult>, i: nat)
    requires i == |done| && i < |runs|
    requires forall j :: 0 <= j < i ==> runs[j] == Ok(done[j]) && done[j].exitCode == 0
    requires !Stops(runs, i)
    ensures forall j :: 0 <= j < i + 1 ==> runs[j] == Ok((done + [runs[i].value])[j]) && (done + [runs[i].value])[j].exitCode == 0
  {
  }

  /** The records of one more command extend those of the commands before it. */
  lemma BatchRecordsGrow(prior: seq<ExecutionRecord>, taskId: string, commands: seq<string>, workDir: string,
                         runs: seq<Result<ExecutionResult>>, i: nat)
    requires i < |commands| && i < |runs|
    ensures prior + BatchRecords(taskId, commands, workDir, runs, i)
              + [FinishedRecord(taskId, CommandExecution(commands[i], workDir, None), runs[i])]
            == prior + BatchRecords(taskId, commands, workDir, runs, i + 1)
  {
  }

  /** The execution table, appended to by every command run. */
  class CommandExecutorService {
    var executions: seq<ExecutionRecord>

    constructor()
      ensures executions == []
    {
      executions := [];
    }

    /** `executeCommand`: a RUNNING record first, then its final status; the sandbox's error
        is rethrown after being recorded. */
    method ExecuteCommand(taskId: string, execution: CommandExecution, outcome: Result<ExecutionResult>)
      returns (r: Result<ExecutionResult>)
      modifies this
      ensures r == outcome
      ensures executions == old(executions) + [FinishedRecord(taskId, execution, outcome)]
    {
      executions := executions + [StartedRecord(taskId, execution)];
      var id := |executions| - 1;
      executions := executions[id := FinishedRecord(taskId, execution, outcome)];
      r := outcome;
    }

    /** `executeMultipleCommands`: sequential, stopping after the first non-zero exit; a thrown
        error propagates. `runs` holds the sandbox's answer to each command. */
    method ExecuteMultipleCommands(taskId: string, commands: seq<string>, workDir: string,
                                   runs: seq<Result<ExecutionResult>>)
      returns (r: Result<seq<ExecutionResult>>)
      requires |runs| == |commands|
      modifies this
      ensures r == BatchFrom(runs, 0)
      ensures executions == old(executions) + BatchRecords(taskId, commands, workDir, runs, AttemptedFrom(runs, 0))
    {
      var results: seq<ExecutionResult> := [];
      var i := 0;
      r := Ok([]);
      while i < |commands|
        invariant 0 <= i <= |commands| && |results| == i
        invariant forall j :: 0 <= j < i ==> runs[j] == Ok(results[j]) && results[j].exitCode == 0
        invariant executions == old(executions) + BatchRecords(taskId, commands, workDir, runs, i)
      {
        var result := ExecuteCommand(taskId, CommandExecution(commands[i], workDir, None), runs[i]);
        BatchRecordsGrow(old(executions), taskId, commands, workDir, runs, i);
        if Stops(runs, i) {
          BatchStopsAt(runs, i, results);
          r := if result.Err? then Err(result.error) else Ok(results + [result.value]);
          return;
        }
        SuccessesGrow(runs, results, i);
        results := results + [result.value];
        i := i + 1;
      }
      BatchCompletes(runs, results);
      r := Ok(results);
    }
  }
}
