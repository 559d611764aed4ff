/** The task orchestrator: one execution of a task walks the workflow through planning,
    execution of the plan's subtasks, a quality check and the test suite, then tries to
    complete it; any exception is handed to the failure handler, which counts a retry and
    moves the workflow on. The brain, hands, legs, quality and test collaborators are
    given as the answers they return (or the errors they throw). */
module TaskOrchestrator {
  import opened Common
  import opened Stores
  import opened StateMachine
  import DebugLoop

  // ---------------------------------------------------------------------------
  // What the collaborators answer

  /** A subtask of an execution plan, with the fields the orchestrator reads. */
  datatype Subtask = Subtask(id: string, description: string, filesToEdit: seq<string>,
                             commandsToRun: seq<string>, successConditions: seq<string>)

  datatype ExecutionPlan = ExecutionPlan(subtasks: seq<Subtask>)

  /** What `executeWithAutoDebug` reports for one command. */
  datatype CommandRun = CommandRun(success: bool, stderr: string)

  datatype QualityReport = QualityReport(score: int)

  datatype TestSummary = TestSummary(passed: nat, failed: nat, total: nat)

  /** The answers of one execution: the context gathering, the plan (`null` as `None`),
      every command run of every subtask, the quality analysis, the formatter and the
      test run; an `Err` is the error the call throws. */
  datatype World = World(
    context: Result<()>,
    plan: Result<Option<ExecutionPlan>>,
    runs: seq<seq<Result<CommandRun>>>,
    quality: Result<QualityReport>,
    format: Result<()>,
    tests: Result<TestSummary>)

  /** There is an answer for every command of every subtask of the plan. */
  predicate Answers(w: World) {
    w.plan.Ok? && w.plan.value.Some? ==>
      var subtasks := w.plan.value.value.subtasks;
      |w.runs| == |subtasks| &&
      forall i :: 0 <= i < |subtasks| ==> |w.runs[i]| == |subtasks[i].commandsToRun|
  }

  // ---------------------------------------------------------------------------
  // One subtask

  datatype SubtaskStatus = SubtaskRunning | SubtaskSuccess | SubtaskFailed

  /** One call of `brain.updateSubtaskStatus`. */
  datatype StatusUpdate = StatusUpdate(subtaskId: string, status: SubtaskStatus, error: Option<string>)

  function CommandFailedMessage(command: string, stderr: string): string {
    "Command failed: " + command + "\nError: " + stderr
  }

  /** The error one command run throws, if any: the collaborator's own error, or the
      orchestrator's when the run reports failure. */
  function CommandFailure(command: string, run: Result<CommandRun>): Option<string> {
    if run.Err? then Some(run.error)
    else if !run.value.success then Some(CommandFailedMessage(command, run.value.stderr))
    else None
  }

  /** The first command, from `from` on, whose run throws. */
  function FirstCommandFailure(commands: seq<string>, runs: seq<Result<CommandRun>>, from: nat): (r: Option<nat>)
    requires |runs| == |commands| && from <= |commands|
    ensures r.Some? ==> from <= r.value < |commands| && CommandFailure(commands[r.value], runs[r.value]).Some?
    ensures r.Some? ==> forall j :: from <= j < r.value ==> CommandFailure(commands[j], runs[j]).None?
    ensures r.None? ==> forall j :: from <= j < |commands| ==> CommandFailure(commands[j], runs[j]).None?
    decreases |commands| - from
  {
    if from == |commands| then None
    else if CommandFailure(commands[from], runs[from]).Some? then Some(from)
    else FirstCommandFailure(commands, runs, from + 1)
  }

  /** `verifySubtask`: every success condition is skipped, so a subtask always verifies. */
  function VerifySubtask(subtask: Subtask): (verified: bool)
    ensures verified
  {
    true
  }

  /** What `executeSubtask` rethrows, or `Ok` when nothing threw; verification never
      fails, so only the commands decide. */
  function SubtaskOutcome(subtask: Subtask, runs: seq<Result<CommandRun>>): Result<()>
    requires |runs| == |subtask.commandsToRun|
  {
    var k := FirstCommandFailure(subtask.commandsToRun, runs, 0);
    if k.Some? then Err(CommandFailure(subtask.commandsToRun[k.value], runs[k.value]).value)
    else Ok(())
  }

  /** The status updates of one subtask: RUNNING, then SUCCESS or FAILED with the message. */
  function SubtaskUpdates(subtask: Subtask, runs: seq<Result<CommandRun>>): seq<StatusUpdate>
    requires |runs| == |subtask.commandsToRun|
  {
    var outcome := SubtaskOutcome(subtask, runs);
    [StatusUpdate(subtask.id, SubtaskRunning, None)] +
    if outcome.Ok? then [StatusUpdate(subtask.id, SubtaskSuccess, None)]
    else [StatusUpdate(subtask.id, SubtaskFailed, Some(outcome.error))]
  }

  /** A subtask succeeds exactly when every command run succeeds; its file edits and its
      success conditions play no part. On failure the first failing command decides the
      message. */
  lemma SubtaskSucceedsIff(subtask: Subtask, runs: seq<Result<CommandRun>>)
    requires |runs| == |subtask.commandsToRun|
    ensures SubtaskOutcome(subtask, runs).Ok? <==>
      forall j :: 0 <= j < |runs| ==> runs[j].Ok? && runs[j].value.success
    ensures forall k ::
      (0 <= k < |runs| && CommandFailure(subtask.commandsToRun[k], runs[k]).Some? &&
       (forall j :: 0 <= j < k ==> runs[j].Ok? && runs[j].value.success)) ==>
      SubtaskOutcome(subtask, runs) == Err(CommandFailure(subtask.commandsToRun[k], runs[k]).value)
  {
    var commands := subtask.commandsToRun;
    var first := FirstCommandFailure(commands, runs, 0);
    if first.Some? {
      assert !(runs[first.value].Ok? && runs[first.value].value.success);
    } else {
      forall j | 0 <= j < |runs| ensures runs[j].Ok? && runs[j].value.success {
        assert CommandFailure(commands[j], runs[j]).None?;
      }
    }
    forall k | 0 <= k < |runs| && CommandFailure(commands[k], runs[k]).Some? &&
      (forall j :: 0 <= j < k ==> runs[j].Ok? && runs[j].value.success)
      ensures first == Some(k)
    {
      if first.Some? && first.value < k {
        assert false;
      }
    }
  }

  // ---------------------------------------------------------------------------
  // The plan's subtasks

  /** The first subtask, from `from` on, that throws. */
  function FirstSubtaskFailure(subtasks: seq<Subtask>, runs: seq<seq<Result<CommandRun>>>, from: nat): (r: Option<nat>)
    requires |runs| == |subtasks| && from <= |subtasks|
    requires forall i :: 0 <= i < |subtasks| ==> |runs[i]| == |subtasks[i].commandsToRun|
    ensures r.Some? ==> from <= r.value < |subtasks| && SubtaskOutcome(subtasks[r.value], runs[r.value]).Err?
    ensures r.Some? ==> forall j :: from <= j < r.value ==> SubtaskOutcome(subtasks[j], runs[j]).Ok?
    ensures r.None? ==> forall j :: from <= j < |subtasks| ==> SubtaskOutcome(subtasks[j], runs[j]).Ok?
    decreases |subtasks| - from
  {
    if from == |subtasks| then None
    else if SubtaskOutcome(subtasks[from], runs[from]).Err? then Some(from)
    else FirstSubtaskFailure(subtasks, runs, from + 1)
  }

  /** The status updates of the first `n` subtasks, in plan order. */
  function RunUpdates(subtasks: seq<Subtask>, runs: seq<seq<Result<CommandRun>>>, n: nat): seq<StatusUpdate>
    requires |runs| == |subtasks| && n <= |subtasks|
    requires forall i :: 0 <= i < |subtasks| ==> |runs[i]| == |subtasks[i].commandsToRun|
  {
    if n == 0 then [] else RunUpdates(subtasks, runs, n - 1) + SubtaskUpdates(subtasks[n - 1], runs[n - 1])
  }

  /** Subtasks run one after the other in plan order, two updates each: every subtask
      before the `n`-th that ran got RUNNING then SUCCESS when it succeeded. */
  lemma {:induction false} RunUpdatesInOrder(subtasks: seq<Subtask>, runs: seq<seq<Result<CommandRun>>>, n: nat)
    requires |runs| == |subtasks| && n <= |subtasks|
    requires forall i :: 0 <= i < |subtasks| ==> |runs[i]| == |subtasks[i].commandsToRun|
    ensures |RunUpdates(subtasks, runs, n)| == 2 * n
    ensures forall i :: 0 <= i < n ==>
      RunUpdates(subtasks, runs, n)[2 * i] == StatusUpdate(subtasks[i].id, SubtaskRunning, None) &&
      RunUpdates(subtasks, runs, n)[2 * i + 1].subtaskId == subtasks[i].id &&
      (RunUpdates(subtasks, runs, n)[2 * i + 1].status == SubtaskSuccess <==> SubtaskOutcome(subtasks[i], runs[i]).Ok?)
  {
    if n > 0 {
      RunUpdatesInOrder(subtasks, runs, n - 1);
      var before := RunUpdates(subtasks, runs, n - 1);
      var last := SubtaskUpdates(subtasks[n - 1], runs[n - 1]);
      var all := RunUpdates(subtasks, runs, n);
      assert all == before + last;
      forall i | 0 <= i < n
        ensures all[2 * i] == StatusUpdate(subtasks[i].id, SubtaskRunning, None)
        ensures all[2 * i + 1].subtaskId == subtasks[i].id
        ensures all[2 * i + 1].status == SubtaskSuccess <==> SubtaskOutcome(subtasks[i], runs[i]).Ok?
      {
        if i < n - 1 {
          assert all[2 * i] == before[2 * i] && all[2 * i + 1] == before[2 * i + 1];
        } else {
          assert all[2 * i] == last[0] && all[2 * i + 1] == last[1];
        }
      }
    }
  }

  // ---------------------------------------------------------------------------
  // Where an execution stops

  const NoPlanMessage: string := "No execution plan found"

  function TestsFailedMessage(failed: nat): string {
    "Tests failed with " + NatToString(failed) + " failures"
  }

  /** The state the workflow is in when the exception is thrown, the exception's message,
      and whether it came from `markCompleted`. */
  datatype Stop = Stop(phase: WorkflowState, error: string, completing: bool)

  /** Where the steps after the subtasks stop: the quality analysis and the formatter
      (run only for a score of at least 60) in EXECUTING, the test run in TESTING, and
      otherwise the completion, which the transition table rejects from TESTING. */
  function AfterSubtasks(w: World): Stop {
    var thrown := QualityFailure(w);
    if thrown.Some? then Stop(EXECUTING, thrown.value, false) else TestStop(w)
  }

  /** The error the quality analysis throws, or else the formatter's, which runs only
      for a score of at least 60. */
  function QualityFailure(w: World): Option<string> {
    if w.quality.Err? then Some(w.quality.error)
    else if w.quality.value.score >= 60 && w.format.Err? then Some(w.format.error)
    else None
  }

  /** Where the steps in TESTING stop. */
  function TestStop(w: World): Stop {
    if w.tests.Err? then Stop(TESTING, w.tests.error, false)
    else if w.tests.value.failed > 0 then Stop(TESTING, TestsFailedMessage(w.tests.value.failed), false)
    else Stop(TESTING, InvalidTransitionMessage(TESTING, COMPLETED), true)
  }

  /** Where the `try` block of `executeTask` throws. */
  function Stopped(w: World): Stop
    requires Answers(w)
  {
    if w.context.Err? then Stop(IDLE, w.context.error, false)
    else if w.plan.Err? then Stop(PLANNING, w.plan.error, false)
    else if w.plan.value.None? then Stop(PLANNING, NoPlanMessage, false)
    else
      var subtasks := w.plan.value.value.subtasks;
      var failed := FirstSubtaskFailure(subtasks, w.runs, 0);
      if failed.Some? then Stop(EXECUTING, SubtaskOutcome(subtasks[failed.value], w.runs[failed.value]).error, false)
      else AfterSubtasks(w)
  }

  /** The subtask status updates of one execution: none before a plan exists, and those
      of every subtask up to and including the first that throws. */
  function UpdatesOf(w: World): seq<StatusUpdate>
    requires Answers(w)
  {
    if w.context.Err? || w.plan.Err? || w.plan.value.None? then []
    else
      var subtasks := w.plan.value.value.subtasks;
      var failed := FirstSubtaskFailure(subtasks, w.runs, 0);
      RunUpdates(subtasks, w.runs, if failed.Some? then failed.value + 1 else |subtasks|)
  }

  /** The transitions attempted on the way to the state a stop happens in. */
  function Reached(phase: WorkflowState): seq<WorkflowState> {
    if phase == PLANNING then [PLANNING]
    else if phase == EXECUTING then [PLANNING, EXECUTING]
    else if phase == TESTING then [PLANNING, EXECUTING, TESTING]
    else []
  }

  /** The transitions the `try` block attempts, the rejected completion included. */
  function Attempted(stop: Stop): seq<WorkflowState> {
    Reached(stop.phase) + if stop.completing then [COMPLETED] else []
  }

  /** The states an execution can stop in. */
  predicate Working(phase: WorkflowState) {
    phase == IDLE || phase == PLANNING || phase == EXECUTING || phase == TESTING
  }

  lemma StoppedWorking(w: World)
    requires Answers(w)
    ensures Working(Stopped(w).phase)
  {
  }

  /** When every collaborator answers without error, a plan exists and the tests pass,
      all four transitions are attempted in order and the completion is rejected. */
  lemma SuccessPathAttemptsCompletion(w: World)
    requires Answers(w) && w.context.Ok? && w.plan.Ok? && w.plan.value.Some?
    requires forall i, j :: 0 <= i < |w.runs| && 0 <= j < |w.runs[i]| ==> w.runs[i][j].Ok? && w.runs[i][j].value.success
    requires w.quality.Ok? && w.format.Ok? && w.tests.Ok? && w.tests.value.failed == 0
    ensures Stopped(w) == Stop(TESTING, InvalidTransitionMessage(TESTING, COMPLETED), true)
    ensures Attempted(Stopped(w)) == [PLANNING, EXECUTING, TESTING, COMPLETED]
  {
    var subtasks := w.plan.value.value.subtasks;
    var failed := FirstSubtaskFailure(subtasks, w.runs, 0);
    if failed.Some? {
      var i := failed.value;
      SubtaskSucceedsIff(subtasks[i], w.runs[i]);
      assert false;
    }
  }

  /** Without a plan the execution stops in PLANNING: EXECUTING is never attempted and no
      subtask status changes. */
  lemma NoPlanStopsBeforeExecuting(w: World)
    requires Answers(w) && w.context.Ok? && w.plan == Ok(None)
    ensures Stopped(w) == Stop(PLANNING, NoPlanMessage, false)
    ensures EXECUTING !in Attempted(Stopped(w)) && UpdatesOf(w) == []
  {
  }

  /** A failing subtask stops the plan: the subtasks before it all succeeded and only they
      and the failing one have updates, the failing one's last being FAILED with the
      message the execution stops with. */
  lemma FirstFailingSubtaskStops(w: World, k: nat)
    requires Answers(w) && w.context.Ok? && w.plan.Ok? && w.plan.value.Some?
    requires k < |w.plan.value.value.subtasks|
    requires SubtaskOutcome(w.plan.value.value.subtasks[k], w.runs[k]).Err?
    requires forall j :: 0 <= j < k ==> SubtaskOutcome(w.plan.value.value.subtasks[j], w.runs[j]).Ok?
    ensures Stopped(w).phase == EXECUTING
    ensures Stopped(w).error == SubtaskOutcome(w.plan.value.value.subtasks[k], w.runs[k]).error
    ensures |UpdatesOf(w)| == 2 * (k + 1)
    ensures UpdatesOf(w)[2 * k + 1] ==
      StatusUpdate(w.plan.value.value.subtasks[k].id, SubtaskFailed, Some(Stopped(w).error))
    ensures forall i :: 0 <= i < k ==> UpdatesOf(w)[2 * i + 1].status == SubtaskSuccess
  {
    var subtasks := w.plan.value.value.subtasks;
    FirstFailureAt(subtasks, w.runs, k);
    var all := RunUpdates(subtasks, w.runs, k + 1);
    assert UpdatesOf(w) == all;
    RunUpdatesInOrder(subtasks, w.runs, k + 1);
    forall i | 0 <= i < k ensures all[2 * i + 1].status == SubtaskSuccess {
      assert SubtaskOutcome(subtasks[i], w.runs[i]).Ok?;
    }
    assert all[2 * k + 1] == SubtaskUpdates(subtasks[k], w.runs[k])[1] by {
      RunUpdatesInOrder(subtasks, w.runs, k);
      assert all == RunUpdates(subtasks, w.runs, k) + SubtaskUpdates(subtasks[k], w.runs[k]);
    }
  }

  /** The first failure is the one every earlier subtask survives. */
  lemma FirstFailureAt(subtasks: seq<Subtask>, runs: seq<seq<Result<CommandRun>>>, k: nat)
    requires |runs| == |subtasks| && k < |subtasks|
    requires forall i :: 0 <= i < |subtasks| ==> |runs[i]| == |subtasks[i].commandsToRun|
    requires SubtaskOutcome(subtasks[k], runs[k]).Err?
    requires forall j :: 0 <= j < k ==> SubtaskOutcome(subtasks[j], runs[j]).Ok?
    ensures FirstSubtaskFailure(subtasks, runs, 0) == Some(k)
  {
  }

  /** A failed test run stops the execution in TESTING with the number of failures. */
  lemma FailedTestsStop(w: World)
    requires Answers(w) && w.context.Ok? && w.plan.Ok? && w.plan.value.Some?
    requires FirstSubtaskFailure(w.plan.value.value.subtasks, w.runs, 0).None?
    requires w.quality.Ok? && (w.quality.value.score < 60 || w.format.Ok?)
    requires w.tests.Ok? && w.tests.value.failed > 0
    ensures Stopped(w) == Stop(TESTING, "Tests failed with " + NatToString(w.tests.value.failed) + " failures", false)
  {
  }

  // ---------------------------------------------------------------------------
  // The failure handler

  /** `retryCount < this.maxRetries`, `None` standing for `NaN`. */
  predicate Below(count: int, maxRetries: Option<int>) {
    maxRetries.Some? && count < maxRetries.value
  }

  function RetryMetadata(error: string, count: int): map<string, Json> {
    map["error" := JStr(error), "retryCount" := JNum(count)]
  }

  /** `handleTaskFailure` on the records and task rows: count the retry; below the
      bound attempt RETRYING and then mark failed, otherwise only mark failed. */
  function HandleStep(db: Records, rows: map<string, TaskRow>, taskId: string, error: string,
                      maxRetries: Option<int>): (Result<()>, Records, map<string, TaskRow>)
  {
    var counted := IncrementStep(db, taskId);
    if counted.0.Err? then (Err(counted.0.error), counted.1, rows)
    else AfterCountStep(counted.1, rows, taskId, error, counted.0.value, maxRetries)
  }

  /** What `handleTaskFailure` does once the counter reads `count`. */
  function AfterCountStep(db: Records, rows: map<string, TaskRow>, taskId: string, error: string,
                          count: int, maxRetries: Option<int>): (Result<()>, Records, map<string, TaskRow>)
  {
    if Below(count, maxRetries) then
      var moved := TransitionStep(db, taskId, RETRYING, "RETRY", Some(RetryMetadata(error, count)));
      if moved.0.Err? then (Err(moved.0.error), moved.1, rows)
      else MarkFailedStep(moved.1, rows, taskId, error)
    else MarkFailedStep(db, rows, taskId, error)
  }

  /** The transitions `handleTaskFailure` asks for, `markFailed` counting as FAILED. */
  function HandleAttempts(db: Records, taskId: string, error: string, maxRetries: Option<int>): seq<WorkflowState> {
    var counted := IncrementStep(db, taskId);
    if counted.0.Err? then [] else AfterCountAttempts(counted.1, taskId, error, counted.0.value, maxRetries)
  }

  function AfterCountAttempts(db: Records, taskId: string, error: string, count: int, maxRetries: Option<int>)
    : seq<WorkflowState>
  {
    if Below(count, maxRetries) then
      if TransitionStep(db, taskId, RETRYING, "RETRY", Some(RetryMetadata(error, count))).0.Err? then [RETRYING]
      else [RETRYING, FAILED]
    else [FAILED]
  }

  /** What `markFailed` yields from `phase`: rejected unless FAILED follows `phase` in
      the table, then rejected when the task row is missing. */
  function MarkFailedOutcome(phase: WorkflowState, rowExists: bool): Result<()> {
    if !IsValidTransition(phase, FAILED) then Err(InvalidTransitionMessage(phase, FAILED))
    else if !rowExists then Err(RecordNotFound)
    else Ok(())
  }

  /** What the failure handler yields after a stop in `phase`, the retry count being one. */
  function Handled(phase: WorkflowState, maxRetries: Option<int>, rowExists: bool): Result<()> {
    if Below(1, maxRetries) then
      if IsValidTransition(phase, RETRYING) then MarkFailedOutcome(phase, rowExists)
      else Err(InvalidTransitionMessage(phase, RETRYING))
    else MarkFailedOutcome(phase, rowExists)
  }

  /** The state the workflow is left in after the handler. */
  function FinalState(phase: WorkflowState, maxRetries: Option<int>): WorkflowState {
    if Below(1, maxRetries) || !IsValidTransition(phase, FAILED) then phase else FAILED
  }

  function HandlingAttempts(maxRetries: Option<int>): seq<WorkflowState> {
    if Below(1, maxRetries) then [RETRYING] else [FAILED]
  }

  /** The events `handleTaskFailure` publishes: those of the RETRYING transition below
      the bound, then those of `markFailed` when it is reached. */
  function HandlePublished(db: Records, taskId: string, error: string, maxRetries: Option<int>, now: string)
    : seq<BusMessage>
  {
    var counted := IncrementStep(db, taskId);
    if counted.0.Err? then [] else AfterCountPublished(counted.1, taskId, error, counted.0.value, maxRetries, now)
  }

  function AfterCountPublished(db: Records, taskId: string, error: string, count: int, maxRetries: Option<int>,
                               now: string): seq<BusMessage>
  {
    if Below(count, maxRetries) then
      var md := Some(RetryMetadata(error, count));
      var moved := TransitionStep(db, taskId, RETRYING, "RETRY", md);
      TransitionPublished(db, taskId, RETRYING, "RETRY", md, now)
        + if moved.0.Err? then [] else FailedPublished(moved.1, taskId, error, now)
    else FailedPublished(db, taskId, error, now)
  }

  /** What `markFailed` publishes. */
  function FailedPublished(db: Records, taskId: string, error: string, now: string): seq<BusMessage> {
    TransitionPublished(db, taskId, FAILED, "ERROR", Some(map["error" := JStr(error)]), now)
  }

  // ---------------------------------------------------------------------------
  // The records, task rows and events of one execution

  /** The event names of the `try` block's transitions. */
  function StartEvent(to: WorkflowState): string {
    if to == PLANNING then "START_PLANNING" else if to == EXECUTING then "START_EXECUTION" else "START_TESTING"
  }

  /** The records after the `try` block's transition to `to`. */
  function Move(db: Records, taskId: string, to: WorkflowState): Records {
    TransitionStep(db, taskId, to, StartEvent(to), None).1
  }

  function MovePublished(db: Records, taskId: string, to: WorkflowState, now: string): seq<BusMessage> {
    TransitionPublished(db, taskId, to, StartEvent(to), None, now)
  }

  /** The state the `try` block moves the workflow to next. */
  function NextPhase(from: WorkflowState): WorkflowState {
    if from == IDLE then PLANNING else if from == PLANNING then EXECUTING else TESTING
  }

  function PhaseRank(phase: WorkflowState): nat {
    if phase == IDLE then 0 else if phase == PLANNING then 1 else if phase == EXECUTING then 2 else 3
  }

  /** The records when the `try` block, with the workflow already in `from`, throws at
      `stop`: the transitions on to the stop's phase and, when the rejected completion
      threw, the read that completion made. */
  function After(db: Records, taskId: string, from: WorkflowState, stop: Stop): Records
    decreases 3 - PhaseRank(from)
  {
    if stop.phase == from || PhaseRank(from) == 3 then
      if stop.completing then ReadStep(db, taskId).1 else db
    else After(Move(db, taskId, NextPhase(from)), taskId, NextPhase(from), stop)
  }

  /** The events those transitions publish, in order; the rejected completion publishes none. */
  function AfterPublished(db: Records, taskId: string, from: WorkflowState, stop: Stop, now: string): seq<BusMessage>
    decreases 3 - PhaseRank(from)
  {
    if stop.phase == from || PhaseRank(from) == 3 then []
    else
      MovePublished(db, taskId, NextPhase(from), now)
        + AfterPublished(Move(db, taskId, NextPhase(from)), taskId, NextPhase(from), stop, now)
  }

  /** The records when the `try` block of `executeTask` throws, initialization included. */
  function Thrown(db: Records, taskId: string, w: World): Records
    requires Answers(w)
  {
    After(Write(db, taskId, InitialState(taskId)), taskId, IDLE, Stopped(w))
  }

  /** The events one execution publishes: the `try` block's transitions, then the handler's. */
  function ExecutionPublished(db: Records, taskId: string, w: World, maxRetries: Option<int>, now: string)
    : seq<BusMessage>
    requires Answers(w)
  {
    AfterPublished(Write(db, taskId, InitialState(taskId)), taskId, IDLE, Stopped(w), now)
      + HandlePublished(Thrown(db, taskId, w), taskId, Stopped(w).error, maxRetries, now)
  }

  lemma UpdateRowTouchesOnlyItsRow(rows: map<string, TaskRow>, taskId: string, status: string, at: Option<string>)
    ensures UpdateRow(rows, taskId, status, at).1 - {taskId} == rows - {taskId}
  {
  }

  /** Past the state the workflow is in, the `try` block makes one more transition. */
  lemma AfterStep(db: Records, taskId: string, from: WorkflowState, stop: Stop, now: string)
    requires stop.phase != from && PhaseRank(from) < 3
    ensures After(db, taskId, from, stop) == After(Move(db, taskId, NextPhase(from)), taskId, NextPhase(from), stop)
    ensures AfterPublished(db, taskId, from, stop, now) ==
      MovePublished(db, taskId, NextPhase(from), now)
        + AfterPublished(Move(db, taskId, NextPhase(from)), taskId, NextPhase(from), stop, now)
  {
  }

  /** An execution that gets past a step stops in a later state. */
  lemma StoppedPast(w: World)
    requires Answers(w) && w.context.Ok?
    ensures Stopped(w).phase != IDLE
    ensures w.plan.Ok? && w.plan.value.Some? ==> Stopped(w).phase != PLANNING
  {
  }

  lemma {:induction false} AfterTouchesOnlyItsTask(db: Records, taskId: string, from: WorkflowState, stop: Stop)
    ensures OthersAgree(db, After(db, taskId, from, stop), taskId)
    decreases 3 - PhaseRank(from)
  {
    if stop.phase == from || PhaseRank(from) == 3 {
      ReadTouchesOnlyItsTask(db, taskId);
    } else {
      var next := NextPhase(from);
      TransitionTouchesOnlyItsTask(db, taskId, next, StartEvent(next), None);
      AfterTouchesOnlyItsTask(Move(db, taskId, next), taskId, next, stop);
    }
  }

  lemma HandleTouchesOnlyItsTask(db: Records, rows: map<string, TaskRow>, taskId: string, error: string,
                                 maxRetries: Option<int>)
    ensures var (_, db2, rows2) := HandleStep(db, rows, taskId, error, maxRetries);
      OthersAgree(db, db2, taskId) && rows2 - {taskId} == rows - {taskId}
  {
    var counted := IncrementStep(db, taskId);
    assert OthersAgree(db, counted.1, taskId) by {
      StepsTouchOnlyTheirTask(db, rows, taskId, RETRYING, "", None, error, "");
    }
    if counted.0.Ok? {
      AfterCountTouchesOnlyItsTask(counted.1, rows, taskId, error, counted.0.value, maxRetries);
    }
  }

  lemma AfterCountTouchesOnlyItsTask(db: Records, rows: map<string, TaskRow>, taskId: string, error: string,
                                     count: int, maxRetries: Option<int>)
    ensures var (_, db2, rows2) := AfterCountStep(db, rows, taskId, error, count, maxRetries);
      OthersAgree(db, db2, taskId) && rows2 - {taskId} == rows - {taskId}
  {
    var md := Some(RetryMetadata(error, count));
    var moved := TransitionStep(db, taskId, RETRYING, "RETRY", md);
    TransitionTouchesOnlyItsTask(db, taskId, RETRYING, "RETRY", md);
    MarkFailedTouchesOnlyItsTask(db, rows, taskId, error);
    MarkFailedTouchesOnlyItsTask(moved.1, rows, taskId, error);
  }

  lemma MarkFailedTouchesOnlyItsTask(db: Records, rows: map<string, TaskRow>, taskId: string, error: string)
    ensures OthersAgree(db, MarkFailedStep(db, rows, taskId, error).1, taskId)
    ensures MarkFailedStep(db, rows, taskId, error).2 - {taskId} == rows - {taskId}
  {
    StepsTouchOnlyTheirTask(db, rows, taskId, FAILED, "ERROR", None, error, "");
    UpdateRowTouchesOnlyItsRow(rows, taskId, "FAILED", None);
  }

  /** One execution of a task changes the workflow records and the task row of that task
      only: every other task's cached and stored record and its row stay as they were. */
  lemma ExecutionTouchesOnlyItsTask(db: Records, rows: map<string, TaskRow>, taskId: string, w: World,
                                    maxRetries: Option<int>)
    requires Answers(w)
    ensures var (_, db2, rows2) := HandleStep(Thrown(db, taskId, w), rows, taskId, Stopped(w).error, maxRetries);
      OthersAgree(db, db2, taskId) && rows2 - {taskId} == rows - {taskId}
  {
    var init := Write(db, taskId, InitialState(taskId));
    WriteTouchesOnlyItsTask(db, taskId, InitialState(taskId));
    AfterTouchesOnlyItsTask(init, taskId, IDLE, Stopped(w));
    HandleTouchesOnlyItsTask(Thrown(db, taskId, w), rows, taskId, Stopped(w).error, maxRetries);
  }

  /** The record of `taskId` is in state `phase` with retry count `count`. */
  predicate RecordAt(db: Records, taskId: string, phase: WorkflowState, count: int) {
    Lookup(db, taskId).Some? && Lookup(db, taskId).value.currentState == phase &&
    Lookup(db, taskId).value.retryCount == count
  }

  /** An accepted transition moves the record and keeps its retry count. */
  lemma TransitionAccepted(db: Records, taskId: string, from: WorkflowState, to: WorkflowState, count: int,
                           event: string, md: Option<map<string, Json>>)
    requires RecordAt(db, taskId, from, count) && IsValidTransition(from, to)
    ensures TransitionStep(db, taskId, to, event, md).0.Ok?
    ensures RecordAt(TransitionStep(db, taskId, to, event, md).1, taskId, to, count)
  {
    ReadStepInvisible(db, taskId);
    AcceptedTransitionIsolated(db, taskId, to, event, md, "");
  }

  /** A rejected transition throws the table's message and leaves every read as it was. */
  lemma TransitionRejected(db: Records, taskId: string, from: WorkflowState, to: WorkflowState,
                           event: string, md: Option<map<string, Json>>)
    requires Lookup(db, taskId).Some? && Lookup(db, taskId).value.currentState == from
    requires !IsValidTransition(from, to)
    ensures TransitionStep(db, taskId, to, event, md).0 == Err(InvalidTransitionMessage(from, to))
    ensures forall t :: Lookup(TransitionStep(db, taskId, to, event, md).1, t) == Lookup(db, t)
  {
    ReadStepInvisible(db, taskId);
    RejectedTransitionWritesNothing(db, taskId, to, event, md, "");
  }

  /** `markFailed` from `phase`: its outcome, the state left behind and the task rows. */
  lemma MarkFailedFrom(db: Records, rows: map<string, TaskRow>, taskId: string, error: string,
                       phase: WorkflowState, count: int)
    requires RecordAt(db, taskId, phase, count)
    ensures var (r, db2, rows2) := MarkFailedStep(db, rows, taskId, error);
      r == MarkFailedOutcome(phase, taskId in rows) &&
      RecordAt(db2, taskId, if IsValidTransition(phase, FAILED) then FAILED else phase, count) &&
      rows2.Keys == rows.Keys
  {
    var db1 := ReadStep(db, taskId).1;
    ReadStepInvisible(db, taskId);
    assert RecordAt(db1, taskId, phase, count);
    var md := Some(map["error" := JStr(error)]);
    if IsValidTransition(phase, FAILED) {
      TransitionAccepted(db1, taskId, phase, FAILED, count, "ERROR", md);
    } else {
      TransitionRejected(db1, taskId, phase, FAILED, "ERROR", md);
    }
  }

  /** `markCompleted` from TESTING: the table has no such edge, so it throws and writes nothing. */
  lemma CompletionRejected(db: Records, rows: map<string, TaskRow>, taskId: string, result: string, now: string)
    requires RecordAt(db, taskId, TESTING, 0)
    ensures var (r, db2, rows2) := MarkCompletedStep(db, rows, taskId, result, now);
      r == Err(InvalidTransitionMessage(TESTING, COMPLETED)) && RecordAt(db2, taskId, TESTING, 0) && rows2 == rows
  {
    TransitionRejected(db, taskId, TESTING, COMPLETED, "COMPLETE", Some(map["result" := JStr(result)]));
  }

  /** After a stop in a working state with the count at zero, the handler counts one
      retry; below the bound the RETRYING transition is always rejected, because no
      working state leads to RETRYING, so the exception escapes and the record keeps
      its state; otherwise `markFailed` decides. */
  lemma {:induction false} HandledFromStop(db: Records, rows: map<string, TaskRow>, taskId: string, error: string,
                                           maxRetries: Option<int>, phase: WorkflowState)
    requires Working(phase) && RecordAt(db, taskId, phase, 0)
    ensures var (r, db2, rows2) := HandleStep(db, rows, taskId, error, maxRetries);
      r == Handled(phase, maxRetries, taskId in rows) &&
      RecordAt(db2, taskId, FinalState(phase, maxRetries), 1) &&
      rows2.Keys == rows.Keys
    ensures HandleAttempts(db, taskId, error, maxRetries) == HandlingAttempts(maxRetries)
  {
    IncrementChangesOnlyCounter(db, taskId);
    var db1 := IncrementStep(db, taskId).1;
    assert RecordAt(db1, taskId, phase, 1);
    ReadStepInvisible(db1, taskId);
    if Below(1, maxRetries) {
      var md := Some(RetryMetadata(error, 1));
      TransitionRejected(db1, taskId, phase, RETRYING, "RETRY", md);
    } else {
      MarkFailedFrom(db1, rows, taskId, error, phase, 1);
    }
  }

  /** Whatever the collaborators answer, an execution never leaves the workflow
      COMPLETED; with a retry bound above one it always ends with the rejection of
      RETRYING from the state it stopped in, and otherwise it ends FAILED, except after
      a stop in IDLE, from which FAILED is rejected too. */
  lemma NeverCompleted(w: World, maxRetries: Option<int>, rowExists: bool)
    requires Answers(w)
    ensures FinalState(Stopped(w).phase, maxRetries) != COMPLETED
    ensures Below(1, maxRetries) ==>
      Handled(Stopped(w).phase, maxRetries, rowExists) ==
        Err("Invalid transition from " + StateName(Stopped(w).phase) + " to RETRYING")
    ensures !Below(1, maxRetries) ==>
      (FinalState(Stopped(w).phase, maxRetries) == FAILED <==> Stopped(w).phase != IDLE)
    ensures !Below(1, maxRetries) && Stopped(w).phase == IDLE ==>
      Handled(Stopped(w).phase, maxRetries, rowExists) == Err("Invalid transition from IDLE to FAILED")
  {
    StoppedWorking(w);
  }

  // ---------------------------------------------------------------------------
  // Progress

  /** `subtasks.filter(st => st.status === 'SUCCESS').length`. */
  function CountSuccess(statuses: seq<string>): (n: nat)
    ensures n <= |statuses|
  {
    if statuses == [] then 0
    else CountSuccess(statuses[..|statuses| - 1]) + if statuses[|statuses| - 1] == "SUCCESS" then 1 else 0
  }

  /** All subtasks are counted complete exactly when every one of them is SUCCESS. */
  lemma {:induction false} CountSuccessAll(statuses: seq<string>)
    ensures CountSuccess(statuses) == |statuses| <==> forall i :: 0 <= i < |statuses| ==> statuses[i] == "SUCCESS"
  {
    if statuses != [] {
      var front := statuses[..|statuses| - 1];
      CountSuccessAll(front);
      if CountSuccess(statuses) == |statuses| {
        assert CountSuccess(front) == |front| && statuses[|statuses| - 1] == "SUCCESS";
        forall i | 0 <= i < |statuses| ensures statuses[i] == "SUCCESS" {
          if i < |front| {
            assert statuses[i] == front[i];
          }
        }
      }
      if exists i :: 0 <= i < |statuses| && statuses[i] != "SUCCESS" {
        var i :| 0 <= i < |statuses| && statuses[i] != "SUCCESS";
        if i < |front| {
          assert front[i] == statuses[i];
        }
      }
    }
  }

  /** The report `getTaskProgress` returns. */
  datatype TaskProgress = TaskProgress(
    taskId: string, status: string, currentState: WorkflowState, progress: int,
    completedSubtasks: nat, totalSubtasks: nat, history: seq<StateTransition>, lastError: Option<string>)

  function TaskNotFoundMessage(taskId: string): string {
    "Task " + taskId + " not found"
  }

  /** The report for a task row and its workflow record: the subtask counts are 0
      without a plan. */
  function Report(taskId: string, row: TaskRow, d: WorkflowStateData): (p: TaskProgress)
    ensures p.completedSubtasks <= p.totalSubtasks
    ensures row.subtaskStatuses.None? ==> p.completedSubtasks == 0 && p.totalSubtasks == 0
    ensures row.subtaskStatuses.Some? ==> p.totalSubtasks == |row.subtaskStatuses.value|
  {
    var statuses := row.subtaskStatuses.GetOr([]);
    TaskProgress(taskId, row.status, d.currentState, d.progress, CountSuccess(statuses), |statuses|,
                 d.history, d.lastError)
  }

  // ---------------------------------------------------------------------------
  // The service

  class TaskOrchestratorService {
    const sm: StateMachineService
    /** `parseInt(MAX_RETRIES || '3')`, `None` standing for `NaN`. */
    const maxRetries: Option<int>
    /** The calls of `brain.updateSubtaskStatus`, in order. */
    var updates: seq<StatusUpdate>
    /** The states initialization and every transition aimed at, in order, whether or
        not the table accepted them. */
    ghost var attempts: seq<WorkflowState>

    constructor(sm: StateMachineService, setting: Option<string>)
      ensures this.sm == sm && maxRetries == DebugLoop.ConfiguredRetries(setting)
      ensures updates == [] && attempts == []
    {
      this.sm := sm;
      maxRetries := DebugLoop.ConfiguredRetries(setting);
      updates := [];
      attempts := [];
    }

    /** The workflow record of `taskId` is in `phase` with retry count `count`. */
    ghost predicate At(taskId: string, phase: WorkflowState, count: int)
      reads sm
    {
      sm.Valid() && RecordAt(sm.Db(), taskId, phase, count)
    }

    /** `executeTask`: initialize, run the steps until one throws, and hand the exception
        to `handleTaskFailure`, whose own exception escapes. */
    method ExecuteTask(taskId: string, repoPath: string, w: World, now: string) returns (r: Result<()>)
      requires sm.Valid() && Answers(w)
      modifies this, sm, sm.bus, sm.tasks
      ensures sm.Valid()
      ensures r == Handled(Stopped(w).phase, maxRetries, taskId in old(sm.tasks.rows))
      ensures At(taskId, FinalState(Stopped(w).phase, maxRetries), 1)
      ensures (r, sm.Db(), sm.tasks.rows) ==
        HandleStep(Thrown(old(sm.Db()), taskId, w), old(sm.tasks.rows), taskId, Stopped(w).error, maxRetries)
      ensures sm.bus.log == old(sm.bus.log) + ExecutionPublished(old(sm.Db()), taskId, w, maxRetries, now)
      ensures OthersAgree(old(sm.Db()), sm.Db(), taskId) && sm.tasks.rows - {taskId} == old(sm.tasks.rows) - {taskId}
      ensures attempts == old(attempts) + [IDLE] + Attempted(Stopped(w)) + HandlingAttempts(maxRetries)
      ensures updates == old(updates) + UpdatesOf(w)
    {
      ghost var db0, rows0, log0 := sm.Db(), sm.tasks.rows, sm.bus.log;
      var _ := sm.InitializeWorkflow(taskId);
      attempts := attempts + [IDLE];
      ghost var init := sm.Db();
      assert init == Write(db0, taskId, InitialState(taskId));
      var stop := Gather(taskId, repoPath, w, now, attempts);
      StoppedWorking(w);
      ghost var db := sm.Db();
      ghost var rows := sm.tasks.rows;
      ghost var reached := AfterPublished(init, taskId, IDLE, stop, now);
      assert sm.bus.log == log0 + reached;
      assert db == Thrown(db0, taskId, w);
      HandledFromStop(db, rows, taskId, stop.error, maxRetries, stop.phase);
      r := HandleTaskFailure(taskId, stop.error, now);
      ghost var handled := HandlePublished(db, taskId, stop.error, maxRetries, now);
      assert sm.bus.log == log0 + ExecutionPublished(db0, taskId, w, maxRetries, now) by {
        assert sm.bus.log == log0 + reached + handled;
        assert ExecutionPublished(db0, taskId, w, maxRetries, now) == reached + handled;
        ConcatAssoc(log0, reached, handled);
      }
      assert OthersAgree(db0, sm.Db(), taskId) && sm.tasks.rows - {taskId} == rows0 - {taskId} by {
        ExecutionTouchesOnlyItsTask(db0, rows0, taskId, w, maxRetries);
      }
    }

    /** Context gathering, in IDLE, then the move to PLANNING. */
    method Gather(taskId: string, repoPath: string, w: World, now: string, ghost base: seq<WorkflowState>)
      returns (stop: Stop)
      requires At(taskId, IDLE, 0) && Answers(w) && attempts == base
      modifies this, sm, sm.bus, sm.tasks
      ensures At(taskId, stop.phase, 0) && stop == Stopped(w)
      ensures sm.Db() == After(old(sm.Db()), taskId, IDLE, stop) && sm.tasks.rows == old(sm.tasks.rows)
      ensures sm.bus.log == old(sm.bus.log) + AfterPublished(old(sm.Db()), taskId, IDLE, stop, now)
      ensures attempts == base + Attempted(stop) && updates == old(updates) + UpdatesOf(w)
    {
      if w.context.Err? {
        return Stop(IDLE, w.context.error, false);
      }
      ghost var db0, log0 := sm.Db(), sm.bus.log;
      attempts := attempts + [PLANNING];
      var _ := sm.Transition(taskId, PLANNING, "START_PLANNING", None, now);
      ghost var db1 := sm.Db();
      assert At(taskId, PLANNING, 0) && db1 == Move(db0, taskId, PLANNING) by {
        TransitionAccepted(db0, taskId, IDLE, PLANNING, 0, "START_PLANNING", None);
      }
      assert sm.bus.log == log0 + MovePublished(db0, taskId, PLANNING, now);
      stop := Plan(taskId, repoPath, w, now, base);
      StoppedPast(w);
      AfterStep(db0, taskId, IDLE, stop, now);
      ConcatAssoc(log0, MovePublished(db0, taskId, PLANNING, now), AfterPublished(db1, taskId, PLANNING, stop, now));
    }

    /** Fetching the plan, in PLANNING, then the move to EXECUTING. */
    method Plan(taskId: string, repoPath: string, w: World, now: string, ghost base: seq<WorkflowState>)
      returns (stop: Stop)
      requires At(taskId, PLANNING, 0) && Answers(w) && w.context.Ok? && attempts == base + [PLANNING]
      modifies this, sm, sm.bus, sm.tasks
      ensures At(taskId, stop.phase, 0) && stop == Stopped(w)
      ensures sm.Db() == After(old(sm.Db()), taskId, PLANNING, stop) && sm.tasks.rows == old(sm.tasks.rows)
      ensures sm.bus.log == old(sm.bus.log) + AfterPublished(old(sm.Db()), taskId, PLANNING, stop, now)
      ensures attempts == base + Attempted(stop) && updates == old(updates) + UpdatesOf(w)
    {
      if w.plan.Err? {
        return Stop(PLANNING, w.plan.error, false);
      }
      if w.plan.value.None? {
        return Stop(PLANNING, NoPlanMessage, false);
      }
      ghost var db0, log0 := sm.Db(), sm.bus.log;
      attempts := attempts + [EXECUTING];
      var _ := sm.Transition(taskId, EXECUTING, "START_EXECUTION", None, now);
      ghost var db1 := sm.Db();
      assert At(taskId, EXECUTING, 0) && db1 == Move(db0, taskId, EXECUTING) by {
        TransitionAccepted(db0, taskId, PLANNING, EXECUTING, 0, "START_EXECUTION", None);
      }
      assert sm.bus.log == log0 + MovePublished(db0, taskId, EXECUTING, now);
      stop := Execute(taskId, repoPath, w, now, base);
      StoppedPast(w);
      AfterStep(db0, taskId, PLANNING, stop, now);
      ConcatAssoc(log0, MovePublished(db0, taskId, EXECUTING, now), AfterPublished(db1, taskId, EXECUTING, stop, now));
    }

    /** The plan's subtasks in order, in EXECUTING, then the quality and test steps. */
    method Execute(taskId: string, repoPath: string, w: World, now: string, ghost base: seq<WorkflowState>)
      returns (stop: Stop)
      requires At(taskId, EXECUTING, 0) && Answers(w) && w.context.Ok? && w.plan.Ok? && w.plan.value.Some?
      requires attempts == base + [PLANNING, EXECUTING]
      modifies this, sm, sm.bus, sm.tasks
      ensures At(taskId, stop.phase, 0) && stop == Stopped(w)
      ensures sm.Db() == After(old(sm.Db()), taskId, EXECUTING, stop) && sm.tasks.rows == old(sm.tasks.rows)
      ensures sm.bus.log == old(sm.bus.log) + AfterPublished(old(sm.Db()), taskId, EXECUTING, stop, now)
      ensures attempts == base + Attempted(stop) && updates == old(updates) + UpdatesOf(w)
    {
      var subtasks := w.plan.value.value.subtasks;
      var failed, error := RunSubtasks(taskId, repoPath, subtasks, w.runs);
      if failed.Some? {
        return Stop(EXECUTING, error, false);
      }
      stop := CheckAndTest(taskId, repoPath, w, now, base);
    }

    /** `for (const subtask of executionPlan.subtasks) await this.executeSubtask(...)`:
        the first subtask that throws ends the loop. */
    method RunSubtasks(taskId: string, repoPath: string, subtasks: seq<Subtask>, runs: seq<seq<Result<CommandRun>>>)
      returns (failed: Option<nat>, error: string)
      requires |runs| == |subtasks|
      requires forall i :: 0 <= i < |subtasks| ==> |runs[i]| == |subtasks[i].commandsToRun|
      modifies this
      ensures failed == FirstSubtaskFailure(subtasks, runs, 0)
      ensures failed.Some? ==> error == SubtaskOutcome(subtasks[failed.value], runs[failed.value]).error
      ensures updates == old(updates) + RunUpdates(subtasks, runs, if failed.Some? then failed.value + 1 else |subtasks|)
      ensures attempts == old(attempts)
    {
      var i := 0;
      while i < |subtasks|
        invariant 0 <= i <= |subtasks|
        invariant forall j :: 0 <= j < i ==> SubtaskOutcome(subtasks[j], runs[j]).Ok?
        invariant updates == old(updates) + RunUpdates(subtasks, runs, i)
        invariant attempts == old(attempts)
      {
        var outcome := ExecuteSubtask(taskId, subtasks[i], repoPath, runs[i]);
        if outcome.Err? {
          return Some(i), outcome.error;
        }
        i := i + 1;
      }
      return None, "";
    }

    /** `executeSubtask`: RUNNING first; the file operations, whose results are
        discarded; the commands in order, the first unsuccessful one throwing; then
        SUCCESS, or FAILED with the message of whatever threw. */
    method ExecuteSubtask(taskId: string, subtask: Subtask, repoPath: string, runs: seq<Result<CommandRun>>)
      returns (r: Result<()>)
      requires |runs| == |subtask.commandsToRun|
      modifies this
      ensures r == SubtaskOutcome(subtask, runs)
      ensures updates == old(updates) + SubtaskUpdates(subtask, runs)
      ensures attempts == old(attempts)
    {
      updates := updates + [StatusUpdate(subtask.id, SubtaskRunning, None)];
      var commands := subtask.commandsToRun;
      var k := 0;
      while k < |commands|
        invariant 0 <= k <= |commands|
        invariant forall j :: 0 <= j < k ==> CommandFailure(commands[j], runs[j]).None?
        invariant updates == old(updates) + [StatusUpdate(subtask.id, SubtaskRunning, None)]
        invariant attempts == old(attempts)
      {
        var run := runs[k];
        var message := "";
        if run.Err? {
          message := run.error;
        } else if !run.value.success {
          message := CommandFailedMessage(commands[k], run.value.stderr);
        }
        if run.Err? || !run.value.success {
          updates := updates + [StatusUpdate(subtask.id, SubtaskFailed, Some(message))];
          return Err(message);
        }
        k := k + 1;
      }
      var verified := VerifySubtask(subtask);
      updates := updates + [StatusUpdate(subtask.id, SubtaskSuccess, None)];
      r := Ok(());
    }

    /** The quality analysis and formatting, in EXECUTING, the move to TESTING, the test
        run, and the completion, which the table rejects from TESTING. */
    method CheckAndTest(taskId: string, repoPath: string, w: World, now: string, ghost base: seq<WorkflowState>)
      returns (stop: Stop)
      requires At(taskId, EXECUTING, 0) && attempts == base + [PLANNING, EXECUTING]
      modifies this, sm, sm.bus, sm.tasks
      ensures At(taskId, stop.phase, 0) && stop == AfterSubtasks(w)
      ensures sm.Db() == After(old(sm.Db()), taskId, EXECUTING, stop) && sm.tasks.rows == old(sm.tasks.rows)
      ensures sm.bus.log == old(sm.bus.log) + AfterPublished(old(sm.Db()), taskId, EXECUTING, stop, now)
      ensures attempts == base + Attempted(stop) && updates == old(updates)
    {
      var thrown := QualityFailure(w);
      if thrown.Some? {
        return Stop(EXECUTING, thrown.value, false);
      }
      stop := StartTesting(taskId, w, now, base);
    }

    /** The move to TESTING, then the test run and the completion. */
    method StartTesting(taskId: string, w: World, now: string, ghost base: seq<WorkflowState>) returns (stop: Stop)
      requires At(taskId, EXECUTING, 0) && attempts == base + [PLANNING, EXECUTING]
      modifies this, sm, sm.bus, sm.tasks
      ensures At(taskId, stop.phase, 0) && stop == TestStop(w)
      ensures sm.Db() == After(old(sm.Db()), taskId, EXECUTING, stop) && sm.tasks.rows == old(sm.tasks.rows)
      ensures sm.bus.log == old(sm.bus.log) + AfterPublished(old(sm.Db()), taskId, EXECUTING, stop, now)
      ensures attempts == base + Attempted(stop) && updates == old(updates)
    {
      ghost var db0, log0 := sm.Db(), sm.bus.log;
      attempts := attempts + [TESTING];
      var _ := sm.Transition(taskId, TESTING, "START_TESTING", None, now);
      ghost var db1 := sm.Db();
      assert At(taskId, TESTING, 0) && db1 == Move(db0, taskId, TESTING) by {
        TransitionAccepted(db0, taskId, EXECUTING, TESTING, 0, "START_TESTING", None);
      }
      assert sm.bus.log == log0 + MovePublished(db0, taskId, TESTING, now);
      stop := Test(taskId, w, now, base);
      assert sm.Db() == After(db0, taskId, EXECUTING, stop)
          && sm.bus.log == log0 + AfterPublished(db0, taskId, EXECUTING, stop, now) by {
        AfterStep(db0, taskId, EXECUTING, stop, now);
        ConcatAssoc(log0, MovePublished(db0, taskId, TESTING, now), AfterPublished(db1, taskId, TESTING, stop, now));
      }
    }

    /** The test run, in TESTING, and the completion, which the table rejects from TESTING. */
    method Test(taskId: string, w: World, now: string, ghost base: seq<WorkflowState>) returns (stop: Stop)
      requires At(taskId, TESTING, 0) && attempts == base + [PLANNING, EXECUTING, TESTING]
      modifies this, sm, sm.bus, sm.tasks
      ensures At(taskId, stop.phase, 0) && stop == TestStop(w) && stop.phase == TESTING
      ensures sm.Db() == After(old(sm.Db()), taskId, TESTING, stop) && sm.tasks.rows == old(sm.tasks.rows)
      ensures sm.bus.log == old(sm.bus.log) + AfterPublished(old(sm.Db()), taskId, TESTING, stop, now)
      ensures attempts == base + Attempted(stop) && updates == old(updates)
    {
      if w.tests.Err? {
        return Stop(TESTING, w.tests.error, false);
      }
      if w.tests.value.failed > 0 {
        return Stop(TESTING, TestsFailedMessage(w.tests.value.failed), false);
      }
      CompletionRejected(sm.Db(), sm.tasks.rows, taskId, "Task completed successfully", now);
      RejectedTransitionWritesNothing(sm.Db(), taskId, COMPLETED, "COMPLETE",
                                      Some(map["result" := JStr("Task completed successfully")]), now);
      attempts := attempts + [COMPLETED];
      var completed := sm.MarkCompleted(taskId, "Task completed successfully", now);
      stop := Stop(TESTING, completed.error, true);
    }

    /** `handleTaskFailure`. */
    method HandleTaskFailure(taskId: string, error: string, now: string) returns (r: Result<()>)
      requires sm.Valid()
      modifies this, sm, sm.bus, sm.tasks
      ensures sm.Valid()
      ensures (r, sm.Db(), sm.tasks.rows) == HandleStep(old(sm.Db()), old(sm.tasks.rows), taskId, error, maxRetries)
      ensures sm.bus.log == old(sm.bus.log) + HandlePublished(old(sm.Db()), taskId, error, maxRetries, now)
      ensures attempts == old(attempts) + HandleAttempts(old(sm.Db()), taskId, error, maxRetries)
      ensures updates == old(updates)
    {
      var count := sm.IncrementRetry(taskId);
      if count.Err? {
        return Err(count.error);
      }
      r := RetryOrFail(taskId, error, count.value, now);
    }

    /** The rest of `handleTaskFailure`: below the limit, RETRYING and then `markFailed`;
        otherwise `markFailed` alone. */
    method RetryOrFail(taskId: string, error: string, count: int, now: string) returns (r: Result<()>)
      requires sm.Valid()
      modifies this, sm, sm.bus, sm.tasks
      ensures sm.Valid()
      ensures (r, sm.Db(), sm.tasks.rows) == AfterCountStep(old(sm.Db()), old(sm.tasks.rows), taskId, error, count, maxRetries)
      ensures sm.bus.log == old(sm.bus.log) + AfterCountPublished(old(sm.Db()), taskId, error, count, maxRetries, now)
      ensures attempts == old(attempts) + AfterCountAttempts(old(sm.Db()), taskId, error, count, maxRetries)
      ensures updates == old(updates)
    {
      if maxRetries.Some? && count < maxRetries.value {
        attempts := attempts + [RETRYING];
        var t := sm.Transition(taskId, RETRYING, "RETRY", Some(RetryMetadata(error, count)), now);
        if t.Err? {
          return Err(t.error);
        }
        attempts := attempts + [FAILED];
      } else {
        attempts := attempts + [FAILED];
      }
      r := sm.MarkFailed(taskId, error, now);
    }

    /** `getTaskProgress`: the workflow record is read first, then the task row. */
    method GetTaskProgress(taskId: string) returns (r: Result<TaskProgress>)
      requires sm.Valid()
      modifies sm
      ensures sm.Valid() && sm.Db() == ReadStep(old(sm.Db()), taskId).1
      ensures ReadStep(old(sm.Db()), taskId).0.Err? ==> r == Err(ReadStep(old(sm.Db()), taskId).0.error)
      ensures ReadStep(old(sm.Db()), taskId).0.Ok? && taskId !in sm.tasks.rows ==> r == Err(TaskNotFoundMessage(taskId))
      ensures ReadStep(old(sm.Db()), taskId).0.Ok? && taskId in sm.tasks.rows ==>
        r == Ok(Report(taskId, sm.tasks.rows[taskId], ReadStep(old(sm.Db()), taskId).0.value))
    {
      var state :- sm.GetState(taskId);
      if taskId !in sm.tasks.rows {
        return Err(TaskNotFoundMessage(taskId));
      }
      r := Ok(Report(taskId, sm.tasks.rows[taskId], state));
    }
  }
}
