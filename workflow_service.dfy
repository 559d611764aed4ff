/** The workflow service the HTTP layer calls: it starts an execution of a task in the
    background and answers at once, reports a task's progress, and retries a failed task
    after resetting its retry counter. */
module Workflow {
  import opened Common
  import opened Stores
  import opened StateMachine
  import opened TaskOrchestrator

  /** The immediate answer of `startWorkflow`. */
  datatype StartResponse = StartResponse(taskId: string, status: string, message: string)

  /** An execution handed to the event loop: `executeTask(taskId, repoPath)`, whose
      rejection is caught and logged, never reaching the caller. */
  datatype Launch = Launch(taskId: string, repoPath: string)

  function Started(taskId: string): StartResponse {
    StartResponse(taskId, "started", "Workflow execution started")
  }

  const TaskNotFound: string := "Task not found"
  const OnlyFailedRetried: string := "Only failed tasks can be retried"

  function NoRepositoryMessage(taskId: string): string {
    "Task " + taskId + " has no repository path"
  }

  /** A repository path JavaScript treats as present: neither null nor empty. */
  predicate HasRepository(row: TaskRow) {
    row.repoPath.Some? && row.repoPath.value != ""
  }

  /** The stored workflow record with its retry counter set back to 0; the cache is not
      touched, because the update goes to the database directly. */
  function ResetCounter(db: Records, taskId: string): Records
    requires taskId in db.store
  {
    db.(store := db.store[taskId := db.store[taskId].(retryCount := 0)])
  }

  /** `retryWorkflow`: the task row must exist and be FAILED; then the stored record's
      counter is reset (the update throws when there is no record); only then is the
      repository path checked, and a task with one is started. */
  function RetryStep(rows: map<string, TaskRow>, db: Records, taskId: string): (Result<StartResponse>, Records) {
    if taskId !in rows then (Err(TaskNotFound), db)
    else if rows[taskId].status != "FAILED" then (Err(OnlyFailedRetried), db)
    else if taskId !in db.store then (Err(RecordNotFound), db)
    else if !HasRepository(rows[taskId]) then (Err(NoRepositoryMessage(taskId)), ResetCounter(db, taskId))
    else (Ok(Started(taskId)), ResetCounter(db, taskId))
  }

  /** The executions a retry launches: one exactly when it answers `Ok`. */
  function RetryLaunches(rows: map<string, TaskRow>, db: Records, taskId: string): seq<Launch> {
    if RetryStep(rows, db, taskId).0.Ok? then [Launch(taskId, rows[taskId].repoPath.value)] else []
  }

  /** A retry succeeds exactly for a FAILED task that has a stored workflow record and a
      repository path, and then answers like `startWorkflow` for that task. */
  lemma RetryAcceptedIff(rows: map<string, TaskRow>, db: Records, taskId: string)
    ensures RetryStep(rows, db, taskId).0.Ok? <==>
      taskId in rows && rows[taskId].status == "FAILED" && taskId in db.store && HasRepository(rows[taskId])
    ensures RetryStep(rows, db, taskId).0.Ok? ==> RetryStep(rows, db, taskId).0.value == Started(taskId)
    ensures |RetryLaunches(rows, db, taskId)| == (if RetryStep(rows, db, taskId).0.Ok? then 1 else 0)
  {
  }

  /** The guards come in the order of the code: a missing task is reported before its
      status, its status before a missing record, and a missing record before a missing
      repository path. */
  lemma RetryGuardOrder(rows: map<string, TaskRow>, db: Records, taskId: string)
    ensures taskId !in rows ==> RetryStep(rows, db, taskId) == (Err(TaskNotFound), db)
    ensures taskId in rows && rows[taskId].status != "FAILED" ==>
      RetryStep(rows, db, taskId) == (Err(OnlyFailedRetried), db)
    ensures taskId in rows && rows[taskId].status == "FAILED" && taskId !in db.store ==>
      RetryStep(rows, db, taskId) == (Err(RecordNotFound), db)
    ensures taskId in rows && rows[taskId].status == "FAILED" && taskId in db.store && !HasRepository(rows[taskId]) ==>
      RetryStep(rows, db, taskId).0 == Err(NoRepositoryMessage(taskId))
  {
  }

  /** Once the guards on the task pass, the counter is reset even when the retry then
      fails for want of a repository path; nothing else of the record, no other record
      and no cache entry changes. */
  lemma RetryResetsCounter(rows: map<string, TaskRow>, db: Records, taskId: string)
    requires taskId in rows && rows[taskId].status == "FAILED" && taskId in db.store
    ensures var after := RetryStep(rows, db, taskId).1;
      taskId in after.store && after.store[taskId].retryCount == 0 &&
      after.store[taskId] == db.store[taskId].(retryCount := 0) &&
      after.store.Keys == db.store.Keys &&
      (forall t :: t in db.store && t != taskId ==> after.store[t] == db.store[t]) &&
      after.cache == db.cache
  {
  }

  /** A rejected retry before the reset leaves the records as they were. */
  lemma RetryRejectedEarlyWritesNothing(rows: map<string, TaskRow>, db: Records, taskId: string)
    requires taskId !in rows || rows[taskId].status != "FAILED" || taskId !in db.store
    ensures RetryStep(rows, db, taskId).1 == db
  {
  }

  /** While the cache holds the task's record, `getState` keeps reading the counter from
      before the reset: the retry's reset is visible only through the store. */
  lemma RetryResetBypassesCache(rows: map<string, TaskRow>, db: Records, taskId: string)
    requires taskId in db.cache
    ensures Lookup(RetryStep(rows, db, taskId).1, taskId) == Lookup(db, taskId)
  {
  }

  /** The reset keeps every record filed under its own task id. */
  lemma RetryKeepsKeyed(rows: map<string, TaskRow>, db: Records, taskId: string)
    requires Keyed(db)
    ensures Keyed(RetryStep(rows, db, taskId).1)
  {
  }

  /** `WorkflowService` over the orchestrator, its state machine and the task table. */
  class WorkflowService {
    const orchestrator: TaskOrchestratorService
    /** The executions handed to the event loop so far, oldest first. */
    var launches: seq<Launch>

    constructor(orchestrator: TaskOrchestratorService)
      ensures this.orchestrator == orchestrator && launches == []
    {
      this.orchestrator := orchestrator;
      launches := [];
    }

    /** `startWorkflow`: schedules one execution and answers at once. */
    method StartWorkflow(taskId: string, repoPath: string) returns (r: StartResponse)
      modifies this
      ensures r == Started(taskId) && r.taskId == taskId
      ensures launches == old(launches) + [Launch(taskId, repoPath)]
    {
      launches := launches + [Launch(taskId, repoPath)];
      r := StartResponse(taskId, "started", "Workflow execution started");
    }

    /** `getWorkflowStatus`: the orchestrator's progress report, errors included. */
    method GetWorkflowStatus(taskId: string) returns (r: Result<TaskProgress>)
      requires orchestrator.sm.Valid()
      modifies orchestrator.sm
      ensures orchestrator.sm.Valid() && orchestrator.sm.Db() == ReadStep(old(orchestrator.sm.Db()), taskId).1
      ensures ReadStep(old(orchestrator.sm.Db()), taskId).0.Err? ==>
        r == Err(ReadStep(old(orchestrator.sm.Db()), taskId).0.error)
      ensures ReadStep(old(orchestrator.sm.Db()), taskId).0.Ok? && taskId !in orchestrator.sm.tasks.rows ==>
        r == Err(TaskNotFoundMessage(taskId))
      ensures ReadStep(old(orchestrator.sm.Db()), taskId).0.Ok? && taskId in orchestrator.sm.tasks.rows ==>
        r == Ok(Report(taskId, orchestrator.sm.tasks.rows[taskId], ReadStep(old(orchestrator.sm.Db()), taskId).0.value))
    {
      r := orchestrator.GetTaskProgress(taskId);
    }

    /** `retryWorkflow`. */
    method RetryWorkflow(taskId: string) returns (r: Result<StartResponse>)
      requires orchestrator.sm.Valid()
      modifies this, orchestrator.sm
      ensures orchestrator.sm.Valid()
      ensures (r, orchestrator.sm.Db()) == RetryStep(orchestrator.sm.tasks.rows, old(orchestrator.sm.Db()), taskId)
      ensures launches == old(launches) + RetryLaunches(orchestrator.sm.tasks.rows, old(orchestrator.sm.Db()), taskId)
    {
      var sm := orchestrator.sm;
      if taskId !in sm.tasks.rows {
        return Err(TaskNotFound);
      }
      var task := sm.tasks.rows[taskId];
      if task.status != "FAILED" {
        return Err(OnlyFailedRetried);
      }
      if taskId !in sm.store {
        return Err(RecordNotFound);
      }
      sm.store := sm.store[taskId := sm.store[taskId].(retryCount := 0)];
      if task.repoPath.None? || task.repoPath.value == "" {
        return Err(NoRepositoryMessage(taskId));
      }
      var started := StartWorkflow(taskId, task.repoPath.value);
      r := Ok(started);
    }
  }
}
