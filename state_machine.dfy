/** The workflow state machine: nine states, a fixed transition table, a per-state
    progress table, and per-task records holding the transition history, a merged
    metadata bag and a retry counter. Records live in a cache (Redis) read first and a
    durable store (Prisma `workflowState`); every accepted transition is published on
    the bus topic 'workflow-events'. */
module StateMachine {
  import opened Common
  import opened Stores

  datatype WorkflowState =
    | IDLE | PLANNING | EXECUTING | TESTING | DEBUGGING | DELIVERING | COMPLETED | FAILED | RETRYING

  /** The enum's string value, as it appears in messages and in the store. */
  function StateName(s: WorkflowState): (name: string)
    ensures |name| >= 4
  {
    match s
    case IDLE => "IDLE"
    case PLANNING => "PLANNING"
    case EXECUTING => "EXECUTING"
    case TESTING => "TESTING"
    case DEBUGGING => "DEBUGGING"
    case DELIVERING => "DELIVERING"
    case COMPLETED => "COMPLETED"
    case FAILED => "FAILED"
    case RETRYING => "RETRYING"
  }

  lemma StateNameInjective(a: WorkflowState, b: WorkflowState)
    requires StateName(a) == StateName(b)
    ensures a == b
  {
  }

  // ---------------------------------------------------------------------------
  // The transition table

  /** The states each state may move to, in the table's order. */
  function Successors(from: WorkflowState): (next: seq<WorkflowState>)
    ensures from !in next
  {
    match from
    case IDLE => [PLANNING]
    case PLANNING => [EXECUTING, FAILED]
    case EXECUTING => [TESTING, DELIVERING, DEBUGGING, FAILED]
    case TESTING => [DEBUGGING, DELIVERING, FAILED]
    case DEBUGGING => [EXECUTING, RETRYING, FAILED]
    case RETRYING => [EXECUTING, FAILED]
    case DELIVERING => [COMPLETED, FAILED]
    case COMPLETED => []
    case FAILED => [RETRYING]
  }

  predicate IsValidTransition(from: WorkflowState, to: WorkflowState) {
    to in Successors(from)
  }

  /** COMPLETED is terminal. */
  lemma CompletedIsTerminal(to: WorkflowState)
    ensures !IsValidTransition(COMPLETED, to)
  {
  }

  /** The only way out of FAILED is RETRYING. */
  lemma FailedOnlyRetries(to: WorkflowState)
    ensures IsValidTransition(FAILED, to) <==> to == RETRYING
  {
  }

  /** RETRYING is entered only from DEBUGGING or FAILED. */
  lemma RetryingPredecessors(from: WorkflowState)
    ensures IsValidTransition(from, RETRYING) <==> from == DEBUGGING || from == FAILED
  {
  }

  /** COMPLETED is entered only from DELIVERING; in particular not from TESTING. */
  lemma CompletedPredecessors(from: WorkflowState)
    ensures IsValidTransition(from, COMPLETED) <==> from == DELIVERING
  {
  }

  /** FAILED is entered from every state except IDLE, COMPLETED and FAILED itself. */
  lemma FailedPredecessors(from: WorkflowState)
    ensures IsValidTransition(from, FAILED) <==> from != IDLE && from != COMPLETED && from != FAILED
  {
  }

  /** No transition leads back to IDLE. */
  lemma IdleNeverReentered(from: WorkflowState)
    ensures !IsValidTransition(from, IDLE)
  {
  }

  // ---------------------------------------------------------------------------
  // Progress

  /** The progress a record shows once it is in `state`; FAILED keeps the prior value. */
  function CalculateProgress(state: WorkflowState, prior: int): (p: int)
    ensures state != FAILED ==> 0 <= p <= 100
    ensures state == FAILED ==> p == prior
  {
    match state
    case IDLE => 0
    case PLANNING => 10
    case EXECUTING => 40
    case TESTING => 60
    case DEBUGGING => 50
    case RETRYING => 45
    case DELIVERING => 85
    case COMPLETED => 100
    case FAILED => prior
  }

  /** Progress strictly rises along IDLE, PLANNING, EXECUTING, TESTING, DELIVERING, COMPLETED. */
  lemma ProgressRisesOnHappyPath(prior: int)
    ensures CalculateProgress(IDLE, prior) < CalculateProgress(PLANNING, prior)
      < CalculateProgress(EXECUTING, prior) < CalculateProgress(TESTING, prior)
      < CalculateProgress(DELIVERING, prior) < CalculateProgress(COMPLETED, prior)
  {
  }

  /** Progress is not monotone: the valid edge TESTING to DEBUGGING lowers it from 60 to 50. */
  lemma ProgressNotMonotone(prior: int)
    ensures IsValidTransition(TESTING, DEBUGGING)
    ensures CalculateProgress(DEBUGGING, prior) < CalculateProgress(TESTING, prior)
  {
  }

  // ---------------------------------------------------------------------------
  // Records

  datatype StateTransition = StateTransition(
    from: WorkflowState,
    to: WorkflowState,
    event: string,
    metadata: Option<map<string, Json>>)

  datatype WorkflowStateData = WorkflowStateData(
    taskId: string,
    currentState: WorkflowState,
    progress: int,
    history: seq<StateTransition>,
    retryCount: int,
    lastError: Option<string>,
    metadata: map<string, Json>)

  /** The record `initializeWorkflow` writes. */
  function InitialState(taskId: string): (d: WorkflowStateData)
    ensures d.taskId == taskId && d.currentState == IDLE && d.progress == 0
    ensures d.history == [] && d.retryCount == 0 && d.metadata == map[] && d.lastError.None?
  {
    WorkflowStateData(taskId, IDLE, 0, [], 0, None, map[])
  }

  function LastState(h: seq<StateTransition>): WorkflowState {
    if |h| == 0 then IDLE else h[|h| - 1].to
  }

  /** Each entry starts where the previous one ended (the first at IDLE) and is an edge of the table. */
  predicate Chained(h: seq<StateTransition>) {
    |h| == 0 || (Chained(h[..|h| - 1]) && h[|h| - 1].from == LastState(h[..|h| - 1])
                 && IsValidTransition(h[|h| - 1].from, h[|h| - 1].to))
  }

  /** The progress obtained by replaying the history from IDLE. */
  function ReplayProgress(h: seq<StateTransition>): int {
    if |h| == 0 then 0 else CalculateProgress(h[|h| - 1].to, ReplayProgress(h[..|h| - 1]))
  }

  /** A record is the result of replaying its own history from the initial record. */
  predicate WellFormed(d: WorkflowStateData) {
    Chained(d.history) && d.currentState == LastState(d.history) && d.progress == ReplayProgress(d.history)
  }

  lemma InitialWellFormed(taskId: string)
    ensures WellFormed(InitialState(taskId))
  {
  }

  /** Replayed progress always lies in [0, 100]. */
  lemma {:induction false} ReplayProgressInRange(h: seq<StateTransition>)
    ensures 0 <= ReplayProgress(h) <= 100
  {
    if |h| > 0 {
      ReplayProgressInRange(h[..|h| - 1]);
    }
  }

  function NotFoundMessage(taskId: string): string {
    "Workflow state not found for task " + taskId
  }

  function InvalidTransitionMessage(from: WorkflowState, to: WorkflowState): string {
    "Invalid transition from " + StateName(from) + " to " + StateName(to)
  }

  /** `transition` on a record already read: rejected unless the edge is in the table;
      otherwise one history entry is appended, the state moves, metadata is merged
      with the new keys winning, and progress follows the new state. */
  function ApplyTransition(d: WorkflowStateData, to: WorkflowState, event: string,
                           md: Option<map<string, Json>>): (r: Result<WorkflowStateData>)
    ensures r.Err? <==> !IsValidTransition(d.currentState, to)
    ensures r.Err? ==> r.error == InvalidTransitionMessage(d.currentState, to)
    ensures r.Ok? ==> r.value.currentState == to
    ensures r.Ok? ==> r.value.history == d.history + [StateTransition(d.currentState, to, event, md)]
    ensures r.Ok? ==> r.value.progress == CalculateProgress(to, d.progress)
    ensures r.Ok? ==> r.value.taskId == d.taskId && r.value.retryCount == d.retryCount
    ensures r.Ok? ==> r.value.lastError == d.lastError
  {
    if !IsValidTransition(d.currentState, to) then
      Err(InvalidTransitionMessage(d.currentState, to))
    else
      var entry := StateTransition(d.currentState, to, event, md);
      var merged := if md.Some? then d.metadata + md.value else d.metadata;
      Ok(d.(history := d.history + [entry], currentState := to, metadata := merged,
            progress := CalculateProgress(to, d.progress)))
  }

  /** Metadata is merged with the new keys winning; without metadata the bag is unchanged. */
  lemma TransitionMergesMetadata(d: WorkflowStateData, to: WorkflowState, event: string,
                                 md: Option<map<string, Json>>)
    requires IsValidTransition(d.currentState, to)
    ensures var m := ApplyTransition(d, to, event, md).value.metadata;
      && (md.None? ==> m == d.metadata)
      && (md.Some? ==> m.Keys == d.metadata.Keys + md.value.Keys)
      && (md.Some? ==> forall k :: k in md.value ==> m[k] == md.value[k])
      && (md.Some? ==> forall k :: k in d.metadata && k !in md.value ==> m[k] == d.metadata[k])
  {
  }

  /** An accepted transition keeps a record well formed. */
  lemma ApplyPreservesWellFormed(d: WorkflowStateData, to: WorkflowState, event: string,
                                 md: Option<map<string, Json>>)
    requires WellFormed(d)
    ensures ApplyTransition(d, to, event, md).Ok? ==> WellFormed(ApplyTransition(d, to, event, md).value)
  {
    var r := ApplyTransition(d, to, event, md);
    if r.Ok? {
      var h := r.value.history;
      assert h[..|h| - 1] == d.history;
    }
  }

  /** A requested transition: target state, event name and optional metadata. */
  datatype Step = Step(to: WorkflowState, event: string, metadata: Option<map<string, Json>>)

  /** Several transitions in a row; a rejected one leaves the record as it was. */
  function ApplyAll(d: WorkflowStateData, steps: seq<Step>): WorkflowStateData
    decreases |steps|
  {
    if |steps| == 0 then d
    else
      var r := ApplyTransition(d, steps[0].to, steps[0].event, steps[0].metadata);
      ApplyAll(if r.Ok? then r.value else d, steps[1..])
  }

  /** The history only grows, by one entry per accepted step, and the record stays well formed. */
  lemma {:induction false} ApplyAllExtendsHistory(d: WorkflowStateData, steps: seq<Step>)
    requires WellFormed(d)
    ensures WellFormed(ApplyAll(d, steps))
    ensures |d.history| <= |ApplyAll(d, steps).history| <= |d.history| + |steps|
    ensures ApplyAll(d, steps).history[..|d.history|] == d.history
    ensures ApplyAll(d, steps).retryCount == d.retryCount
    decreases |steps|
  {
    if |steps| > 0 {
      var r := ApplyTransition(d, steps[0].to, steps[0].event, steps[0].metadata);
      var next := if r.Ok? then r.value else d;
      ApplyPreservesWellFormed(d, steps[0].to, steps[0].event, steps[0].metadata);
      ApplyAllExtendsHistory(next, steps[1..]);
      var final := ApplyAll(next, steps[1..]);
      assert final.history[..|next.history|] == next.history;
      assert next.history[..|d.history|] == d.history;
      assert final.history[..|d.history|] == final.history[..|next.history|][..|d.history|];
    }
  }

  /** Once COMPLETED, no sequence of requests changes the record. */
  lemma {:induction false} CompletedIsAbsorbing(d: WorkflowStateData, steps: seq<Step>)
    requires d.currentState == COMPLETED
    ensures ApplyAll(d, steps) == d
    decreases |steps|
  {
    if |steps| > 0 {
      CompletedIsTerminal(steps[0].to);
      CompletedIsAbsorbing(d, steps[1..]);
    }
  }

  // ---------------------------------------------------------------------------
  // Bus payloads

  function MetadataJson(md: map<string, Json>): Json {
    JObj(md)
  }

  /** The transition object as serialised: an absent metadata key is omitted. */
  function TransitionJson(t: StateTransition): Json {
    var base := map["from" := JStr(StateName(t.from)), "to" := JStr(StateName(t.to)),
                    "event" := JStr(t.event)];
    JObj(if t.metadata.Some? then base["metadata" := MetadataJson(t.metadata.value)] else base)
  }

  function TransitionEvent(taskId: string, t: StateTransition, now: string): Json {
    JObj(map["type" := JStr("STATE_TRANSITION"), "taskId" := JStr(taskId),
             "transition" := TransitionJson(t), "timestamp" := JStr(now)])
  }


  // ---------------------------------------------------------------------------
  // Cache and store as values

  /** The Redis entries `workflow:state:<taskId>` (keyed here by task id) and the
      Prisma `workflowState` rows. */
  datatype Records = Records(cache: map<string, WorkflowStateData>, store: map<string, WorkflowStateData>)

  /** Every record is filed under its own task id. */
  predicate Keyed(db: Records) {
    (forall t :: t in db.cache ==> db.cache[t].taskId == t)
    && (forall t :: t in db.store ==> db.store[t].taskId == t)
  }

  /** What `getState` reads: the cache entry if present, else the store's. */
  function Lookup(db: Records, taskId: string): Option<WorkflowStateData> {
    if taskId in db.cache then Some(db.cache[taskId])
    else if taskId in db.store then Some(db.store[taskId])
    else None
  }

  /** `saveState` then `persistState`: the record goes to the cache and is upserted into the store. */
  function Write(db: Records, taskId: string, d: WorkflowStateData): Records {
    Records(db.cache[taskId := d], db.store[taskId := d])
  }

  /** `getState`: a miss in both throws; a store hit is copied into the cache. */
  function ReadStep(db: Records, taskId: string): (Result<WorkflowStateData>, Records) {
    if taskId in db.cache then (Ok(db.cache[taskId]), db)
    else if taskId in db.store then (Ok(db.store[taskId]), db.(cache := db.cache[taskId := db.store[taskId]]))
    else (Err(NotFoundMessage(taskId)), db)
  }

  /** `transition`: the read, then the table check, then the write of the new record. */
  function TransitionStep(db: Records, taskId: string, to: WorkflowState, event: string,
                          md: Option<map<string, Json>>): (Result<WorkflowStateData>, Records)
  {
    var (got, db1) := ReadStep(db, taskId);
    if got.Err? then (Err(got.error), db1)
    else
      var a := ApplyTransition(got.value, to, event, md);
      if a.Err? then (a, db1) else (a, Write(db1, taskId, a.value))
  }

  /** What `transition` publishes: one event for an accepted transition, nothing otherwise. */
  function TransitionPublished(db: Records, taskId: string, to: WorkflowState, event: string,
                               md: Option<map<string, Json>>, now: string): seq<BusMessage>
  {
    match Lookup(db, taskId)
    case None => []
    case Some(d) =>
      if IsValidTransition(d.currentState, to) then
        [BusMessage(WorkflowEventsTopic, TransitionEvent(taskId, StateTransition(d.currentState, to, event, md), now))]
      else []
  }

  /** `incrementRetry`. */
  function IncrementStep(db: Records, taskId: string): (Result<int>, Records) {
    var (got, db1) := ReadStep(db, taskId);
    if got.Err? then (Err(got.error), db1)
    else
      var next := got.value.(retryCount := got.value.retryCount + 1);
      (Ok(next.retryCount), Write(db1, taskId, next))
  }

  /** `markFailed`: a read whose result is copied and dropped, the FAILED transition, then
      the task row's status. */
  function MarkFailedStep(db: Records, rows: map<string, TaskRow>, taskId: string, error: string)
    : (Result<()>, Records, map<string, TaskRow>)
  {
    var (got, db1) := ReadStep(db, taskId);
    if got.Err? then (Err(got.error), db1, rows)
    else
      var (t, db2) := TransitionStep(db1, taskId, FAILED, "ERROR", Some(map["error" := JStr(error)]));
      if t.Err? then (Err(t.error), db2, rows)
      else
        var (u, rows2) := UpdateRow(rows, taskId, "FAILED", None);
        (u, db2, rows2)
  }

  /** `markCompleted`: the COMPLETED transition, then the task row's status and completion time. */
  function MarkCompletedStep(db: Records, rows: map<string, TaskRow>, taskId: string, result: string,
                             now: string): (Result<()>, Records, map<string, TaskRow>)
  {
    var (t, db1) := TransitionStep(db, taskId, COMPLETED, "COMPLETE", Some(map["result" := JStr(result)]));
    if t.Err? then (Err(t.error), db1, rows)
    else
      var (u, rows2) := UpdateRow(rows, taskId, "SUCCESS", Some(now));
      (u, db1, rows2)
  }

  // ---------------------------------------------------------------------------
  // What the steps guarantee

  /** Reading never changes what any later read returns, and never touches the store. */
  lemma ReadStepInvisible(db: Records, taskId: string)
    ensures ReadStep(db, taskId).1.store == db.store
    ensures forall t :: Lookup(ReadStep(db, taskId).1, t) == Lookup(db, t)
    ensures ReadStep(db, taskId).0.Ok? <==> Lookup(db, taskId).Some?
    ensures ReadStep(db, taskId).0.Ok? ==> Lookup(db, taskId) == Some(ReadStep(db, taskId).0.value)
  {
  }

  /** A rejected or unknown transition writes nothing: the store is unchanged and every
      read returns what it returned before. */
  lemma RejectedTransitionWritesNothing(db: Records, taskId: string, to: WorkflowState, event: string,
                                        md: Option<map<string, Json>>, now: string)
    requires TransitionStep(db, taskId, to, event, md).0.Err?
    ensures TransitionStep(db, taskId, to, event, md).1.store == db.store
    ensures forall t :: Lookup(TransitionStep(db, taskId, to, event, md).1, t) == Lookup(db, t)
    ensures TransitionPublished(db, taskId, to, event, md, now) == []
  {
    ReadStepInvisible(db, taskId);
  }

  /** An accepted transition changes only its own task's record, which every later read
      returns; that record is the old one with exactly one entry appended. */
  lemma AcceptedTransitionIsolated(db: Records, taskId: string, to: WorkflowState, event: string,
                                   md: Option<map<string, Json>>, now: string)
    requires TransitionStep(db, taskId, to, event, md).0.Ok?
    ensures var (r, db2) := TransitionStep(db, taskId, to, event, md);
      && Lookup(db, taskId).Some?
      && IsValidTransition(Lookup(db, taskId).value.currentState, to)
      && Lookup(db2, taskId) == Some(r.value)
      && db2.store[taskId] == r.value
      && r.value.history == Lookup(db, taskId).value.history
                            + [StateTransition(Lookup(db, taskId).value.currentState, to, event, md)]
      && (forall t :: t != taskId ==> Lookup(db2, t) == Lookup(db, t))
      && |TransitionPublished(db, taskId, to, event, md, now)| == 1
  {
    ReadStepInvisible(db, taskId);
  }

  /** `incrementRetry` raises the counter by exactly one and leaves the rest of the record. */
  lemma IncrementChangesOnlyCounter(db: Records, taskId: string)
    requires Lookup(db, taskId).Some?
    ensures var (r, db2) := IncrementStep(db, taskId);
      && r == Ok(Lookup(db, taskId).value.retryCount + 1)
      && Lookup(db2, taskId) == Some(Lookup(db, taskId).value.(retryCount := r.value))
      && (forall t :: t != taskId ==> Lookup(db2, t) == Lookup(db, t))
  {
    ReadStepInvisible(db, taskId);
  }

  /** `markFailed` never records `lastError`: the record after it has the `lastError` it had
      before, and the message is kept only as the transition's `metadata.error`. */
  lemma MarkFailedLosesLastError(db: Records, rows: map<string, TaskRow>, taskId: string, error: string)
    requires Lookup(db, taskId).Some?
    requires IsValidTransition(Lookup(db, taskId).value.currentState, FAILED)
    ensures var (_, db2, _) := MarkFailedStep(db, rows, taskId, error);
      && Lookup(db2, taskId).Some?
      && Lookup(db2, taskId).value.lastError == Lookup(db, taskId).value.lastError
      && Lookup(db2, taskId).value.currentState == FAILED
      && Lookup(db2, taskId).value.metadata["error"] == JStr(error)
  {
    var d := Lookup(db, taskId).value;
    var db1 := ReadStep(db, taskId).1;
    ReadStepInvisible(db, taskId);
    assert Lookup(db1, taskId) == Some(d);
    AcceptedTransitionIsolated(db1, taskId, FAILED, "ERROR", Some(map["error" := JStr(error)]), "");
    TransitionMergesMetadata(d, FAILED, "ERROR", Some(map["error" := JStr(error)]));
  }

  /** Two record sets agree on every task other than `taskId`, in the cache and in the store. */
  predicate OthersAgree(db: Records, db2: Records, taskId: string) {
    db2.cache - {taskId} == db.cache - {taskId} && db2.store - {taskId} == db.store - {taskId}
  }

  lemma WriteTouchesOnlyItsTask(db: Records, taskId: string, d: WorkflowStateData)
    ensures OthersAgree(db, Write(db, taskId, d), taskId)
  {
    assert db.cache[taskId := d] - {taskId} == db.cache - {taskId};
    assert db.store[taskId := d] - {taskId} == db.store - {taskId};
  }

  lemma ReadTouchesOnlyItsTask(db: Records, taskId: string)
    ensures OthersAgree(db, ReadStep(db, taskId).1, taskId)
  {
    if taskId !in db.cache && taskId in db.store {
      assert db.cache[taskId := db.store[taskId]] - {taskId} == db.cache - {taskId};
    }
  }

  /** Every step of the service on a task leaves the records of all other tasks as they
      were, in the cache and in the store. */
  lemma StepsTouchOnlyTheirTask(db: Records, rows: map<string, TaskRow>, taskId: string, to: WorkflowState,
                                event: string, md: Option<map<string, Json>>, message: string, now: string)
    ensures OthersAgree(db, ReadStep(db, taskId).1, taskId)
    ensures OthersAgree(db, TransitionStep(db, taskId, to, event, md).1, taskId)
    ensures OthersAgree(db, IncrementStep(db, taskId).1, taskId)
    ensures OthersAgree(db, MarkFailedStep(db, rows, taskId, message).1, taskId)
    ensures OthersAgree(db, MarkCompletedStep(db, rows, taskId, message, now).1, taskId)
  {
    ReadTouchesOnlyItsTask(db, taskId);
    var (got, db1) := ReadStep(db, taskId);
    TransitionTouchesOnlyItsTask(db, taskId, to, event, md);
    TransitionTouchesOnlyItsTask(db, taskId, COMPLETED, "COMPLETE", Some(map["result" := JStr(message)]));
    if got.Ok? {
      WriteTouchesOnlyItsTask(db1, taskId, got.value.(retryCount := got.value.retryCount + 1));
      TransitionTouchesOnlyItsTask(db1, taskId, FAILED, "ERROR", Some(map["error" := JStr(message)]));
    }
  }

  lemma TransitionTouchesOnlyItsTask(db: Records, taskId: string, to: WorkflowState, event: string,
                                     md: Option<map<string, Json>>)
    ensures OthersAgree(db, TransitionStep(db, taskId, to, event, md).1, taskId)
  {
    ReadTouchesOnlyItsTask(db, taskId);
    var (got, db1) := ReadStep(db, taskId);
    if got.Ok? {
      var a := ApplyTransition(got.value, to, event, md);
      if a.Ok? {
        WriteTouchesOnlyItsTask(db1, taskId, a.value);
      }
    }
  }

  /** Every record anywhere replays its own history. */
  predicate AllWellFormed(db: Records) {
    (forall t :: t in db.cache ==> WellFormed(db.cache[t]))
    && (forall t :: t in db.store ==> WellFormed(db.store[t]))
  }

  lemma {:induction false} ReadStepKeepsWellFormed(db: Records, taskId: string)
    requires AllWellFormed(db)
    ensures AllWellFormed(ReadStep(db, taskId).1)
    ensures ReadStep(db, taskId).0.Ok? ==> WellFormed(ReadStep(db, taskId).0.value)
  {
  }

  lemma WriteKeepsWellFormed(db: Records, taskId: string, d: WorkflowStateData)
    requires AllWellFormed(db) && WellFormed(d)
    ensures AllWellFormed(Write(db, taskId, d))
  {
  }

  /** Transitions keep every record a replay of its history. */
  lemma TransitionStepKeepsWellFormed(db: Records, taskId: string, to: WorkflowState, event: string,
                                      md: Option<map<string, Json>>)
    requires AllWellFormed(db)
    ensures AllWellFormed(TransitionStep(db, taskId, to, event, md).1)
  {
    ReadStepKeepsWellFormed(db, taskId);
    var got := ReadStep(db, taskId).0;
    var db1 := ReadStep(db, taskId).1;
    if got.Ok? {
      var a := ApplyTransition(got.value, to, event, md);
      if a.Ok? {
        ApplyPreservesWellFormed(got.value, to, event, md);
        WriteKeepsWellFormed(db1, taskId, a.value);
        assert TransitionStep(db, taskId, to, event, md).1 == Write(db1, taskId, a.value);
      } else {
        assert TransitionStep(db, taskId, to, event, md).1 == db1;
      }
    } else {
      assert TransitionStep(db, taskId, to, event, md).1 == db1;
    }
  }

  /** Counting retries keeps every record a replay of its history. */
  lemma IncrementStepKeepsWellFormed(db: Records, taskId: string)
    requires AllWellFormed(db)
    ensures AllWellFormed(IncrementStep(db, taskId).1)
  {
    ReadStepKeepsWellFormed(db, taskId);
  }

  // ---------------------------------------------------------------------------
  // The service

  class StateMachineService {
    var cache: map<string, WorkflowStateData>
    var store: map<string, WorkflowStateData>
    const bus: EventBus
    const tasks: TaskTable

    ghost function Db(): Records
      reads this
    {
      Records(cache, store)
    }

    ghost predicate Valid()
      reads this
    {
      Keyed(Db())
    }

    constructor(bus: EventBus, tasks: TaskTable)
      ensures Valid() && cache == map[] && store == map[]
      ensures this.bus == bus && this.tasks == tasks
    {
      cache := map[];
      store := map[];
      this.bus := bus;
      this.tasks := tasks;
    }

    /** `saveState` followed by `persistState`. */
    method Save(taskId: string, d: WorkflowStateData)
      requires Valid() && d.taskId == taskId
      modifies this
      ensures Valid()
      ensures Db() == Write(old(Db()), taskId, d)
    {
      cache := cache[taskId := d];
      store := store[taskId := d];
    }

    /** `initializeWorkflow`: the initial record replaces any earlier record of the task. */
    method InitializeWorkflow(taskId: string) returns (d: WorkflowStateData)
      requires Valid()
      modifies this
      ensures Valid()
      ensures d == InitialState(taskId) && Db() == Write(old(Db()), taskId, d)
    {
      d := InitialState(taskId);
      Save(taskId, d);
    }

    method GetState(taskId: string) returns (r: Result<WorkflowStateData>)
      requires Valid()
      modifies this
      ensures Valid()
      ensures (r, Db()) == ReadStep(old(Db()), taskId)
      ensures r.Ok? ==> r.value.taskId == taskId
    {
      if taskId in cache {
        return Ok(cache[taskId]);
      }
      if taskId !in store {
        return Err(NotFoundMessage(taskId));
      }
      var d := store[taskId];
      cache := cache[taskId := d];
      return Ok(d);
    }

    method Transition(taskId: string, to: WorkflowState, event: string,
                      md: Option<map<string, Json>>, now: string)
      returns (r: Result<WorkflowStateData>)
      requires Valid()
      modifies this, bus
      ensures Valid()
      ensures (r, Db()) == TransitionStep(old(Db()), taskId, to, event, md)
      ensures bus.log == old(bus.log) + TransitionPublished(old(Db()), taskId, to, event, md, now)
    {
      var d :- GetState(taskId);
      r := ApplyTransition(d, to, event, md);
      if r.Err? {
        return;
      }
      Save(taskId, r.value);
      bus.Publish(WorkflowEventsTopic, TransitionEvent(taskId, StateTransition(d.currentState, to, event, md), now));
    }

    method IncrementRetry(taskId: string) returns (r: Result<int>)
      requires Valid()
      modifies this
      ensures Valid()
      ensures (r, Db()) == IncrementStep(old(Db()), taskId)
    {
      var state :- GetState(taskId);
      state := state.(retryCount := state.retryCount + 1);
      Save(taskId, state);
      return Ok(state.retryCount);
    }

    method MarkFailed(taskId: string, error: string, now: string) returns (r: Result<()>)
      requires Valid()
      modifies this, bus, tasks
      ensures Valid()
      ensures (r, Db(), tasks.rows) == MarkFailedStep(old(Db()), old(tasks.rows), taskId, error)
      ensures bus.log == old(bus.log) + TransitionPublished(old(Db()), taskId, FAILED, "ERROR",
                                                            Some(map["error" := JStr(error)]), now)
    {
      var state :- GetState(taskId);
      var copy := state.(lastError := Some(error));
      var _ :- Transition(taskId, FAILED, "ERROR", Some(map["error" := JStr(error)]), now);
      r := tasks.Update(taskId, "FAILED", None);
    }

    method MarkCompleted(taskId: string, result: string, now: string) returns (r: Result<()>)
      requires Valid()
      modifies this, bus, tasks
      ensures Valid()
      ensures (r, Db(), tasks.rows) == MarkCompletedStep(old(Db()), old(tasks.rows), taskId, result, now)
      ensures bus.log == old(bus.log) + TransitionPublished(old(Db()), taskId, COMPLETED, "COMPLETE",
                                                            Some(map["result" := JStr(result)]), now)
    {
      var _ :- Transition(taskId, COMPLETED, "COMPLETE", Some(map["result" := JStr(result)]), now);
      r := tasks.Update(taskId, "SUCCESS", Some(now));
    }

    /** Expiry of a cache entry's one-hour time to live. */
    method EvictCache(taskId: string)
      requires Valid()
      modifies this
      ensures Valid()
      ensures Db() == old(Db()).(cache := old(cache) - {taskId})
    {
      cache := cache - {taskId};
    }
  }
}
