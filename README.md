# PilotCode backend core, modelled in Dafny

PilotCode is an autonomous coding agent. A task has a repository path. The backend plans the task as subtasks, edits files, runs commands and tests, and delivers the result as a pull request.

This project models the deterministic core of that backend. Each modelled source file is one Dafny module:

- **StateMachine** (`state_machine.dfy`): the workflow state machine.
  - Nine states and the transition table.
  - The progress table.
  - The per-task record, with its history, metadata and retry counter.
  - A class holding the read-through cache, the durable store and the event bus.
- **TaskOrchestrator** (`task_orchestrator.dfy`): one execution of a task.
  - The fixed order of phases.
  - The subtask and command loops, which stop at the first failure.
  - The failure handler with its bounded-retry rule.
  - The progress report.
- **Workflow** (`workflow_service.dfy`): starting a task, reporting on it, and retrying a failed one.
- **WorkflowGateway** and **EventsGateway**: the two websocket gateways. Each keeps a map from task id to the set of subscribed clients. Both share the operations of **Subscriptions**.
- **DebugLoop**, **CommandExecutor**, **Hands**: the bounded debug loop, the command batch that stops at the first failure, and the batch of file operations.
- **TestRunner**: choosing the test framework, building the test commands, parsing the test output, and naming test files.
- **CodeQuality**: the quality score and the suggestions.
- **CodeEditor**:
  - language detection;
  - stripping markdown fences from generated code;
  - the create-or-update branch of applying a code change.
- **ContextGatherer**: what the project context is made of, and how it is rendered.
  - The file filters and the directory walk.
  - The dependency parsers and framework detection.
  - The context summary.
- **Delivery** and **GitHub**: branch names, branch types, the status sequence of a delivery, replies to code review, and repository URL parsing.
- **RateLimit**: the per-route request counter.

Three modules support the rest:

- **Common**: Option and Result, JSON values, and the string helpers. The helpers are JavaScript whitespace, `trim`, ASCII lower-casing, `split`/`join` and integer printing/parsing.
- **Paths**: the Node `path` functions the core uses.
- **Stores**: the task table and the Kafka event bus.

Collaborators that call a language model, run a process, touch the file system or talk to the network appear as their answers, passed in as parameters. A failure is an `Err` value carrying the thrown message. Timestamps are parameters too.

Where the project's documentation and its code disagree, the model follows the code:

- Progress is not monotone: TESTING to DEBUGGING lowers it from 60 to 50.
- `markFailed` never stores `lastError`.
- The success path of an execution never reaches COMPLETED, because TESTING to COMPLETED is not in the table.

## Model

| member | source | states |
|---|---|---|
| StateMachine.Successors | apps/backend/src/workflow/state-machine.service.ts:175-205 | no state lists itself as a successor |
| StateMachine.CompletedIsTerminal | apps/backend/src/workflow/state-machine.service.ts:200 | COMPLETED has no valid successor |
| StateMachine.FailedOnlyRetries | apps/backend/src/workflow/state-machine.service.ts:201 | from FAILED exactly RETRYING is valid |
| StateMachine.RetryingPredecessors | apps/backend/src/workflow/state-machine.service.ts:175-205 | RETRYING can be entered exactly from DEBUGGING and FAILED |
| StateMachine.CompletedPredecessors | apps/backend/src/workflow/state-machine.service.ts:175-205 | COMPLETED can be entered only from DELIVERING, so never from TESTING |
| StateMachine.FailedPredecessors | apps/backend/src/workflow/state-machine.service.ts:175-205 | FAILED can be entered from every state except IDLE, COMPLETED and FAILED |
| StateMachine.IdleNeverReentered | apps/backend/src/workflow/state-machine.service.ts:175-205 | no valid transition leads to IDLE |
| StateMachine.CalculateProgress | apps/backend/src/workflow/state-machine.service.ts:207-221 | progress lies in 0..100 for every state but FAILED, and FAILED keeps the prior value |
| StateMachine.ProgressRisesOnHappyPath | apps/backend/src/workflow/state-machine.service.ts:207-221 | progress strictly rises along IDLE, PLANNING, EXECUTING, TESTING, DELIVERING, COMPLETED |
| StateMachine.ProgressNotMonotone | apps/backend/src/workflow/state-machine.service.ts:185-213 | the valid edge TESTING to DEBUGGING lowers progress |
| StateMachine.InitialState | apps/backend/src/workflow/state-machine.service.ts:47-55 | a new record is IDLE, at progress 0, with empty history and metadata, a zero retry count and no last error |
| StateMachine.InitialWellFormed | apps/backend/src/workflow/state-machine.service.ts:47-55 | a new record agrees with the replay of its (empty) history |
| StateMachine.ReplayProgressInRange | apps/backend/src/workflow/state-machine.service.ts:207-221 | the progress reached by any history of transitions lies in 0..100 |
| StateMachine.ApplyTransition | apps/backend/src/workflow/state-machine.service.ts:71-92 | the transition is rejected exactly when the table lacks the edge, with the "Invalid transition from A to B" message; otherwise exactly one entry {from, to, event, metadata} is appended and the state becomes `to` |
| StateMachine.TransitionMergesMetadata | apps/backend/src/workflow/state-machine.service.ts:87-89 | given metadata is merged into the bag with the new keys winning; without metadata the bag is unchanged |
| StateMachine.ApplyPreservesWellFormed | apps/backend/src/workflow/state-machine.service.ts:77-92 | an accepted transition keeps the record equal to the replay of its history |
| StateMachine.ApplyAllExtendsHistory | apps/backend/src/workflow/state-machine.service.ts:77-92 | over any series of requests the old history stays a prefix, the history grows by at most one entry per request, and the retry count is untouched |
| StateMachine.CompletedIsAbsorbing | apps/backend/src/workflow/state-machine.service.ts:200 | once COMPLETED, no series of transition requests changes the record |
| StateMachine.ReadStepInvisible | apps/backend/src/workflow/state-machine.service.ts:109-139 | a read succeeds exactly when the cache or the store holds the task, returns that record, and leaves the store and every later read unchanged |
| StateMachine.RejectedTransitionWritesNothing | apps/backend/src/workflow/state-machine.service.ts:69-75 | a rejected transition leaves the store and every later read unchanged and publishes nothing |
| StateMachine.AcceptedTransitionIsolated | apps/backend/src/workflow/state-machine.service.ts:77-104 | an accepted transition changes only its own task's record, appends exactly one history entry, writes the new record to the store, and publishes exactly one event |
| StateMachine.IncrementChangesOnlyCounter | apps/backend/src/workflow/state-machine.service.ts:247-253 | the retry count rises by exactly one and is returned; nothing else in any record changes |
| StateMachine.MarkFailedLosesLastError | apps/backend/src/workflow/state-machine.service.ts:223-227 | after `markFailed` the record is FAILED and holds the message as `metadata.error`, but its `lastError` is the one it had before |
| StateMachine.TransitionStepKeepsWellFormed | apps/backend/src/workflow/state-machine.service.ts:63-107 | transitions keep every cached and stored record equal to the replay of its history |
| StateMachine.IncrementStepKeepsWellFormed | apps/backend/src/workflow/state-machine.service.ts:247-253 | counting a retry keeps every record equal to the replay of its history |
| StateMachine.StateMachineService.Save | apps/backend/src/workflow/state-machine.service.ts:141-173 | the record goes to both the cache and the store, replacing any earlier one |
| StateMachine.StateMachineService.InitializeWorkflow | apps/backend/src/workflow/state-machine.service.ts:47-61 | the initial record replaces any earlier record of the task in the cache and the store |
| StateMachine.StateMachineService.GetState | apps/backend/src/workflow/state-machine.service.ts:109-139 | returns the cache entry if present; else the store's record, which is copied into the cache; else the "not found" error |
| StateMachine.StateMachineService.Transition | apps/backend/src/workflow/state-machine.service.ts:63-107 | the cache, the store and the bus change exactly as `TransitionStep` says: a read, the table check, then the write; only an accepted transition is published |
| StateMachine.StateMachineService.IncrementRetry | apps/backend/src/workflow/state-machine.service.ts:247-253 | the counter is raised by one in the cache and the store, and the bus is untouched |
| StateMachine.StateMachineService.MarkFailed | apps/backend/src/workflow/state-machine.service.ts:223-233 | the FAILED transition with `{error}` metadata, then the task row's status set to FAILED; a missing row is an error |
| StateMachine.StateMachineService.MarkCompleted | apps/backend/src/workflow/state-machine.service.ts:235-245 | the COMPLETED transition with `{result}` metadata, then the task row set to SUCCESS with its completion time |
| StateMachine.StateMachineService.EvictCache | apps/backend/src/workflow/state-machine.service.ts:142-146 | the expiry of a cache entry removes it from the cache only |
| StateMachine.StateName | apps/backend/src/workflow/state-machine.service.ts:6-16 | each state's string value is its own name, at least four characters long |
| StateMachine.StateNameInjective | apps/backend/src/workflow/state-machine.service.ts:6-16 | distinct states have distinct string values |
| StateMachine.ReadStepKeepsWellFormed | apps/backend/src/workflow/state-machine.service.ts:109-139 | a read keeps every record equal to the replay of its history and returns such a record |
| StateMachine.WriteKeepsWellFormed | apps/backend/src/workflow/state-machine.service.ts:141-173 | writing a record that replays its history keeps every record so |
| StateMachine.StateMachineService.constructor | apps/backend/src/workflow/state-machine.service.ts:39-45 | the cache and the store start empty, over the given bus and task table |
| StateMachine.WriteTouchesOnlyItsTask | apps/backend/src/workflow/state-machine.service.ts:141-173 | saving a record leaves every other task's cache entry and stored record as it was |
| StateMachine.ReadTouchesOnlyItsTask | apps/backend/src/workflow/state-machine.service.ts:109-139 | reading a record leaves every other task's cache entry and stored record as it was |
| StateMachine.TransitionTouchesOnlyItsTask | apps/backend/src/workflow/state-machine.service.ts:63-107 | a transition, accepted or rejected, leaves every other task's cache entry and stored record as it was |
| StateMachine.StepsTouchOnlyTheirTask | apps/backend/src/workflow/state-machine.service.ts:63-253 | reads, transitions, retry counts, `markFailed` and `markCompleted` each leave every other task's cache entry and stored record as it was |
| TaskOrchestrator.FirstCommandFailure | apps/backend/src/workflow/task-orchestrator.service.ts:154-167 | the index found is the leftmost command whose run throws or reports failure; none is found only when every run succeeds |
| TaskOrchestrator.VerifySubtask | apps/backend/src/workflow/task-orchestrator.service.ts:192-207 | a subtask always verifies, whatever its success conditions |
| TaskOrchestrator.SubtaskSucceedsIff | apps/backend/src/workflow/task-orchestrator.service.ts:138-175 | a subtask succeeds exactly when every command run succeeds, so file edits and success conditions never fail it; on failure the first failing command's error is the one rethrown |
| TaskOrchestrator.FirstSubtaskFailure | apps/backend/src/workflow/task-orchestrator.service.ts:62-64 | the index found is the leftmost subtask that throws; none is found only when every subtask succeeds |
| TaskOrchestrator.RunUpdatesInOrder | apps/backend/src/workflow/task-orchestrator.service.ts:62-187 | subtasks run in plan order with two status updates each, RUNNING first, then SUCCESS exactly when the subtask succeeded |
| TaskOrchestrator.StoppedWorking | apps/backend/src/workflow/task-orchestrator.service.ts:39-111 | every execution throws while the workflow is IDLE, PLANNING, EXECUTING or TESTING |
| TaskOrchestrator.SuccessPathAttemptsCompletion | apps/backend/src/workflow/task-orchestrator.service.ts:49-111 | when nothing fails, PLANNING, EXECUTING, TESTING and COMPLETED are attempted in that order and the completion is rejected as "Invalid transition from TESTING to COMPLETED" |
| TaskOrchestrator.NoPlanStopsBeforeExecuting | apps/backend/src/workflow/task-orchestrator.service.ts:52-55 | without a plan the execution throws in PLANNING: EXECUTING is never attempted and no subtask status changes |
| TaskOrchestrator.FirstFailingSubtaskStops | apps/backend/src/workflow/task-orchestrator.service.ts:62-188 | the first failing subtask stops the execution in EXECUTING with its message; only it and the subtasks before it have updates, all earlier ones SUCCESS and its own last one FAILED with that message |
| TaskOrchestrator.FailedTestsStop | apps/backend/src/workflow/task-orchestrator.service.ts:98-101 | a test run with failures throws in TESTING with "Tests failed with N failures" |
| TaskOrchestrator.TransitionAccepted | apps/backend/src/workflow/task-orchestrator.service.ts:49-85 | an edge in the table is accepted, moves the record and keeps its retry count |
| TaskOrchestrator.TransitionRejected | apps/backend/src/workflow/task-orchestrator.service.ts:217-222 | an edge missing from the table throws the table's message and leaves every read unchanged |
| TaskOrchestrator.MarkFailedFrom | apps/backend/src/workflow/task-orchestrator.service.ts:226-229 | `markFailed` from a state fails exactly when FAILED does not follow that state or the task row is missing, and leaves the record FAILED exactly when the edge exists |
| TaskOrchestrator.CompletionRejected | apps/backend/src/workflow/task-orchestrator.service.ts:111 | `markCompleted` from TESTING throws the table's message and changes neither the record nor the task rows |
| TaskOrchestrator.HandledFromStop | apps/backend/src/workflow/task-orchestrator.service.ts:209-231 | the handler counts one retry; below the bound the RETRYING transition is rejected from every working state, so its error escapes and the record stays put; otherwise `markFailed` decides |
| TaskOrchestrator.NeverCompleted | apps/backend/src/workflow/task-orchestrator.service.ts:31-231 | whatever the collaborators answer, an execution never leaves the workflow COMPLETED; with a bound above one it ends with "Invalid transition from X to RETRYING"; otherwise it ends FAILED, except after a stop in IDLE, where FAILED is rejected too |
| TaskOrchestrator.CountSuccess | apps/backend/src/workflow/task-orchestrator.service.ts:274-276 | the number of SUCCESS subtasks never exceeds the number of subtasks |
| TaskOrchestrator.CountSuccessAll | apps/backend/src/workflow/task-orchestrator.service.ts:274-277 | all subtasks count as completed exactly when every one is SUCCESS |
| TaskOrchestrator.Report | apps/backend/src/workflow/task-orchestrator.service.ts:269-280 | completed never exceeds total; both are 0 without a plan, and the total is the plan's length otherwise |
| TaskOrchestrator.TaskOrchestratorService.constructor | apps/backend/src/workflow/task-orchestrator.service.ts:31 | the retry bound is `DebugLoop.ConfiguredRetries` of the setting: `parseInt` without a radix, so hexadecimal after a "0x" prefix, and 3 when unset or empty |
| TaskOrchestrator.TaskOrchestratorService.ExecuteTask | apps/backend/src/workflow/task-orchestrator.service.ts:34-124 | after initializing, the steps run until one throws and the handler runs; the outcome, every record in the cache and the store, the task rows, the transitions attempted and the subtask updates are those of `Stopped(w)`, the step at which the collaborators' answers first make the code throw, and the bus gains exactly the events of the accepted transitions, in order; other tasks' records and rows are unchanged |
| TaskOrchestrator.TaskOrchestratorService.Gather | apps/backend/src/workflow/task-orchestrator.service.ts:42-49 | a context failure stops in IDLE; otherwise PLANNING is entered and the rest follows as `Stopped` says; the records become `After` the stop, the task rows are unchanged and the bus gains exactly the transitions' events |
| TaskOrchestrator.TaskOrchestratorService.Plan | apps/backend/src/workflow/task-orchestrator.service.ts:52-60 | a planner error or a missing plan stops in PLANNING; otherwise EXECUTING is entered; the records, the unchanged task rows and the bus are those of the transitions up to the stop |
| TaskOrchestrator.TaskOrchestratorService.Execute | apps/backend/src/workflow/task-orchestrator.service.ts:59-64 | the first failing subtask stops in EXECUTING; otherwise the quality and test steps follow; the records, the unchanged task rows and the bus are those of the transitions up to the stop |
| TaskOrchestrator.TaskOrchestratorService.RunSubtasks | apps/backend/src/workflow/task-orchestrator.service.ts:62-64 | the loop stops at exactly the leftmost failing subtask, reports its message, and has made the updates of the subtasks up to it |
| TaskOrchestrator.TaskOrchestratorService.ExecuteSubtask | apps/backend/src/workflow/task-orchestrator.service.ts:126-190 | RUNNING is recorded first; the first unsuccessful command throws "Command failed: cmd\nError: stderr" and marks the subtask FAILED with that message; SUCCESS is recorded only when nothing threw |
| TaskOrchestrator.TaskOrchestratorService.CheckAndTest | apps/backend/src/workflow/task-orchestrator.service.ts:66-85 | a quality failure, or a formatter failure at a score of at least 60, stops in EXECUTING with nothing written; otherwise TESTING is entered; the records, the unchanged task rows and the bus are those of the transitions up to the stop |
| TaskOrchestrator.TaskOrchestratorService.Test | apps/backend/src/workflow/task-orchestrator.service.ts:88-111 | a test error or failures stop in TESTING; otherwise the rejected completion stops there; no task row or bus event changes, and the records change only by the read that the rejected completion makes (the store's record copied into the cache) |
| TaskOrchestrator.TaskOrchestratorService.HandleTaskFailure | apps/backend/src/workflow/task-orchestrator.service.ts:209-231 | one retry is counted, then RETRYING and `markFailed` below the bound, or `markFailed` alone; the first error escapes; the bus gains exactly the events of the accepted transitions |
| TaskOrchestrator.TaskOrchestratorService.RetryOrFail | apps/backend/src/workflow/task-orchestrator.service.ts:212-230 | the branch on the counted retries: below the bound, RETRYING and then `markFailed`; otherwise `markFailed` alone; the bus gains exactly the events of the accepted transitions |
| TaskOrchestrator.TaskOrchestratorService.GetTaskProgress | apps/backend/src/workflow/task-orchestrator.service.ts:252-281 | a missing workflow record is reported first, then a missing task; otherwise the report of the task row and the record |
| TaskOrchestrator.StoppedPast | apps/backend/src/workflow/task-orchestrator.service.ts:42-60 | once the context is gathered the execution stops past IDLE, and once a plan exists past PLANNING |
| TaskOrchestrator.AfterStep | apps/backend/src/workflow/task-orchestrator.service.ts:39-111 | short of the stopping state, the records and events after the stop are those of one more transition followed by the rest |
| TaskOrchestrator.AfterTouchesOnlyItsTask | apps/backend/src/workflow/task-orchestrator.service.ts:39-111 | the transitions of the `try` block leave every other task's records as they were |
| TaskOrchestrator.MarkFailedTouchesOnlyItsTask | apps/backend/src/workflow/task-orchestrator.service.ts:226-229 | `markFailed` leaves every other task's records and task row as they were |
| TaskOrchestrator.AfterCountTouchesOnlyItsTask | apps/backend/src/workflow/task-orchestrator.service.ts:212-230 | the branch after the retry count leaves every other task's records and task row as they were |
| TaskOrchestrator.HandleTouchesOnlyItsTask | apps/backend/src/workflow/task-orchestrator.service.ts:209-231 | the failure handler leaves every other task's records and task row as they were |
| TaskOrchestrator.ExecutionTouchesOnlyItsTask | apps/backend/src/workflow/task-orchestrator.service.ts:34-231 | a whole execution, its handler included, leaves every other task's records and task row as they were |
| TaskOrchestrator.TaskOrchestratorService.StartTesting | apps/backend/src/workflow/task-orchestrator.service.ts:83-111 | TESTING is entered and the test step decides the stop; the records, the unchanged task rows and the bus are those of the transitions up to the stop |
| Workflow.RetryAcceptedIff | apps/backend/src/workflow/workflow.service.ts:33-56 | a retry is accepted exactly for a FAILED task that has a stored workflow record and a repository path; it then answers like a start and launches exactly one execution |
| Workflow.RetryGuardOrder | apps/backend/src/workflow/workflow.service.ts:38-54 | the errors come in the code's order: "Task not found", then "Only failed tasks can be retried", then the missing record, then the missing repository path |
| Workflow.RetryResetsCounter | apps/backend/src/workflow/workflow.service.ts:46-54 | once the task guards pass, the stored retry count is 0 even when the retry then fails for want of a repository path; nothing else changes |
| Workflow.RetryRejectedEarlyWritesNothing | apps/backend/src/workflow/workflow.service.ts:38-44 | a retry refused by a task guard writes nothing |
| Workflow.RetryResetBypassesCache | apps/backend/src/workflow/workflow.service.ts:47-50 | while the cache holds the task's record, a read after the retry returns the same record as before, with the old retry count |
| Workflow.RetryKeepsKeyed | apps/backend/src/workflow/workflow.service.ts:47-50 | the reset keeps every record filed under its own task id |
| Workflow.WorkflowService.StartWorkflow | apps/backend/src/workflow/workflow.service.ts:14-27 | exactly one execution is scheduled, and the answer is {taskId, 'started', 'Workflow execution started'} without waiting for it |
| Workflow.WorkflowService.GetWorkflowStatus | apps/backend/src/workflow/workflow.service.ts:29-31 | the orchestrator's progress report, errors included |
| Workflow.WorkflowService.RetryWorkflow | apps/backend/src/workflow/workflow.service.ts:33-56 | the stored record and the launches change exactly as `RetryStep` and `RetryLaunches` say: guards first, then the counter reset in the store only, then at most one launch |
| Workflow.WorkflowService.constructor | apps/backend/src/workflow/workflow.service.ts:8-12 | no execution has been launched at start |
| WorkflowGateway.ForwardedEvent | apps/backend/src/workflow/workflow.gateway.ts:25-45 | 'task-progress' is forwarded as 'progress', 'workflow-events' as 'state-change', and no other topic is consumed |
| WorkflowGateway.TaskIdOf | apps/backend/src/workflow/workflow.gateway.ts:30-42 | a parsed message is routed by its `taskId` field exactly when that field is a string |
| WorkflowGateway.FanoutExactlyOnce | apps/backend/src/workflow/workflow.gateway.ts:89-91 | a fan-out reaches each subscriber of the task exactly once |
| WorkflowGateway.RecipientsBound | apps/backend/src/workflow/workflow.gateway.ts:89-91 | a run of deliveries reaches at most as many clients as it has deliveries |
| WorkflowGateway.RecipientsAreTargets | apps/backend/src/workflow/workflow.gateway.ts:89-91 | every client reached is the target of one of the deliveries |
| WorkflowGateway.RecipientsWithRepeat | apps/backend/src/workflow/workflow.gateway.ts:89-91 | a run that targets some client twice reaches fewer clients than it has deliveries, so it is not a fan-out |
| WorkflowGateway.FanOutStep | apps/backend/src/workflow/workflow.gateway.ts:89-91 | one more delivery to a not-yet-visited subscriber keeps the partial fan-out exact |
| WorkflowGateway.FanOut | apps/backend/src/workflow/workflow.gateway.ts:89-91 | the deliveries of one event to every client of a set, each exactly once |
| WorkflowGateway.RecipientsMember | apps/backend/src/workflow/workflow.gateway.ts:89-91 | the target of any delivery is among the clients reached |
| WorkflowGateway.Gateway.constructor | apps/backend/src/workflow/workflow.gateway.ts:19 | the gateway starts with no subscriptions and nothing sent |
| WorkflowGateway.Gateway.HandleSubscribeTask | apps/backend/src/workflow/workflow.gateway.ts:63-71 | the client joins the task's set, created when missing, and is acknowledged with 'subscribed' |
| WorkflowGateway.Gateway.HandleUnsubscribeTask | apps/backend/src/workflow/workflow.gateway.ts:73-84 | the client leaves the task's set, an emptied set is deleted, and 'unsubscribed' is acknowledged even when there was no set |
| WorkflowGateway.Gateway.HandleDisconnect | apps/backend/src/workflow/workflow.gateway.ts:52-61 | the client leaves every set and every set it empties is deleted; nothing is sent |
| WorkflowGateway.Gateway.BroadcastToTask | apps/backend/src/workflow/workflow.gateway.ts:86-93 | the subscriptions are unchanged and exactly one delivery goes to each subscriber of the task, none when the task has no set |
| WorkflowGateway.Gateway.SendTaskUpdate | apps/backend/src/workflow/workflow.gateway.ts:96-98 | the same fan-out as the broadcast, for services |
| WorkflowGateway.Gateway.OnBusMessage | apps/backend/src/workflow/workflow.gateway.ts:23-46 | a bus message without a value, on another topic or without a string `taskId` sends nothing; otherwise it is fanned out to the task's subscribers under the topic's event |
| Subscriptions.Subscribe | apps/backend/src/workflow/workflow.gateway.ts:64-69 | the task's members gain the client, the task gets an entry, and no other task changes |
| Subscriptions.RemoveKeepingEntry | apps/backend/src/websocket/events.gateway.ts:69-71 | the task's members lose the client, the entry stays even when emptied, and no other task changes |
| Subscriptions.RemoveDroppingEmpty | apps/backend/src/workflow/workflow.gateway.ts:75-81 | the task's members lose the client and its entry remains exactly when members are left |
| Subscriptions.RemoveEverywhere | apps/backend/src/workflow/workflow.gateway.ts:55-60 | every task loses the client and keeps its entry exactly when members are left |
| Subscriptions.SweepStep | apps/backend/src/workflow/workflow.gateway.ts:55-60 | visiting one more entry of the disconnect sweep keeps the visited part swept |
| Subscriptions.SweptAll | apps/backend/src/workflow/workflow.gateway.ts:55-60 | once every entry is visited the registry is the one with the client removed everywhere |
| Subscriptions.SweepClient | apps/backend/src/websocket/events.gateway.ts:35-40 | the disconnect loop, visiting entries one at a time, leaves the registry with the client removed everywhere and emptied entries deleted |
| Subscriptions.SameMembersPreserved | apps/backend/src/websocket/events.gateway.ts:50-71 | registries with the same members stay in step under subscribe, both kinds of unsubscribe, and disconnect |
| Subscriptions.SubscribeIdempotent | apps/backend/src/workflow/workflow.gateway.ts:64-69 | subscribing twice is the same as subscribing once |
| Subscriptions.SubscribeKeepsNoEmpty | apps/backend/src/workflow/workflow.gateway.ts:64-69 | subscribing never creates an empty entry |
| Subscriptions.RemoveDroppingEmptyKeepsNoEmpty | apps/backend/src/workflow/workflow.gateway.ts:75-81 | unsubscribing with deletion of emptied entries never leaves an empty entry |
| Subscriptions.RemoveEverywhereNoEmpty | apps/backend/src/workflow/workflow.gateway.ts:55-60 | after a disconnect no entry is empty and the client is in no set |
| Subscriptions.UnsubscribeUndoesSubscribe | apps/backend/src/workflow/workflow.gateway.ts:63-84 | unsubscribing undoes a fresh subscription when emptied entries are deleted |
| Subscriptions.UnsubscribeKeepsEmptyEntry | apps/backend/src/websocket/events.gateway.ts:62-78 | on the events gateway unsubscribing does not undo a subscription: an empty entry stays behind |
| EventsGateway.TaskPayload | apps/backend/src/websocket/events.gateway.ts:87-90 | `{taskId, ...data}`: every field of the data is kept, and the task id is filled in only where the data has none |
| EventsGateway.StampedPayload | apps/backend/src/websocket/events.gateway.ts:109-113 | `{taskId, ...data, timestamp}`: the timestamp overrides everything and the other fields are kept |
| EventsGateway.StatusPayload | apps/backend/src/websocket/events.gateway.ts:95-100 | the status payload carries the task id, status and timestamp, and metadata exactly when given |
| EventsGateway.StampedEvent | apps/backend/src/websocket/events.gateway.ts:109-154 | every per-task event name starts with "task:" |
| EventsGateway.UnsubscribedClientNotReached | apps/backend/src/websocket/events.gateway.ts:62-78 | after unsubscribing a client is no member of the task, so later per-task emits miss it, although an empty entry may remain |
| EventsGateway.Gateway.constructor | apps/backend/src/websocket/events.gateway.ts:26 | no subscriptions, rooms, connections or emits at start |
| EventsGateway.Gateway.HandleConnection | apps/backend/src/websocket/events.gateway.ts:28-30 | the client becomes connected and nothing else changes |
| EventsGateway.Gateway.HandleDisconnect | apps/backend/src/websocket/events.gateway.ts:32-41 | the client leaves every set and every room, emptied entries are deleted, and it is no longer connected |
| EventsGateway.Gateway.HandleTaskSubscribe | apps/backend/src/websocket/events.gateway.ts:43-60 | the client joins the task's set and the task's room |
| EventsGateway.Gateway.HandleTaskUnsubscribe | apps/backend/src/websocket/events.gateway.ts:62-78 | the client leaves the set, whose entry stays even when emptied, and the room, which is deleted once empty |
| EventsGateway.Gateway.EmitToTask | apps/backend/src/websocket/events.gateway.ts:87-109 | one emit to exactly the task's room members, nothing else changed |
| EventsGateway.Gateway.EmitTaskProgress | apps/backend/src/websocket/events.gateway.ts:81-91 | 'task:progress' with `{taskId, ...data}` to the task's room |
| EventsGateway.Gateway.EmitTaskStatusChange | apps/backend/src/websocket/events.gateway.ts:94-101 | 'task:status' with the task id, status, metadata and timestamp to the task's room |
| EventsGateway.Gateway.EmitStamped | apps/backend/src/websocket/events.gateway.ts:104-159 | file-change, command, review and error events with `{taskId, ...data, timestamp}` to the task's room |
| EventsGateway.Gateway.Broadcast | apps/backend/src/websocket/events.gateway.ts:162-167 | one emit to every connected client with the timestamp added |
| DebugLoop.ConfiguredRetries | apps/backend/src/legs/debug-loop.service.ts:39 | the configured bound is the setting parsed as an integer, and 3 when the setting is unset or empty; the setting is read by `parseInt` without a radix, so a "0x" prefix after the sign means hexadecimal and no digits means NaN |
| DebugLoop.HexadecimalSetting | apps/backend/src/legs/debug-loop.service.ts:39 | a setting of "0x10" allows sixteen retries, as `parseInt` without a radix reads it |
| DebugLoop.DefaultRetries | apps/backend/src/legs/debug-loop.service.ts:39 | without a setting the bound is 3 |
| DebugLoop.EffectiveBound | apps/backend/src/legs/debug-loop.service.ts:43 | the session's bound wins unless it is 0 or absent, in which case the configured bound is used |
| DebugLoop.Iterations | apps/backend/src/legs/debug-loop.service.ts:47 | the loop runs exactly `bound` times for a positive bound and never for NaN or a bound that is not positive |
| DebugLoop.ErrorText | apps/backend/src/legs/debug-loop.service.ts:68-84 | the error text is stderr when it is non-empty, stdout otherwise |
| DebugLoop.FixOperations | apps/backend/src/legs/debug-loop.service.ts:166-170 | one update operation per suggested change, in order, on the path under the working directory |
| DebugLoop.SuccessfulPaths | apps/backend/src/legs/debug-loop.service.ts:174-176 | never more paths than operations |
| DebugLoop.SuccessfulPathsAppend | apps/backend/src/legs/debug-loop.service.ts:174-176 | filtering a concatenation filters each part |
| DebugLoop.SuccessfulPathsMembers | apps/backend/src/legs/debug-loop.service.ts:174-176 | a path is reported exactly when some successful operation has it |
| DebugLoop.AllSuccessfulPaths | apps/backend/src/legs/debug-loop.service.ts:174-176 | when every operation succeeded, all their paths come back in order |
| DebugLoop.FixedFilesUnderWorkDir | apps/backend/src/legs/debug-loop.service.ts:162-177 | every file reported as modified lies under the working directory |
| DebugLoop.FixesGrow | apps/backend/src/legs/debug-loop.service.ts:82-88 | one more failed run adds one fix numbered after the earlier ones, carrying that run's error text |
| DebugLoop.DebugFromOutcome | apps/backend/src/legs/debug-loop.service.ts:47-107 | from any round on, the loop's result is what the debug loop promises |
| DebugLoop.DebugLoopOutcome | apps/backend/src/legs/debug-loop.service.ts:42-108 | at most `bound` runs; success on the first run exiting with 0, with attempts its index plus one and one fix per earlier failure; otherwise failure with attempts equal to the bound and a fix for every run, the last included |
| DebugLoop.FirstRunPasses | apps/backend/src/legs/debug-loop.service.ts:55-62 | a command that passes on its first run succeeds at once with no fixes and no file changed |
| DebugLoop.NoRetriesNoRun | apps/backend/src/legs/debug-loop.service.ts:47-107 | a NaN or non-positive bound never runs the command and reports failure with no fixes |
| DebugLoop.DebugStep | apps/backend/src/legs/debug-loop.service.ts:47-98 | one failed round applies its fixes to the working copy and leaves the rest of the loop unchanged |
| DebugLoop.ApplyFixes | apps/backend/src/legs/debug-loop.service.ts:162-177 | the edits go through the file operations, and the paths of the successful ones come back in order |
| DebugLoop.ExecuteWithDebugLoop | apps/backend/src/legs/debug-loop.service.ts:42-108 | the loop's result and the working copy afterwards are those of the function `DebugLoop`, whose promises `DebugLoopOutcome` states |
| DebugLoop.TestSession | apps/backend/src/legs/debug-loop.service.ts:185-191 | a test session runs the test command in the working directory with "Running tests: <cmd>" in front of the caller's context |
| DebugLoop.TestSessionBound | apps/backend/src/legs/debug-loop.service.ts:189 | test runs always use the configured bound |
| DebugLoop.RunTestsWithFixes | apps/backend/src/legs/debug-loop.service.ts:179-192 | the debug loop over the test session |
| CommandExecutor.DetectExecutionType | apps/backend/src/legs/command-executor.service.ts:104-115 | TEST when the command mentions test, jest or mocha; otherwise BUILD, INSTALL, SCRIPT in that order of precedence; COMMAND when none matches |
| CommandExecutor.TestWinsOverEverything | apps/backend/src/legs/command-executor.service.ts:105-106 | a command that mentions jest is a test run whatever else it mentions |
| CommandExecutor.FinishedRecordStatus | apps/backend/src/legs/command-executor.service.ts:35-74 | a record ends SUCCESS exactly when the command ran and exited with 0 and FAILED otherwise; it is sandboxed unless sandboxing was explicitly turned off |
| CommandExecutor.BatchShape | apps/backend/src/legs/command-executor.service.ts:87-101 | never more results than commands; each result is the sandbox's answer to its command; all but the last exited with 0; fewer results than commands means the last one failed |
| CommandExecutor.AttemptedFrom | apps/backend/src/legs/command-executor.service.ts:87-99 | a non-empty batch attempts at least one and at most all of its commands |
| CommandExecutor.BatchReportsEveryAttempt | apps/backend/src/legs/command-executor.service.ts:87-99 | a successful batch reports exactly the commands it attempted |
| CommandExecutor.BatchOfSuccesses | apps/backend/src/legs/command-executor.service.ts:87-99 | a batch whose commands all exit with 0 reports every one of them |
| CommandExecutor.BatchStep | apps/backend/src/legs/command-executor.service.ts:87-99 | a command that exits with 0 only puts its result in front of the rest of the batch |
| CommandExecutor.BatchSkipsSuccesses | apps/backend/src/legs/command-executor.service.ts:87-99 | commands that all exited with 0 only put their results in front of the rest |
| CommandExecutor.BatchStopsAt | apps/backend/src/legs/command-executor.service.ts:96-98 | after commands that exited with 0, the first failing command ends the batch, its result included, or its thrown error propagates |
| CommandExecutor.BatchCompletes | apps/backend/src/legs/command-executor.service.ts:87-101 | when every command exited with 0 all results are reported |
| CommandExecutor.BatchRecords | apps/backend/src/legs/command-executor.service.ts:28-74 | the records of the attempted commands, one each |
| CommandExecutor.BatchRecordsGrow | apps/backend/src/legs/command-executor.service.ts:87-99 | the records of one more command extend those of the commands before it |
| CommandExecutor.CommandExecutorService.constructor | apps/backend/src/legs/command-executor.service.ts:18-21 | no execution records at start |
| CommandExecutor.CommandExecutorService.ExecuteCommand | apps/backend/src/legs/command-executor.service.ts:23-78 | the sandbox's answer, or its error, is passed on, and exactly one record is added with the final status |
| CommandExecutor.CommandExecutorService.ExecuteMultipleCommands | apps/backend/src/legs/command-executor.service.ts:80-102 | the result is `BatchFrom` of the sandbox's answers, whose shape `BatchShape` states, and one record is added per attempted command |
| Hands.OperationStep | apps/backend/src/hands/hands.service.ts:23-41 | an entry for the operation's path, successful exactly when it has no error; a deletion removes an existing file or reports the store's error; creation and update report the editor's result |
| Hands.RunOperations | apps/backend/src/hands/hands.service.ts:21-44 | exactly one entry per operation, in order, each with the operation's path and successful exactly when it carries no error |
| Hands.CreateAndUpdateAlike | apps/backend/src/hands/hands.service.ts:27-33 | creation and update are the same request |
| Hands.RunOperationsPrefix | apps/backend/src/hands/hands.service.ts:22-42 | the entries of a longer batch extend those of its first operations |
| Hands.DeletingExistingFiles | apps/backend/src/hands/hands.service.ts:24-26 | deleting distinct existing files removes them and every entry reports success |
| Hands.RunOperationsSnoc | apps/backend/src/hands/hands.service.ts:22-42 | one more operation appends exactly its own entry |
| Hands.ExecuteFileOperations | apps/backend/src/hands/hands.service.ts:12-45 | never throws; the entries and the working copy afterwards are those of `RunOperations`: one entry per operation, in order |
| TestRunner.Dependencies | apps/backend/src/legs/test-runner.service.ts:78-81 | the merged dependencies hold every runtime and development entry, a development entry winning |
| TestRunner.DetectTestFramework | apps/backend/src/legs/test-runner.service.ts:72-98 | jest when the manifest declares jest or @types/jest; mocha when it declares mocha and not jest; then pytest.ini, then go.mod, and jest when nothing matches; the result is always one of the four supported frameworks |
| TestRunner.JestCommand | apps/backend/src/legs/test-runner.service.ts:105-108 | a `--testPathPattern` with the tests joined by '\|' is added exactly when that join is not empty |
| TestRunner.EmptyListOfTests | apps/backend/src/legs/test-runner.service.ts:105-140 | an empty list of tests runs the whole jest and pytest suites like no list, but gives mocha no pattern instead of its default glob |
| TestRunner.JestCommandIsTest | apps/backend/src/legs/test-runner.service.ts:106-108 | the executor records the jest command as a TEST execution |
| TestRunner.MochaCommandIsTest | apps/backend/src/legs/test-runner.service.ts:122-123 | the executor records the mocha command as a TEST execution |
| TestRunner.PytestCommandIsTest | apps/backend/src/legs/test-runner.service.ts:137-140 | the executor records the pytest command as a TEST execution |
| TestRunner.GoCommandIsTest | apps/backend/src/legs/test-runner.service.ts:154-155 | the executor records the go command as a TEST execution |
| TestRunner.TestCommandsAreTests | apps/backend/src/legs/test-runner.service.ts:47-162 | every test command is recorded as a TEST execution |
| TestRunner.JestMessage | apps/backend/src/legs/test-runner.service.ts:215 | a failure message is never empty: the joined messages, or 'Unknown error' |
| TestRunner.FailedAssertions | apps/backend/src/legs/test-runner.service.ts:211-216 | only failed assertions are reported, each with a non-empty message and no stack |
| TestRunner.SuiteFailuresShape | apps/backend/src/legs/test-runner.service.ts:210-217 | the suites report a failure for each failed assertion and nothing else |
| TestRunner.NoFailedAssertions | apps/backend/src/legs/test-runner.service.ts:212 | suites without a failed assertion report no failure |
| TestRunner.ParseJestResults | apps/backend/src/legs/test-runner.service.ts:193-218 | the counts come from the report, 0 when absent; coverage exactly when the report has a coverage map; no suites means no failures and duration 0 |
| TestRunner.MochaEntry | apps/backend/src/legs/test-runner.service.ts:243-247 | a failure carries the test's title, the error's message or 'Unknown error', and the error's stack |
| TestRunner.ParseMochaResults | apps/backend/src/legs/test-runner.service.ts:232-248 | the counts come from the stats, 0 when absent; one failure per reported failure, none when absent |
| TestRunner.UnparsableOutput | apps/backend/src/legs/test-runner.service.ts:219-259 | output that is not JSON makes jest and mocha report one failed test of one, 'Parse Error', carrying stderr |
| TestRunner.MatchFrom | apps/backend/src/legs/test-runner.service.ts:272-280 | a match of `(\d+) word` starts at a digit of the line |
| TestRunner.LastLineWins | apps/backend/src/legs/test-runner.service.ts:270-283 | a counter holds the count of the last line that has a match for its word |
| TestRunner.LastCountSnoc | apps/backend/src/legs/test-runner.service.ts:270-283 | one more line either carries a count, which wins, or leaves the counter as it was |
| TestRunner.NoLineNoCount | apps/backend/src/legs/test-runner.service.ts:266-283 | without a matching line a counter stays 0 |
| TestRunner.NoMatchBefore | apps/backend/src/legs/test-runner.service.ts:272-280 | characters that are not digits cannot start a match |
| TestRunner.NoDigitsNoMatch | apps/backend/src/legs/test-runner.service.ts:272-280 | text without digits in front of a position holds no match |
| TestRunner.SummaryFacts | apps/backend/src/legs/test-runner.service.ts:272-280 | in a line of text without digits, a run of digits, a space and the word, the first match is that run |
| TestRunner.SummaryCount | apps/backend/src/legs/test-runner.service.ts:271-273 | a summary line "<n> passed" after text without digits counts n |
| TestRunner.LineCountAt | apps/backend/src/legs/test-runner.service.ts:273-281 | the count of a line is the value of the digits its first match starts with |
| TestRunner.PytestResult | apps/backend/src/legs/test-runner.service.ts:285-293 | the total is passed + failed + skipped, the counts are non-negative, duration is 0 and there are no failures |
| TestRunner.ParsePytestResults | apps/backend/src/legs/test-runner.service.ts:262-293 | the single pass over the lines gives `PytestResult`: the last count for each word, and their sum as the total |
| TestRunner.ParseTestResults | apps/backend/src/legs/test-runner.service.ts:164-191 | jest, mocha and pytest go to their parsers; go gets all-zero counts under its own name |
| TestRunner.GoTestsNeverFail | apps/backend/src/legs/test-runner.service.ts:164-191 | a go run is never reported as failing, whatever its output |
| TestRunner.TestName | apps/backend/src/legs/test-runner.service.ts:328-336 | the test file name is a plain name that ends with the source's extension and is longer than the base and extension |
| TestRunner.TestFileNamed | apps/backend/src/legs/test-runner.service.ts:322-337 | base.test.ext for JavaScript, TypeScript and any unknown extension, test_base.py for Python, base_test.go for Go |
| TestRunner.TestNameConvention | apps/backend/src/legs/test-runner.service.ts:328-336 | the naming rule by extension, with every unknown extension treated like JavaScript |
| TestRunner.TestFileBesideSource | apps/backend/src/legs/test-runner.service.ts:325-336 | the test file lies in the source's directory |
| TestRunner.RunTests | apps/backend/src/legs/test-runner.service.ts:32-70 | the detected framework's command runs through the executor; an error it throws is rethrown; otherwise the output is parsed for that framework |
| CodeQuality.EslintIssue | apps/backend/src/hands/code-quality.service.ts:101-108 | severity 2 is an error and anything else a warning, never info; the rule is the rule id, or 'unknown' without one |
| CodeQuality.PylintIssue | apps/backend/src/hands/code-quality.service.ts:141-148 | type 'error' is an error and anything else a warning, never info; the rule is the message id |
| CodeQuality.CountSeverity | apps/backend/src/hands/code-quality.service.ts:261-262 | a severity never counts more issues than there are |
| CodeQuality.Clamp | apps/backend/src/hands/code-quality.service.ts:275 | the clamped value lies between the bounds and is unchanged when already inside them |
| CodeQuality.Score | apps/backend/src/hands/code-quality.service.ts:258-275 | the score is always in [0, 100] |
| CodeQuality.RoundHalf | apps/backend/src/hands/code-quality.service.ts:268-275 | rounding half of an integer less a whole penalty equals the integer formula `(y + 1) / 2 - k` |
| CodeQuality.CalculateScore | apps/backend/src/hands/code-quality.service.ts:257-276 | the step-by-step computation, rounding included, equals the integer score of the error and warning counts and the metrics |
| CodeQuality.ReportScore | apps/backend/src/hands/code-quality.service.ts:257-276 | the score of a report is in [0, 100] |
| CodeQuality.ScoreAntitone | apps/backend/src/hands/code-quality.service.ts:261-265 | more errors or more warnings never raise the score |
| CodeQuality.CountSnoc | apps/backend/src/hands/code-quality.service.ts:261-262 | one more issue counts once, under its own severity |
| CodeQuality.OneMoreIssue | apps/backend/src/hands/code-quality.service.ts:261-265 | one more issue never raises the score, and an info issue leaves it unchanged |
| CodeQuality.CleanCodeScoresFull | apps/backend/src/hands/code-quality.service.ts:258-275 | no issues, full maintainability and complexity at most 10 score 100 |
| CodeQuality.GenerateSuggestions | apps/backend/src/hands/code-quality.service.ts:278-303 | the pushed messages are `Suggestions(report)`, whose triggers and order the lemmas below state |
| CodeQuality.SuggestionsCount | apps/backend/src/hands/code-quality.service.ts:278-303 | at most five suggestions, and none exactly when no threshold is met |
| CodeQuality.SuggestionMember | apps/backend/src/hands/code-quality.service.ts:281-300 | each suggestion is emitted exactly when its own threshold is met |
| CodeQuality.SuggestionTriggers | apps/backend/src/hands/code-quality.service.ts:281-300 | each fixed message appears exactly when its threshold is met: issues over 20, complexity over 15, maintainability under 50, lines over 10000 |
| CodeQuality.ErrorSuggestion | apps/backend/src/hands/code-quality.service.ts:293-296 | "Fix n critical error(s) before deployment" appears exactly when there are n > 0 errors |
| CodeQuality.PushOrdered | apps/backend/src/hands/code-quality.service.ts:281-300 | a conditional push of a later-ranked message keeps the list in threshold order |
| CodeQuality.SuggestionsOrdered | apps/backend/src/hands/code-quality.service.ts:281-300 | the suggestions come in the order issues, complexity, maintainability, errors, size |
| CodeQuality.AnalyzeCode | apps/backend/src/hands/code-quality.service.ts:50-71 | the issues are ESLint's then pylint's; the score is the report's score, in [0, 100], and the suggestions are the report's |
| CodeEditor.LanguageOfExtension | apps/backend/src/hands/code-editor.service.ts:249-267 | typescript exactly for .ts and .tsx, javascript exactly for .js and .jsx, plaintext exactly for an extension the table does not list |
| CodeEditor.LanguageUnderRepository | apps/backend/src/hands/code-editor.service.ts:247-248 | a file keeps its language when placed under a repository directory |
| CodeEditor.BaseNameUnderDirectory | apps/backend/src/hands/code-editor.service.ts:248 | a path placed under a directory keeps its base name |
| CodeEditor.CleanCodeResponse | apps/backend/src/hands/code-editor.service.ts:227-245 | the cleaned response is always trimmed |
| CodeEditor.CleanWithoutFence | apps/backend/src/hands/code-editor.service.ts:244 | a response without any fence is only trimmed |
| CodeEditor.SearchFindsLeftmost | apps/backend/src/hands/code-editor.service.ts:229-238 | the pattern is found at its leftmost match |
| CodeEditor.FencedMatchAt | apps/backend/src/hands/code-editor.service.ts:229-237 | a fenced block is a match where it starts, capturing the code it wraps |
| CodeEditor.FirstClosingFence | apps/backend/src/hands/code-editor.service.ts:229-237 | the lazy body ends at the first closing fence |
| CodeEditor.CleanFencedBlock | apps/backend/src/hands/code-editor.service.ts:229-234 | removing the fence around code gives back the code, trimmed |
| CodeEditor.TaggedWinsIn | apps/backend/src/hands/code-editor.service.ts:229-241 | a response laid out as an untagged block and then a tagged one cleans to the tagged block's code |
| CodeEditor.TaggedFenceTakesPrecedence | apps/backend/src/hands/code-editor.service.ts:229-241 | a block tagged with the language wins over an untagged block that comes first |
| CodeEditor.ReadResult | apps/backend/src/hands/file-system.service.ts:10-16 | a read succeeds exactly for an existing file and returns its content |
| CodeEditor.FileStore.constructor | apps/backend/src/hands/file-system.service.ts:7-8 | the store starts with the given files |
| CodeEditor.FileStore.CreateFile | apps/backend/src/hands/file-system.service.ts:30-47 | an existing path is refused with "File <path> already exists"; otherwise the file is added |
| CodeEditor.FileStore.UpdateFile | apps/backend/src/hands/file-system.service.ts:49-64 | a missing file is the read's error; otherwise the content is replaced |
| CodeEditor.FileStore.DeleteFile | apps/backend/src/hands/file-system.service.ts:66-83 | a missing file is an error that changes nothing; otherwise the file is removed |
| CodeEditor.AstOnlyForScripts | apps/backend/src/hands/code-editor.service.ts:97-107 | the syntax-tree editor's answer matters only for TypeScript and JavaScript |
| CodeEditor.AstFailureFallsBack | apps/backend/src/hands/code-editor.service.ts:97-116 | when the syntax-tree editor throws, the model's rewrite decides and its text is cleaned |
| CodeEditor.ApplyEdit | apps/backend/src/hands/code-editor.service.ts:26-54 | a missing file is created from generated code and an existing one rewritten; success exactly when there is no error and exactly when there is new content; an error changes no file |
| CodeEditor.CreatedContentIsTrimmed | apps/backend/src/hands/code-editor.service.ts:30-87 | a created file holds only trimmed code |
| CodeEditor.ApplyCodeChanges | apps/backend/src/hands/code-editor.service.ts:21-55 | the result and the files afterwards are those of `ApplyEdit`: create when missing, rewrite otherwise, and no change on error |
| ContextGatherer.KeyIndex | apps/backend/src/brain/context-gatherer.service.ts:147-179 | a key's position in the record is where it first occurs, and there is none when it does not occur |
| ContextGatherer.Assign | apps/backend/src/brain/context-gatherer.service.ts:156-179 | after `d[key] = value` the key reads the value, every other key reads as before, an existing key keeps its place, a new one goes last, and keys stay distinct |
| ContextGatherer.AssignAllLookup | apps/backend/src/brain/context-gatherer.service.ts:156-180 | after a run of assignments a key holds the value of the last assignment to it, or what it held before |
| ContextGatherer.AssignAllDistinct | apps/backend/src/brain/context-gatherer.service.ts:156-180 | assignments keep every key once in the record |
| ContextGatherer.RequirementNameShape | apps/backend/src/brain/context-gatherer.service.ts:167-168 | a line names a requirement exactly when it does not open with one of `=<>~!`, and the name is the trimmed text before the first of them |
| ContextGatherer.RequirementEntries | apps/backend/src/brain/context-gatherer.service.ts:166-171 | every requirement is assigned 'latest' |
| ContextGatherer.RequirementsAreLatest | apps/backend/src/brain/context-gatherer.service.ts:169 | a requirement always reads 'latest', whatever version its line pins |
| ContextGatherer.GoRequires | apps/backend/src/brain/context-gatherer.service.ts:177 | every match of the go.mod pattern yields a module and a version that are non-empty and free of white space |
| ContextGatherer.SingleRequire | apps/backend/src/brain/context-gatherer.service.ts:177-180 | a one-line `require module version` yields exactly that pair |
| ContextGatherer.DependencyOverride | apps/backend/src/brain/context-gatherer.service.ts:146-184 | a dependency's value is decided by the last source naming it: go.mod over requirements.txt over devDependencies over dependencies |
| ContextGatherer.DependencyKeysDistinct | apps/backend/src/brain/context-gatherer.service.ts:146-184 | every dependency appears once in the record |
| ContextGatherer.AssignRequirements | apps/backend/src/brain/context-gatherer.service.ts:166-171 | the loop over the requirement lines performs the requirement assignments |
| ContextGatherer.AssignMatches | apps/backend/src/brain/context-gatherer.service.ts:178-180 | the loop over the go.mod matches performs their assignments in order |
| ContextGatherer.ParseDependencies | apps/backend/src/brain/context-gatherer.service.ts:146-184 | the record is the package manifest's dependencies, then its devDependencies, then the requirements, then the go.mod requirements, each source's failure skipped |
| ContextGatherer.UsedFrameworks | apps/backend/src/brain/context-gatherer.service.ts:204-208 | a framework is kept exactly when it is in the table and in use |
| ContextGatherer.FrameworksDetected | apps/backend/src/brain/context-gatherer.service.ts:189-208 | a framework is reported exactly when its package or its `@pkg/core` package is declared with a non-empty version |
| ContextGatherer.FrameworksInTableOrder | apps/backend/src/brain/context-gatherer.service.ts:189-208 | the frameworks come in table order, none twice |
| ContextGatherer.DetectFrameworks | apps/backend/src/brain/context-gatherer.service.ts:186-211 | the loop over the table pushes exactly the detected frameworks |
| ContextGatherer.ListDir | apps/backend/src/brain/context-gatherer.service.ts:122-140 | every file the walk lists lies below the directory it started from |
| ContextGatherer.FileListed | apps/backend/src/brain/context-gatherer.service.ts:133-134 | every file of a directory the walk reaches is listed |
| ContextGatherer.SubdirectoryListed | apps/backend/src/brain/context-gatherer.service.ts:129-132 | a subdirectory that is neither excluded nor hidden has all its files listed |
| ContextGatherer.Scan | apps/backend/src/brain/context-gatherer.service.ts:122-140 | the recursive walk appends exactly the listing of the directory, excluded and hidden directories skipped and unreadable ones adding nothing |
| ContextGatherer.GetProjectStructure | apps/backend/src/brain/context-gatherer.service.ts:118-144 | the walk from the repository's root |
| ContextGatherer.Filter | apps/backend/src/brain/context-gatherer.service.ts:72-107 | a file is kept exactly when the test holds, as often as it occurs |
| ContextGatherer.TestFilesAreSources | apps/backend/src/brain/context-gatherer.service.ts:72-96 | every test file is also a source file |
| ContextGatherer.AnalysedFiles | apps/backend/src/brain/context-gatherer.service.ts:72-76 | at most fifty files are analysed, all of them source files of the project |
| ContextGatherer.AnalyzeFile | apps/backend/src/brain/context-gatherer.service.ts:213-246 | an unreadable file throws; Python files yield no routes; files of other languages yield nothing |
| ContextGatherer.CollectFindings | apps/backend/src/brain/context-gatherer.service.ts:76-91 | every finding is tagged with a file of the loop, and there is at most one import entry per file |
| ContextGatherer.AnalysisBounded | apps/backend/src/brain/context-gatherer.service.ts:72-91 | the analysis records findings only from at most fifty source files of the project |
| ContextGatherer.AnalyzeSources | apps/backend/src/brain/context-gatherer.service.ts:76-91 | the loop records the findings of the analysed files in order, a failed analysis skipped |
| ContextGatherer.GatherProjectContext | apps/backend/src/brain/context-gatherer.service.ts:45-116 | the context holds the walk's listing, the dependency record, the frameworks it uses, the findings of the analysed sources, and the test, config and documentation files of the listing |
| ContextGatherer.FirstTen | apps/backend/src/brain/context-gatherer.service.ts:373-398 | at most ten items, the first ones |
| ContextGatherer.SummaryTotals | apps/backend/src/brain/context-gatherer.service.ts:359-369 | the summary opens with its title and always states the four totals |
| ContextGatherer.SummaryListsAtMostTen | apps/backend/src/brain/context-gatherer.service.ts:371-401 | at most ten dependencies, functions, classes and routes are listed, whatever the totals |
| ContextGatherer.EmptySectionsOmitted | apps/backend/src/brain/context-gatherer.service.ts:361-396 | the frameworks line and each section appear exactly when their list is not empty |
| ContextGatherer.FirstTenDependenciesListed | apps/backend/src/brain/context-gatherer.service.ts:371-378 | the first ten dependencies, and only they, are listed with their versions |
| ContextGatherer.PushDependencies | apps/backend/src/brain/context-gatherer.service.ts:374-376 | the loop appends one line per listed dependency |
| ContextGatherer.PushFunctions | apps/backend/src/brain/context-gatherer.service.ts:382-384 | the loop appends one line per listed function |
| ContextGatherer.PushClasses | apps/backend/src/brain/context-gatherer.service.ts:390-392 | the loop appends one line per listed class |
| ContextGatherer.PushApis | apps/backend/src/brain/context-gatherer.service.ts:398-400 | the loop appends one line per listed route |
| ContextGatherer.GenerateContextSummary | apps/backend/src/brain/context-gatherer.service.ts:356-404 | the pushed lines, joined with newlines, are `ContextSummary(context)`, whose totals, limits and omitted sections the lemmas above state |
| ContextGatherer.ListUpTo | apps/backend/src/brain/context-gatherer.service.ts:126-136 | the files listed for the first entries of a directory lie below it |
| ContextGatherer.ListEntry | apps/backend/src/brain/context-gatherer.service.ts:127-135 | the files listed for one entry lie below its directory |
| ContextGatherer.ProjectListing | apps/backend/src/brain/context-gatherer.service.ts:118-144 | every listed path is non-empty and passes only through directories the walk descends into |
| ContextGatherer.Overview | apps/backend/src/brain/context-gatherer.service.ts:359-369 | the opening lines are the title, the frameworks line and the structure totals, nothing else |
| ContextGatherer.OverviewTotals | apps/backend/src/brain/context-gatherer.service.ts:359-369 | the opening lines begin with the title and hold the four totals |
| ContextGatherer.DependencySection | apps/backend/src/brain/context-gatherer.service.ts:371-378 | the dependency section holds its heading, its items and a blank line only |
| ContextGatherer.FunctionSection | apps/backend/src/brain/context-gatherer.service.ts:380-386 | the function section holds its heading, its items and a blank line only |
| ContextGatherer.ClassSection | apps/backend/src/brain/context-gatherer.service.ts:388-394 | the class section holds its heading, its items and a blank line only |
| ContextGatherer.ApiSection | apps/backend/src/brain/context-gatherer.service.ts:396-401 | the route section holds its heading and its items only, with no blank line after it |
| ContextGatherer.PushOverview | apps/backend/src/brain/context-gatherer.service.ts:359-369 | the pushes build the opening lines |
| ContextGatherer.PushDependencySection | apps/backend/src/brain/context-gatherer.service.ts:371-378 | the pushes append the dependency section |
| ContextGatherer.PushFunctionSection | apps/backend/src/brain/context-gatherer.service.ts:380-386 | the pushes append the function section |
| ContextGatherer.PushClassSection | apps/backend/src/brain/context-gatherer.service.ts:388-394 | the pushes append the class section |
| ContextGatherer.PushApiSection | apps/backend/src/brain/context-gatherer.service.ts:396-401 | the pushes append the route section |
| ContextGatherer.UsedKeepsOrder | apps/backend/src/brain/context-gatherer.service.ts:204-208 | the frameworks kept come in table order |
| ContextGatherer.RequirementStep | apps/backend/src/brain/context-gatherer.service.ts:166-171 | one more line assigns its name, when it names one, at 'latest' |
| ContextGatherer.ExtensionCategoriesDisjoint | apps/backend/src/brain/context-gatherer.service.ts:72-106 | a file with a documentation extension is never a source file, and one with a configuration extension is neither a source nor a documentation file |
| Delivery.FirstMentionedOf | apps/backend/src/delivery/delivery.service.ts:193-221 | the type found is chore or one of the keyword table's types |
| Delivery.FirstMentionedChore | apps/backend/src/delivery/delivery.service.ts:196-220 | the search ends at chore exactly when no group of keywords is mentioned |
| Delivery.DetectedByTable | apps/backend/src/delivery/delivery.service.ts:193-221 | the if-chain is the search of the keyword table in its order, on the lower-cased description |
| Delivery.BranchTypePriority | apps/backend/src/delivery/delivery.service.ts:196-218 | a description gets a group's type exactly when it mentions that group and no group of higher priority: fix, test, refactor, docs, feat |
| Delivery.ChoreWhenNoKeyword | apps/backend/src/delivery/delivery.service.ts:220 | chore is the type exactly of a description that mentions no keyword at all |
| Delivery.KeepAllowed | apps/backend/src/delivery/delivery.service.ts:183 | only lower-case letters, digits, white space and dashes are kept, and nothing is added |
| Delivery.DashWhite | apps/backend/src/delivery/delivery.service.ts:184 | white space is gone and only dashes are added |
| Delivery.Take | apps/backend/src/delivery/delivery.service.ts:185 | the slice is a prefix of at most n characters, the whole text when it is short enough |
| Delivery.Sanitize | apps/backend/src/delivery/delivery.service.ts:181-185 | the sanitized description is at most 50 characters of lower-case letters, digits and dashes |
| Delivery.SanitizeIdempotent | apps/backend/src/delivery/delivery.service.ts:181-185 | a sanitized description sanitizes to itself |
| Delivery.Stamp | apps/backend/src/delivery/delivery.service.ts:188 | the stamp is one to six digits |
| Delivery.StampValue | apps/backend/src/delivery/delivery.service.ts:188 | the stamp reads back as the clock modulo 10^6 |
| Delivery.ParseComposed | apps/backend/src/delivery/delivery.service.ts:190 | any name of the form `type/slug-digits` splits back into its three parts |
| Delivery.BranchNameRoundTrip | apps/backend/src/delivery/delivery.service.ts:177-191 | the detected type, the sanitized description and the stamp can be read back from the branch name |
| Delivery.StatusesReached | apps/backend/src/delivery/delivery.service.ts:37-121 | between one and five status writes happen before a failing call, all five exactly when nothing fails |
| Delivery.StageFields | apps/backend/src/delivery/delivery.service.ts:54-121 | each stage records the branch name from the branch stage, the commit from the commit stage, the pull request from the last, and its own status |
| Delivery.BranchStage | apps/backend/src/delivery/delivery.service.ts:51-60 | the branch update sets the generated name and BRANCH_CREATED |
| Delivery.CommitStage | apps/backend/src/delivery/delivery.service.ts:73-84 | the commit update records the one commit and COMMITTED |
| Delivery.PushStage | apps/backend/src/delivery/delivery.service.ts:87-92 | the push update sets PUSHED and nothing else |
| Delivery.PrStage | apps/backend/src/delivery/delivery.service.ts:95-121 | the PR update records number, URL, title and body and PR_CREATED |
| Delivery.SuccessTrail | apps/backend/src/delivery/delivery.service.ts:44-121 | without failure the statuses are PENDING, BRANCH_CREATED, COMMITTED, PUSHED, PR_CREATED |
| Delivery.StatusTrailForward | apps/backend/src/delivery/delivery.service.ts:37-136 | the status only moves forward from PENDING; FAILED comes last and only after a failure; PR_CREATED only when nothing failed; the record ends in the trail's last status |
| Delivery.DeliverySucceeds | apps/backend/src/delivery/delivery.service.ts:123-128 | a delivery without failure ends with the PR recorded and returns the branch, the PR and the one commit |
| Delivery.DeliveryFails | apps/backend/src/delivery/delivery.service.ts:129-136 | a failed delivery ends FAILED, rethrows the collaborator's error, keeps the branch name only once the branch exists and the commit only once it was made, and never records a PR |
| Delivery.LatestFor | apps/backend/src/delivery/delivery.service.ts:143-175 | the newest record of the task: it is the task's and no later record is |
| Delivery.ReviewTarget | apps/backend/src/delivery/delivery.service.ts:143-150 | a review is answered exactly when the task's newest delivery has a truthy PR number |
| Delivery.RepliesOnePerComment | apps/backend/src/delivery/delivery.service.ts:153-167 | one reply per review comment, in order, each to the delivery's pull request |
| Delivery.DeliveryService.constructor | apps/backend/src/delivery/delivery.service.ts:37 | no deliveries and nothing posted at start |
| Delivery.DeliveryService.Create | apps/backend/src/delivery/delivery.service.ts:37-47 | one record is added with its first status |
| Delivery.DeliveryService.SuccessFinal | apps/backend/src/delivery/delivery.service.ts:112-128 | without failure the record ends at the last stage |
| Delivery.DeliveryService.DeliverChanges | apps/backend/src/delivery/delivery.service.ts:28-137 | an unparsable URL throws 'Invalid GitHub repository URL' and writes nothing; otherwise one record is created and advanced stage by stage as `Stage` and `StatusTrail` say, and the outcome is its result |
| Delivery.DeliveryService.Proceed | apps/backend/src/delivery/delivery.service.ts:49-60 | the branch stage, then the rest, ending in `Outcome` and the final record |
| Delivery.DeliveryService.CommitWork | apps/backend/src/delivery/delivery.service.ts:62-84 | the commit stage, then the rest |
| Delivery.DeliveryService.Push | apps/backend/src/delivery/delivery.service.ts:86-92 | the push stage, then the rest |
| Delivery.DeliveryService.OpenPullRequest | apps/backend/src/delivery/delivery.service.ts:94-128 | the pull request stage and the result |
| Delivery.DeliveryService.GetDeliveryStatus | apps/backend/src/delivery/delivery.service.ts:170-175 | a record exactly when the task has one, and then one of the task's records |
| Delivery.DeliveryService.RespondToCodeReview | apps/backend/src/delivery/delivery.service.ts:139-168 | without a PR on the newest delivery it throws 'No PR found for this task' and posts nothing; otherwise it posts one reply per comment, in order, up to the first reply whose generation or posting throws, and then rethrows that error; the deliveries are unchanged |
| Delivery.LabelType | apps/backend/src/delivery/delivery.service.ts:193-221 | a branch-type label reads back as its type |
| Delivery.DeliveryService.UpdateNewest | apps/backend/src/delivery/delivery.service.ts:54-133 | `delivery.update` on the record just created: it becomes the given record and its status is added to its trail |
| Delivery.DeliveryService.Advance | apps/backend/src/delivery/delivery.service.ts:54-121 | each update moves the record from one stage to the next |
| Delivery.DeliveryService.FailNewest | apps/backend/src/delivery/delivery.service.ts:129-136 | after a failure the record is marked FAILED and the collaborator's error is rethrown |
| Delivery.Answered | apps/backend/src/delivery/delivery.service.ts:153-167 | the replies posted are exactly the leading ones that were generated and posted, and the one after them, if any, is the one that threw |
| GitHub.OwnerRepo | apps/backend/src/delivery/github.service.ts:218-223 | the owner is a non-empty run without slashes and the repository is non-empty: slash-free for HTTPS, on one line for SSH |
| GitHub.FirstMatch | apps/backend/src/delivery/github.service.ts:218-223 | the match taken is the leftmost one |
| GitHub.ParseRepoUrl | apps/backend/src/delivery/github.service.ts:214-229 | a parsed owner is non-empty and slash-free and the repository is non-empty |
| GitHub.ParseRepoUrlAccepts | apps/backend/src/delivery/github.service.ts:218-228 | a URL parses exactly when one of the two patterns matches in it, and the HTTPS match wins when there is one |
| GitHub.StripGitOnce | apps/backend/src/delivery/github.service.ts:218-223 | exactly one ".git" is taken off the repository |
| GitHub.HttpsRoundTrip | apps/backend/src/delivery/github.service.ts:218-221 | `https://github.com/owner/repo.git` parses back to its owner and repository |
| GitHub.SshRoundTrip | apps/backend/src/delivery/github.service.ts:223-226 | `git@github.com:owner/repo.git` parses back to its owner and repository, which may itself contain slashes |
| GitHub.ForeignUrlRejected | apps/backend/src/delivery/github.service.ts:228 | a URL mentioning neither form is rejected |
| RateLimit.Identifier | apps/backend/src/common/rate-limit/rate-limit.guard.ts:67-70 | the user id when it is a non-empty string, otherwise the IP |
| RateLimit.KeySeparatesRoutes | apps/backend/src/common/rate-limit/rate-limit.guard.ts:42 | one caller's counters on two routes are the same counter exactly when the routes are |
| RateLimit.Capacity | apps/backend/src/common/rate-limit/rate-limit.guard.ts:45-52 | a window always admits at least its first request |
| RateLimit.Decide | apps/backend/src/common/rate-limit/rate-limit.guard.ts:29-65 | without options every request passes and nothing is counted; a refusal keeps the counters; no other caller's counter changes |
| RateLimit.DecideCounts | apps/backend/src/common/rate-limit/rate-limit.guard.ts:43-64 | a request is refused exactly when its counter exists and has reached the limit; an admission sets an absent counter to 1 and adds one to a present one |
| RateLimit.Burst | apps/backend/src/common/rate-limit/rate-limit.guard.ts:43-64 | one verdict per request of the burst |
| RateLimit.BurstCount | apps/backend/src/common/rate-limit/rate-limit.guard.ts:43-64 | from a fresh start the count climbs by one per admitted request and stops at the capacity |
| RateLimit.BurstAdmitsCapacity | apps/backend/src/common/rate-limit/rate-limit.guard.ts:43-64 | within one window a fresh caller gets exactly the limit through when it is positive, and still the first request when it is not |
| RateLimit.RateLimitGuard.constructor | apps/backend/src/common/rate-limit/rate-limit.guard.ts:24-27 | no counters at start |
| RateLimit.RateLimitGuard.CanActivate | apps/backend/src/common/rate-limit/rate-limit.guard.ts:29-65 | the verdict and the counters afterwards are those of `Decide`: no options pass, a counter at the limit refuses with 429, any other counts one more |
| Stores.EventBus.constructor | apps/backend/src/common/kafka/kafka.service.ts:48 | the bus log starts empty |
| Stores.EventBus.Publish | apps/backend/src/common/kafka/kafka.service.ts:48-62 | exactly one message is appended to the bus log, with its topic and value |
| Stores.UpdateRow | apps/backend/src/workflow/state-machine.service.ts:229-244 | an update of a missing task row is rejected and changes nothing; otherwise only that row's status, and its completion time when given, change |
| Stores.TaskTable.constructor | apps/backend/src/workflow/state-machine.service.ts:229 | the task table starts empty |
| Stores.TaskTable.Update | apps/backend/src/workflow/state-machine.service.ts:229-244 | the result and the rows afterwards are those of the row update |

## Left out

- Process execution, the docker sandbox, the file system, the network, Redis, Prisma and Kafka are not run. Each appears as the answers it gives: sandbox results, file maps, task rows, the bus log, counters. The bus log (`Stores.EventBus.Publish`) records every message handed to `publish`, as if a producer is connected. The code returns without sending when there is no producer, and swallows errors from sending.
- Language-model calls are answers passed in. These are the planner, the error analysis, code generation and rewriting, and the commit and pull request texts.
- Logging and console output are not modelled. They change no state.
- Floating point is not modelled. The maintainability index (`calculateMaintainability`, with its logarithms) and the complexity estimate (`estimateComplexity`, with its regular expressions) are inputs to the quality score. Nothing models how they are computed.
- Running ESLint and pylint, and decoding their JSON, are not modelled. Only the mapping of one reported message to an issue is (`CodeQuality.EslintIssue`, `CodeQuality.PylintIssue`).
- `formatCode` and `getSourceFiles` of the quality service are not modelled. The orchestrator sees the formatter only as an outcome.
- The syntax-tree parser is not part of this model. Its edit is an outcome that either gives text or throws.
- The file-modification rows the file system service logs in the database are not modelled.
- `writeFile`'s directory creation is not modelled.
- TaskOrchestrator: the progress messages `publishProgress` sends to the bus are not modelled. The event log of the state machine's transitions is modelled.
- TaskOrchestrator.TaskOrchestratorService.ExecuteTask: the four emits to the events gateway are not modelled. These are `emitTaskStatusChange(taskId, 'initialized')`, `emitCodeReview`, `emitCommandResult` and `emitTaskStatusChange(taskId, 'completed', ...)` (task-orchestrator.service.ts lines 40, 70, 90 and 114). They reach socket clients only and change no record, row or bus message. The last one is never reached, because `markCompleted` is proved to throw just before it. The gateway's `emitTaskProgress` inside `publishProgress` is left out likewise.
- TaskOrchestrator.TaskOrchestratorService.ExecuteSubtask: the "Subtask verification failed" branch is not written. `verifySubtask` always answers true, so the branch cannot run.
- TaskOrchestrator: file-operation results returned to a subtask are discarded, as in the code. A failed file edit never fails a subtask.
- TaskOrchestrator.TaskOrchestratorService.Gather, Plan and CheckAndTest do not branch on an error from the transitions to PLANNING, EXECUTING and TESTING. Instead these transitions are proved to be accepted from the state each step is in.
- TaskOrchestrator.TaskOrchestratorService.Test does not write the tail of a successful `markCompleted`. That call is proved to be rejected from TESTING.
- Workflow: `setImmediate` is modelled as a log of the executions handed to the event loop. Running them later is outside the model.
- StateMachine: the cache's one-hour time to live is modelled only as an explicit eviction (`EvictCache`). No clock is modelled.
- RateLimit: the read and the increment of a counter are modelled as one atomic step. Concurrent requests that interleave between them, and the counter's expiry at the end of the window, are not modelled.
- Common.ToLower: only the ASCII letters A to Z are lowered. JavaScript's `toLowerCase` lowers all of Unicode, and can change a string's length ("İ", U+0130, becomes two characters). The ensures `|r| == |s|` holds for this ASCII model only.
- Delivery.Sanitize: lowers with `Common.ToLower`, so for non-ASCII capitals it differs from the code. The Kelvin sign U+212A becomes "k" in JavaScript and is then kept; here it is dropped as not allowed. "İ" becomes "i" plus a combining dot in JavaScript, and the dot is then dropped, leaving "i"; here the whole character is dropped. `Delivery.DetectBranchType` lowers the same way, but none of its keywords holds a letter whose lowering differs, so its answer is the code's.
- CodeEditor.DetectLanguage: the extension is lowered with `Common.ToLower`, so an extension with a non-ASCII capital (".\u212At", which JavaScript reads as ".kt") gives "plaintext" here.
- ContextGatherer: JavaScript lists integer-like object keys first, in numeric order. The dependency record keeps every key in insertion order instead.
- ContextGatherer: the scrapers of `analyzeFile` (imports, functions, classes, routes) are passed in as answers. Their regular expressions are not modelled.
- ContextGatherer: the block form of go.mod (`require ( ... )`) is read as the regular expression reads it, with "(" taken as a module name.
- ContextGatherer.Entry: a directory entry's name is taken to be one path segment. Names holding a "/" are not excluded, since the file system never gives them.
- TestRunner: `JSON.parse` of jest and mocha output is an input, the parsed report or nothing when the parse throws. Reading the manifest and probing for `pytest.ini` and `go.mod` are also inputs.
- TestRunner: `generateTests` writes a file, which is not modelled. Only the name it chooses (`getTestFileName`) is.
- CommandExecutor: `getExecutionHistory` is a database query and is not modelled. Environment variables and timeouts passed to the sandbox are not modelled either.
- DebugLoop.ExecuteWithDebugLoop: the execution records the command executor writes for each run are not modelled. Each round's sandbox answer is given instead.
- Hands: `getProjectStructure` and `readProjectFiles` only forward to the file system and are not modelled.
- Delivery: the git and GitHub calls are outcomes, and the first one that throws ends the delivery. Gathering the diff and generating texts are folded into the step that uses them.
- Delivery.Stamp: the clock is a natural number, so a negative or fractional `Date.now()` is not modelled.
- EventsGateway, WorkflowGateway: connection logging is not modelled. The socket server's own bookkeeping is reduced to the room memberships and the list of emits or deliveries.
- WorkflowGateway.Gateway.OnBusMessage: the message value is given already parsed. A value that is not JSON makes `JSON.parse` throw in the consumer, and a value that parses to `null` throws at `data.taskId`. Neither throw is modelled. A value without a string `taskId` is delivered to nobody.
