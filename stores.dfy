/** The infrastructure the workflow services share, reduced to its observable state:
    the message bus (Kafka) as the log of everything published to it, and the
    durable task table (Prisma `task` rows) as a map from task id to row. */
module Stores {
  import opened Common

  datatype BusMessage = BusMessage(topic: string, value: Json)

  /** The topic progress messages are published on. */
  const ProgressTopic: string := "task-progress"
  /** The topic accepted state transitions are published on. */
  const WorkflowEventsTopic: string := "workflow-events"

  /** Kafka as seen by its producers: `publish` appends and never throws, because
      the client wrapper catches and logs its own errors. */
  class EventBus {
    var log: seq<BusMessage>

    constructor()
      ensures log == []
    {
      log := [];
    }

    method Publish(topic: string, value: Json)
      modifies this
      ensures log == old(log) + [BusMessage(topic, value)]
    {
      log := log + [BusMessage(topic, value)];
    }
  }

  /** The columns of a task row the workflow reads or writes; `subtaskStatuses` is the
      status of every subtask of the task's execution plan, absent without a plan. */
  datatype TaskRow = TaskRow(
    status: string,
    repoPath: Option<string>,
    completedAt: Option<string>,
    subtaskStatuses: Option<seq<string>>)

  /** The message an update of a missing row is rejected with. */
  const RecordNotFound: string := "Record to update not found."

  /** An update of a missing row is rejected; otherwise only that row's status (and, when
      given, its completion time) change. */
  function UpdateRow(rows: map<string, TaskRow>, id: string, status: string, completedAt: Option<string>)
    : (r: (Result<()>, map<string, TaskRow>))
    ensures id !in rows <==> r.0 == Err(RecordNotFound)
    ensures id !in rows ==> r.1 == rows
    ensures id in rows ==> r.0 == Ok(()) && r.1.Keys == rows.Keys && r.1[id].status == status
    ensures id in rows ==> r.1[id].repoPath == rows[id].repoPath && r.1[id].subtaskStatuses == rows[id].subtaskStatuses
    ensures id in rows && completedAt.Some? ==> r.1[id].completedAt == completedAt
    ensures id in rows && completedAt.None? ==> r.1[id].completedAt == rows[id].completedAt
    ensures forall k :: k in rows && k != id ==> k in r.1 && r.1[k] == rows[k]
  {
    if id !in rows then (Err(RecordNotFound), rows)
    else
      var row := rows[id];
      (Ok(()), rows[id := row.(status := status,
                                completedAt := if completedAt.Some? then completedAt else row.completedAt)])
  }

  class TaskTable {
    var rows: map<string, TaskRow>

    constructor()
      ensures rows == map[]
    {
      rows := map[];
    }

    /** `task.update({where: {id}, data: {status, completedAt?}})`. */
    method Update(id: string, status: string, completedAt: Option<string>) returns (r: Result<()>)
      modifies this
      ensures (r, rows) == UpdateRow(old(rows), id, status, completedAt)
    {
      r, rows := UpdateRow(rows, id, status, completedAt).0, UpdateRow(rows, id, status, completedAt).1;
    }
  }
}
