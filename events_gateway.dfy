/** The `/events` WebSocket gateway: a registry of task subscriptions mirrored by the
    socket rooms `task:<taskId>`, per-task emits that reach exactly the task's room, and
    a broadcast to every connected client. Unlike the workflow gateway, unsubscribing
    leaves an emptied entry in the registry until the next disconnect sweeps it. */
module EventsGateway {
  import opened Common
  import opened Subscriptions

  /** One emit: the clients it reaches, the event name and the payload. */
  datatype Emit = Emit(recipients: set<string>, event: string, payload: Json)

  /** The acknowledgement a subscribe or unsubscribe handler returns. */
  datatype Ack = Ack(success: bool, message: string)

  /** `{taskId, ...data}`: the fields of `data` win over the task id. */
  function TaskPayload(taskId: string, data: map<string, Json>): (p: Json)
    ensures p.JObj? && p.fields.Keys == data.Keys + {"taskId"}
    ensures forall k :: k in data ==> p.fields[k] == data[k]
    ensures "taskId" !in data ==> p.fields["taskId"] == JStr(taskId)
  {
    JObj(map["taskId" := JStr(taskId)] + data)
  }

  /** `{taskId, ...data, timestamp}`: the timestamp wins over everything. */
  function StampedPayload(taskId: string, data: map<string, Json>, now: string): (p: Json)
    ensures p.JObj? && p.fields.Keys == data.Keys + {"taskId", "timestamp"}
    ensures p.fields["timestamp"] == JStr(now)
    ensures forall k :: k in data && k != "timestamp" ==> p.fields[k] == data[k]
    ensures "taskId" !in data ==> p.fields["taskId"] == JStr(taskId)
  {
    JObj((map["taskId" := JStr(taskId)] + data)["timestamp" := JStr(now)])
  }

  class Gateway {
    var subscriptions: Registry
    /** Members of the socket room `task:<taskId>`, by task id. */
    var rooms: Registry
    var connected: set<string>
    /** Everything emitted, in order. */
    var emitted: seq<Emit>

    /** Room membership mirrors the registry. */
    ghost predicate Valid()
      reads this
    {
      SameMembers(subscriptions, rooms)
    }

    constructor()
      ensures Valid() && subscriptions == map[] && rooms == map[] && connected == {} && emitted == []
    {
      subscriptions := map[];
      rooms := map[];
      connected := {};
      emitted := [];
    }

    method HandleConnection(client: string)
      requires Valid()
      modifies this
      ensures Valid()
      ensures connected == old(connected) + {client}
      ensures subscriptions == old(subscriptions) && rooms == old(rooms) && emitted == old(emitted)
    {
      connected := connected + {client};
    }

    /** Sweeps every entry: removes the client and deletes each entry that is empty
        afterwards; the socket leaves all its rooms. */
    method HandleDisconnect(client: string)
      requires Valid()
      modifies this
      ensures Valid()
      ensures subscriptions == RemoveEverywhere(old(subscriptions), client)
      ensures rooms == RemoveEverywhere(old(rooms), client)
      ensures connected == old(connected) - {client} && emitted == old(emitted)
    {
      SameMembersPreserved(subscriptions, rooms, "", client);
      subscriptions := SweepClient(subscriptions, client);
      rooms := RemoveEverywhere(rooms, client);
      connected := connected - {client};
    }

    method HandleTaskSubscribe(client: string, taskId: string) returns (ack: Ack)
      requires Valid()
      modifies this
      ensures Valid()
      ensures subscriptions == Subscribe(old(subscriptions), taskId, client)
      ensures rooms == Subscribe(old(rooms), taskId, client)
      ensures connected == old(connected) && emitted == old(emitted)
      ensures ack == Ack(true, "Subscribed to task " + taskId)
    {
      if taskId !in subscriptions {
        subscriptions := subscriptions[taskId := {}];
      }
      subscriptions := subscriptions[taskId := subscriptions[taskId] + {client}];
      assert subscriptions == Subscribe(old(subscriptions), taskId, client);
      SameMembersPreserved(old(subscriptions), rooms, taskId, client);
      rooms := Subscribe(rooms, taskId, client);
      ack := Ack(true, "Subscribed to task " + taskId);
    }

    /** The client leaves the set and the room; an emptied set stays in the registry, and
        the acknowledgement is the same whether or not the client was subscribed. */
    method HandleTaskUnsubscribe(client: string, taskId: string) returns (ack: Ack)
      requires Valid()
      modifies this
      ensures Valid()
      ensures subscriptions == RemoveKeepingEntry(old(subscriptions), taskId, client)
      ensures rooms == RemoveDroppingEmpty(old(rooms), taskId, client)
      ensures connected == old(connected) && emitted == old(emitted)
      ensures ack == Ack(true, "Unsubscribed from task " + taskId)
    {
      if taskId in subscriptions {
        subscriptions := subscriptions[taskId := subscriptions[taskId] - {client}];
      }
      SameMembersPreserved(old(subscriptions), rooms, taskId, client);
      rooms := RemoveDroppingEmpty(rooms, taskId, client);
      ack := Ack(true, "Unsubscribed from task " + taskId);
    }

    /** `server.to('task:' + taskId).emit(event, payload)`. */
    method EmitToTask(taskId: string, event: string, payload: Json)
      requires Valid()
      modifies this
      ensures Valid()
      ensures emitted == old(emitted) + [Emit(Members(subscriptions, taskId), event, payload)]
      ensures subscriptions == old(subscriptions) && rooms == old(rooms) && connected == old(connected)
    {
      emitted := emitted + [Emit(Members(rooms, taskId), event, payload)];
    }

    method EmitTaskProgress(taskId: string, data: map<string, Json>)
      requires Valid()
      modifies this
      ensures Valid()
      ensures emitted == old(emitted) + [Emit(Members(subscriptions, taskId), "task:progress", TaskPayload(taskId, data))]
      ensures subscriptions == old(subscriptions) && rooms == old(rooms) && connected == old(connected)
    {
      EmitToTask(taskId, "task:progress", TaskPayload(taskId, data));
    }

    /** `{taskId, status, metadata, timestamp}`; an absent metadata is not serialised. */
    method EmitTaskStatusChange(taskId: string, status: string, metadata: Option<Json>, now: string)
      requires Valid()
      modifies this
      ensures Valid()
      ensures emitted == old(emitted) + [Emit(Members(subscriptions, taskId), "task:status",
                                              StatusPayload(taskId, status, metadata, now))]
      ensures subscriptions == old(subscriptions) && rooms == old(rooms) && connected == old(connected)
    {
      EmitToTask(taskId, "task:status", StatusPayload(taskId, status, metadata, now));
    }

    /** The file-change, command, review and error emits: `{taskId, ...data, timestamp}`
        under their own event names. */
    method EmitStamped(taskId: string, kind: StampedKind, data: map<string, Json>, now: string)
      requires Valid()
      modifies this
      ensures Valid()
      ensures emitted == old(emitted) + [Emit(Members(subscriptions, taskId), StampedEvent(kind),
                                              StampedPayload(taskId, data, now))]
      ensures subscriptions == old(subscriptions) && rooms == old(rooms) && connected == old(connected)
    {
      EmitToTask(taskId, StampedEvent(kind), StampedPayload(taskId, data, now));
    }

    /** `server.emit`: every connected client, subscribed or not. */
    method Broadcast(event: string, data: map<string, Json>, now: string)
      requires Valid()
      modifies this
      ensures Valid()
      ensures emitted == old(emitted) + [Emit(connected, event, JObj(data["timestamp" := JStr(now)]))]
      ensures subscriptions == old(subscriptions) && rooms == old(rooms) && connected == old(connected)
    {
      emitted := emitted + [Emit(connected, event, JObj(data["timestamp" := JStr(now)]))];
    }
  }

  function StatusPayload(taskId: string, status: string, metadata: Option<Json>, now: string): (p: Json)
    ensures p.JObj? && "taskId" in p.fields && "status" in p.fields && "timestamp" in p.fields
    ensures p.fields["taskId"] == JStr(taskId) && p.fields["status"] == JStr(status)
    ensures p.fields["timestamp"] == JStr(now)
    ensures "metadata" in p.fields <==> metadata.Some?
    ensures metadata.Some? ==> p.fields["metadata"] == metadata.value
  {
    var base := map["taskId" := JStr(taskId), "status" := JStr(status), "timestamp" := JStr(now)];
    JObj(if metadata.Some? then base["metadata" := metadata.value] else base)
  }

  datatype StampedKind = FileChange | CommandResult | CodeReview | ErrorReport

  function StampedEvent(kind: StampedKind): (e: string)
    ensures |e| > 5 && e[..5] == "task:"
  {
    match kind
    case FileChange => "task:file-change"
    case CommandResult => "task:command"
    case CodeReview => "task:review"
    case ErrorReport => "task:error"
  }

  /** A client that unsubscribed from a task receives none of its later per-task emits,
      although its emptied entry may remain in the registry. */
  lemma UnsubscribedClientNotReached(m: Registry, taskId: string, client: string)
    ensures client !in Members(RemoveKeepingEntry(m, taskId, client), taskId)
    ensures client !in Members(RemoveDroppingEmpty(m, taskId, client), taskId)
  {
  }
}
