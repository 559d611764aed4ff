/** The workflow WebSocket gateway: a registry of task subscriptions that drops an
    entry once its last subscriber leaves, fan-out of bus messages to a task's
    subscribers one client at a time, and acknowledgements to the subscribing client. */
module WorkflowGateway {
  import opened Common
  import opened Stores
  import opened Subscriptions

  /** The client event a bus topic is forwarded as; topics the gateway does not consume
      have none. */
  function ForwardedEvent(topic: string): (e: Option<string>)
    ensures topic == ProgressTopic <==> e == Some("progress")
    ensures topic == WorkflowEventsTopic <==> e == Some("state-change")
    ensures topic != ProgressTopic && topic != WorkflowEventsTopic <==> e.None?
  {
    if topic == ProgressTopic then Some("progress")
    else if topic == WorkflowEventsTopic then Some("state-change")
    else None
  }

  /** `data.taskId` of a parsed message, when it is a string. */
  function TaskIdOf(data: Json): (r: Option<string>)
    ensures r.Some? <==> data.JObj? && "taskId" in data.fields && data.fields["taskId"].JStr?
    ensures r.Some? ==> data.fields["taskId"] == JStr(r.value)
  {
    if data.JObj? && "taskId" in data.fields && data.fields["taskId"].JStr? then
      Some(data.fields["taskId"].s)
    else None
  }

  function TaskAck(taskId: string): Json {
    JObj(map["taskId" := JStr(taskId)])
  }

  /** The clients a run of deliveries reaches. */
  function Recipients(ds: seq<Delivery>): set<string> {
    if ds == [] then {} else Recipients(ds[..|ds| - 1]) + {ds[|ds| - 1].to}
  }

  /** `ds` delivers `event` with `data` exactly once to each client of `clients`, and to no one else. */
  predicate IsFanout(ds: seq<Delivery>, clients: set<string>, event: string, data: Json) {
    Recipients(ds) == clients && |ds| == |clients|
    && forall i :: 0 <= i < |ds| ==> ds[i].event == event && ds[i].payload == data
  }

  /** A fan-out reaches each of its clients exactly once. */
  lemma {:induction false} FanoutExactlyOnce(ds: seq<Delivery>, clients: set<string>, event: string, data: Json)
    requires IsFanout(ds, clients, event, data)
    ensures forall c :: c in clients ==> exists i :: 0 <= i < |ds| && ds[i].to == c
    ensures forall i, j :: 0 <= i < j < |ds| ==> ds[i].to != ds[j].to
  {
    RecipientsBound(ds);
    forall c | c in clients
      ensures exists i :: 0 <= i < |ds| && ds[i].to == c
    {
      RecipientsAreTargets(ds, c);
    }
    forall i, j | 0 <= i < j < |ds|
      ensures ds[i].to != ds[j].to
    {
      if ds[i].to == ds[j].to {
        RecipientsWithRepeat(ds, i, j);
      }
    }
  }

  lemma {:induction false} RecipientsBound(ds: seq<Delivery>)
    ensures |Recipients(ds)| <= |ds|
  {
    if ds != [] {
      RecipientsBound(ds[..|ds| - 1]);
    }
  }

  lemma {:induction false} RecipientsAreTargets(ds: seq<Delivery>, c: string)
    requires c in Recipients(ds)
    ensures exists i :: 0 <= i < |ds| && ds[i].to == c
  {
    var init := ds[..|ds| - 1];
    if c != ds[|ds| - 1].to {
      RecipientsAreTargets(init, c);
      var i :| 0 <= i < |init| && init[i].to == c;
      assert ds[i].to == c;
    }
  }

  /** A run with a repeated client reaches fewer clients than it has deliveries. */
  lemma {:induction false} RecipientsWithRepeat(ds: seq<Delivery>, i: int, j: int)
    requires 0 <= i < j < |ds| && ds[i].to == ds[j].to
    ensures |Recipients(ds)| < |ds|
  {
    var init := ds[..|ds| - 1];
    if j == |ds| - 1 {
      assert init[i] == ds[i];
      RecipientsMember(init, i);
      RecipientsBound(init);
    } else {
      assert init[i] == ds[i] && init[j] == ds[j];
      RecipientsWithRepeat(init, i, j);
    }
  }

  /** Part way through a fan-out to `clients`: `out` has reached the clients not in `remaining`,
      each once. */
  predicate FanOutSoFar(out: seq<Delivery>, remaining: set<string>, clients: set<string>, event: string, data: Json) {
    remaining !! Recipients(out) && remaining + Recipients(out) == clients
    && |out| == |Recipients(out)|
    && forall i :: 0 <= i < |out| ==> out[i].event == event && out[i].payload == data
  }

  lemma FanOutStep(out: seq<Delivery>, remaining: set<string>, clients: set<string>, event: string, data: Json, c: string)
    requires FanOutSoFar(out, remaining, clients, event, data) && c in remaining
    ensures FanOutSoFar(out + [Delivery(c, event, data)], remaining - {c}, clients, event, data)
  {
    var d := Delivery(c, event, data);
    assert (out + [d])[..|out|] == out;
    assert Recipients(out + [d]) == Recipients(out) + {c};
    assert c !in Recipients(out);
  }

  /** The deliveries of one event to every client of a set, one client at a time in no
      particular order. */
  method FanOut(clients: set<string>, event: string, data: Json) returns (out: seq<Delivery>)
    ensures IsFanout(out, clients, event, data)
  {
    var remaining := clients;
    out := [];
    while remaining != {}
      invariant FanOutSoFar(out, remaining, clients, event, data)
      decreases remaining
    {
      var c :| c in remaining;
      FanOutStep(out, remaining, clients, event, data, c);
      out := out + [Delivery(c, event, data)];
      remaining := remaining - {c};
    }
  }

  lemma {:induction false} RecipientsMember(ds: seq<Delivery>, i: int)
    requires 0 <= i < |ds|
    ensures ds[i].to in Recipients(ds)
  {
    if i < |ds| - 1 {
      assert ds[..|ds| - 1][i] == ds[i];
      RecipientsMember(ds[..|ds| - 1], i);
    }
  }

  class Gateway {
    var subscriptions: Registry
    /** Everything sent to clients, in order. */
    var sent: seq<Delivery>

    ghost predicate Valid()
      reads this
    {
      NoEmptyEntries(subscriptions)
    }

    constructor()
      ensures Valid() && subscriptions == map[] && sent == []
    {
      subscriptions := map[];
      sent := [];
    }

    method HandleSubscribeTask(client: string, taskId: string)
      requires Valid()
      modifies this
      ensures Valid()
      ensures subscriptions == Subscribe(old(subscriptions), taskId, client)
      ensures sent == old(sent) + [Delivery(client, "subscribed", TaskAck(taskId))]
    {
      if taskId !in subscriptions {
        subscriptions := subscriptions[taskId := {}];
      }
      subscriptions := subscriptions[taskId := subscriptions[taskId] + {client}];
      sent := sent + [Delivery(client, "subscribed", TaskAck(taskId))];
    }

    method HandleUnsubscribeTask(client: string, taskId: string)
      requires Valid()
      modifies this
      ensures Valid()
      ensures subscriptions == RemoveDroppingEmpty(old(subscriptions), taskId, client)
      ensures sent == old(sent) + [Delivery(client, "unsubscribed", TaskAck(taskId))]
    {
      if taskId in subscriptions {
        var clients := subscriptions[taskId] - {client};
        if clients == {} {
          subscriptions := subscriptions - {taskId};
        } else {
          subscriptions := subscriptions[taskId := clients];
        }
      }
      sent := sent + [Delivery(client, "unsubscribed", TaskAck(taskId))];
    }

    /** Visits every entry once, removing the client and deleting the entries it empties. */
    method HandleDisconnect(client: string)
      requires Valid()
      modifies this
      ensures Valid()
      ensures subscriptions == RemoveEverywhere(old(subscriptions), client)
      ensures sent == old(sent)
    {
      subscriptions := SweepClient(subscriptions, client);
      RemoveEverywhereNoEmpty(old(subscriptions), client);
    }

    /** One delivery per subscriber of the task, and none at all without an entry. */
    method BroadcastToTask(taskId: string, event: string, data: Json)
      modifies this
      ensures subscriptions == old(subscriptions)
      ensures |old(sent)| <= |sent| && sent[..|old(sent)|] == old(sent)
      ensures IsFanout(sent[|old(sent)|..], Members(subscriptions, taskId), event, data)
    {
      if taskId !in subscriptions {
        assert sent[|sent|..] == [];
        return;
      }
      var out := FanOut(subscriptions[taskId], event, data);
      sent := sent + out;
      assert sent[|old(sent)|..] == out;
    }

    /** `sendTaskUpdate`: the entry point services use. */
    method SendTaskUpdate(taskId: string, event: string, data: Json)
      modifies this
      ensures subscriptions == old(subscriptions)
      ensures |old(sent)| <= |sent| && sent[..|old(sent)|] == old(sent)
      ensures IsFanout(sent[|old(sent)|..], Members(subscriptions, taskId), event, data)
    {
      BroadcastToTask(taskId, event, data);
    }

    /** The bus consumer registered at start-up for both topics: a message without a value
        is ignored; otherwise it goes to the subscribers of its `taskId` under the topic's
        client event. */
    method OnBusMessage(topic: string, value: Option<Json>)
      modifies this
      ensures subscriptions == old(subscriptions)
      ensures |old(sent)| <= |sent| && sent[..|old(sent)|] == old(sent)
      ensures sent[|old(sent)|..] == [] <== value.None? || ForwardedEvent(topic).None? || TaskIdOf(value.value).None?
      ensures value.Some? && ForwardedEvent(topic).Some? && TaskIdOf(value.value).Some? ==>
                IsFanout(sent[|old(sent)|..], Members(subscriptions, TaskIdOf(value.value).value),
                         ForwardedEvent(topic).value, value.value)
    {
      var event := ForwardedEvent(topic);
      if value.None? || event.None? {
        assert sent[|sent|..] == [];
        return;
      }
      var taskId := TaskIdOf(value.value);
      if taskId.None? {
        assert sent[|sent|..] == [];
        return;
      }
      BroadcastToTask(taskId.value, event.value, value.value);
    }
  }
}
