/** The subscription registry both WebSocket gateways keep: task id to the set of
    client (socket) ids subscribed to it, as a value, with the three ways the
    gateways change it. */
module Subscriptions {
  import opened Common

  type Registry = map<string, set<string>>

  /** One message sent to one client. */
  datatype Delivery = Delivery(to: string, event: string, payload: Json)

  /** The clients subscribed to a task; an absent entry means none. */
  function Members(m: Registry, taskId: string): set<string> {
    if taskId in m then m[taskId] else {}
  }

  predicate NoEmptyEntries(m: Registry) {
    forall t :: t in m ==> m[t] != {}
  }

  /** Create the task's set if missing, then add the client. */
  function Subscribe(m: Registry, taskId: string, client: string): (r: Registry)
    ensures Members(r, taskId) == Members(m, taskId) + {client}
    ensures forall t :: t != taskId ==> Members(r, t) == Members(m, t)
    ensures r.Keys == m.Keys + {taskId}
  {
    m[taskId := Members(m, taskId) + {client}]
  }

  /** Remove the client from the task's set, leaving the entry even when emptied. */
  function RemoveKeepingEntry(m: Registry, taskId: string, client: string): (r: Registry)
    ensures Members(r, taskId) == Members(m, taskId) - {client}
    ensures forall t :: t != taskId ==> Members(r, t) == Members(m, t)
    ensures r.Keys == m.Keys
  {
    if taskId in m then m[taskId := m[taskId] - {client}] else m
  }

  /** Remove the client from the task's set and delete the entry if that emptied it. */
  function RemoveDroppingEmpty(m: Registry, taskId: string, client: string): (r: Registry)
    ensures Members(r, taskId) == Members(m, taskId) - {client}
    ensures forall t :: t != taskId ==> Members(r, t) == Members(m, t)
    ensures r.Keys <= m.Keys
    ensures taskId in r <==> Members(m, taskId) - {client} != {}
  {
    if taskId !in m then m
    else if m[taskId] - {client} == {} then m - {taskId}
    else m[taskId := m[taskId] - {client}]
  }

  /** Remove the client from every set, deleting each entry that is empty afterwards. */
  function RemoveEverywhere(m: Registry, client: string): (r: Registry)
    ensures forall t :: Members(r, t) == Members(m, t) - {client}
    ensures forall t :: t in r <==> Members(m, t) - {client} != {}
  {
    map t | t in m && m[t] - {client} != {} :: m[t] - {client}
  }

  /** Part way through a disconnect sweep of `m`: the entries still `pending` are as they
      were, the others have lost the client, and those that became empty are gone. */
  ghost predicate SweptSoFar(r: Registry, m: Registry, client: string, pending: set<string>) {
    pending <= m.Keys
    && (forall t :: t in r <==> t in m && (t in pending || m[t] - {client} != {}))
    && (forall t :: t in r && t in pending ==> r[t] == m[t])
    && (forall t :: t in r && t !in pending ==> r[t] == m[t] - {client})
  }

  lemma SweepStep(r: Registry, m: Registry, client: string, pending: set<string>, t: string)
    requires SweptSoFar(r, m, client, pending) && t in pending
    ensures t in r
    ensures r[t] - {client} == {} ==> SweptSoFar(r - {t}, m, client, pending - {t})
    ensures r[t] - {client} != {} ==> SweptSoFar(r[t := r[t] - {client}], m, client, pending - {t})
  {
  }

  lemma SweptAll(r: Registry, m: Registry, client: string)
    requires SweptSoFar(r, m, client, {})
    ensures r == RemoveEverywhere(m, client)
  {
    var e := RemoveEverywhere(m, client);
    assert r.Keys == e.Keys;
    assert forall t :: t in r ==> r[t] == e[t];
  }

  /** The disconnect sweep: visits every entry once, removes the client from its set and
      deletes the entry when that leaves it empty. */
  method SweepClient(m: Registry, client: string) returns (r: Registry)
    ensures r == RemoveEverywhere(m, client)
  {
    r := m;
    var pending := m.Keys;
    while pending != {}
      invariant SweptSoFar(r, m, client, pending)
      decreases pending
    {
      var t :| t in pending;
      SweepStep(r, m, client, pending, t);
      var rest := r[t] - {client};
      if rest == {} {
        r := r - {t};
      } else {
        r := r[t := rest];
      }
      pending := pending - {t};
    }
    SweptAll(r, m, client);
  }

  /** Two registries with the same members for every task. */
  ghost predicate SameMembers(a: Registry, b: Registry) {
    forall t :: Members(a, t) == Members(b, t)
  }

  /** Subscribing, unsubscribing either way, and disconnecting keep two registries with the
      same members in step, whether or not they keep emptied entries. */
  lemma SameMembersPreserved(a: Registry, b: Registry, taskId: string, client: string)
    requires SameMembers(a, b)
    ensures SameMembers(Subscribe(a, taskId, client), Subscribe(b, taskId, client))
    ensures SameMembers(RemoveKeepingEntry(a, taskId, client), RemoveDroppingEmpty(b, taskId, client))
    ensures SameMembers(RemoveEverywhere(a, client), RemoveEverywhere(b, client))
  {
    forall t ensures Members(Subscribe(a, taskId, client), t) == Members(Subscribe(b, taskId, client), t) {
      assert Members(a, t) == Members(b, t);
    }
    forall t ensures Members(RemoveKeepingEntry(a, taskId, client), t) == Members(RemoveDroppingEmpty(b, taskId, client), t) {
      assert Members(a, t) == Members(b, t);
    }
    forall t ensures Members(RemoveEverywhere(a, client), t) == Members(RemoveEverywhere(b, client), t) {
      assert Members(a, t) == Members(b, t);
    }
  }

  // ---------------------------------------------------------------------------
  // Properties

  lemma SubscribeIdempotent(m: Registry, taskId: string, client: string)
    ensures Subscribe(Subscribe(m, taskId, client), taskId, client) == Subscribe(m, taskId, client)
  {
  }

  /** Subscribing never creates an empty entry. */
  lemma SubscribeKeepsNoEmpty(m: Registry, taskId: string, client: string)
    requires NoEmptyEntries(m)
    ensures NoEmptyEntries(Subscribe(m, taskId, client))
  {
  }

  /** Dropping emptied entries on unsubscribe keeps the registry free of empty entries. */
  lemma RemoveDroppingEmptyKeepsNoEmpty(m: Registry, taskId: string, client: string)
    requires NoEmptyEntries(m)
    ensures NoEmptyEntries(RemoveDroppingEmpty(m, taskId, client))
  {
  }

  /** After a disconnect no entry is empty, whatever the registry held before. */
  lemma RemoveEverywhereNoEmpty(m: Registry, client: string)
    ensures NoEmptyEntries(RemoveEverywhere(m, client))
    ensures forall t :: client !in Members(RemoveEverywhere(m, client), t)
  {
  }

  /** Unsubscribing undoes a fresh subscription exactly when entries are dropped once emptied. */
  lemma UnsubscribeUndoesSubscribe(m: Registry, taskId: string, client: string)
    requires NoEmptyEntries(m) && client !in Members(m, taskId)
    ensures RemoveDroppingEmpty(Subscribe(m, taskId, client), taskId, client) == m
  {
    var r := RemoveDroppingEmpty(Subscribe(m, taskId, client), taskId, client);
    assert forall t :: t in r <==> t in m;
    assert forall t :: t in r ==> r[t] == Members(r, t) == Members(m, t) == m[t];
  }

  /** Keeping emptied entries does not undo a subscription: the entry stays behind, empty. */
  lemma UnsubscribeKeepsEmptyEntry(taskId: string, client: string)
    ensures var r := RemoveKeepingEntry(Subscribe(map[], taskId, client), taskId, client);
      taskId in r && r[taskId] == {} && !NoEmptyEntries(r)
  {
    var r := RemoveKeepingEntry(Subscribe(map[], taskId, client), taskId, client);
    assert Members(r, taskId) == {};
  }
}
