/** The shared subscription multimap and a node's index of it: src/vertx/hazelcast_cluster.cpp. */
module Cluster {
  import opened Bytes
  import opened Wrappers

  datatype ServerID = ServerID(port: int32, host: Str)

  datatype NodeInfo = NodeInfo(nodeId: Str, server: ServerID)

  /** One value of the multimap `__vertx.subs` under its key. */
  datatype Sub = Sub(key: Str, node: NodeInfo)

  datatype Event = Added(sub: Sub) | Removed(key: Str)

  // ---------------------------------------------------------------- the multimap

  /** The multimap has set semantics per key. `log` holds the events it has raised, in change order. */
  datatype Store = Store(entries: set<Sub>, log: seq<Event>)

  function Put(store: Store, sub: Sub): Store {
    if sub in store.entries then store
    else Store(store.entries + {sub}, store.log + [Added(sub)])
  }

  function PutAll(store: Store, subs: seq<Sub>): Store
    decreases |subs|
  {
    if subs == [] then store else PutAll(Put(store, subs[0]), subs[1..])
  }

  function Remove(store: Store, sub: Sub): Store {
    if sub !in store.entries then store
    else Store(store.entries - {sub}, store.log + [Removed(sub.key)])
  }

  /** An entry that is there is taken out with one event; nothing else happens. */
  lemma RemoveEffect(store: Store, sub: Sub)
    ensures var later := Remove(store, sub);
            && later.entries == store.entries - {sub}
            && |later.log| == |store.log| + (if sub in store.entries then 1 else 0)
            && later.log[..|store.log|] == store.log
            && (sub in store.entries ==> later.log[|store.log|] == Removed(sub.key))
  {
  }

  function SetOf(subs: seq<Sub>): set<Sub> {
    set s | s in subs
  }

  /** The entries under one key. */
  function Under(entries: set<Sub>, key: Str): set<Sub> {
    set s | s in entries && s.key == key
  }

  /** `order` lists `entries`, each once, in the order the multimap happens to return them. */
  ghost predicate Lists(order: seq<Sub>, entries: set<Sub>) {
    && SetOf(order) == entries
    && forall i, j | 0 <= i < j < |order| :: order[i] != order[j]
  }

  lemma {:induction false} SomeOrder(entries: set<Sub>) returns (order: seq<Sub>)
    ensures Lists(order, entries)
    decreases entries
  {
    if entries == {} {
      order := [];
    } else {
      var sub :| sub in entries;
      var rest := SomeOrder(entries - {sub});
      order := rest + [sub];
      assert SetOf(order) == SetOf(rest) + {sub};
    }
  }

  /** `later` continues `log` with `Added` events for entries that are listed and were not there. */
  predicate Announces(log: seq<Event>, later: seq<Event>, subs: seq<Sub>, before: set<Sub>) {
    && |log| <= |later| <= |log| + |subs|
    && later[..|log|] == log
    && forall i | |log| <= i < |later| :: later[i].Added? && later[i].sub in subs && later[i].sub !in before
  }

  /** Putting a list: the entries grow by exactly the list, and the log by `Added` events for new
      entries only. */
  lemma {:induction false} PutAllEffect(store: Store, subs: seq<Sub>)
    ensures PutAll(store, subs).entries == store.entries + SetOf(subs)
    ensures Announces(store.log, PutAll(store, subs).log, subs, store.entries)
    decreases |subs|
  {
    if subs != [] {
      var mid, after := Put(store, subs[0]), PutAll(store, subs);
      PutAllEffect(mid, subs[1..]);
      assert SetOf(subs) == {subs[0]} + SetOf(subs[1..]);
      assert after.log[..|store.log|] == after.log[..|mid.log|][..|store.log|];
      forall i | |store.log| <= i < |after.log|
        ensures after.log[i].Added? && after.log[i].sub in subs && after.log[i].sub !in store.entries
      {
        assert i < |mid.log| ==> after.log[i] == after.log[..|mid.log|][i] == Added(subs[0]);
      }
    }
  }

  /** Every listed entry that was not there is announced. */
  lemma {:induction false} PutAllAnnounces(store: Store, subs: seq<Sub>, s: Sub)
    requires s in subs && s !in store.entries
    ensures exists i | |store.log| <= i < |PutAll(store, subs).log| :: PutAll(store, subs).log[i] == Added(s)
    decreases |subs|
  {
    var mid, after := Put(store, subs[0]), PutAll(store, subs);
    PutAllEffect(mid, subs[1..]);
    if s == subs[0] {
      assert after.log[|store.log|] == after.log[..|mid.log|][|store.log|] == Added(s);
    } else {
      PutAllAnnounces(mid, subs[1..], s);
    }
  }

  // ---------------------------------------------------------------- the index

  /** `_local_endpoints`: a round-robin queue of servers for each key. */
  type Endpoints = map<Str, seq<ServerID>>

  function Queue(endpoints: Endpoints, key: Str): seq<ServerID> {
    if key in endpoints then endpoints[key] else []
  }

  function Queued(endpoints: Endpoints, key: Str): set<ServerID> {
    set s | s in Queue(endpoints, key)
  }

  function ServersOf(subs: set<Sub>, key: Str): set<ServerID> {
    set s | s in subs && s.key == key :: s.node.server
  }

  /** `try_emplace` of a queue with one server, or `push` on the queue that is there. */
  function Push(endpoints: Endpoints, sub: Sub): Endpoints {
    endpoints[sub.key := Queue(endpoints, sub.key) + [sub.node.server]]
  }

  function PushAll(endpoints: Endpoints, subs: seq<Sub>): Endpoints
    decreases |subs|
  {
    if subs == [] then endpoints else PushAll(Push(endpoints, subs[0]), subs[1..])
  }

  /** The index after `entryRemoved` for `key`, which re-reads the key's entries in some `order`. */
  function Rebuild(endpoints: Endpoints, key: Str, order: seq<Sub>): Endpoints {
    PushAll(endpoints - {key}, order)
  }

  predicate NoEmptyQueue(endpoints: Endpoints) {
    forall k | k in endpoints :: endpoints[k] != []
  }

  /** `next(address)`: the front server, moved to the back; `at` throws when the key is missing. */
  function Next(endpoints: Endpoints, key: Str): Option<(ServerID, Endpoints)>
    requires NoEmptyQueue(endpoints)
  {
    if key !in endpoints then None
    else Some((endpoints[key][0], endpoints[key := endpoints[key][1..] + [endpoints[key][0]]]))
  }

  /** Pushing a list adds exactly the list's servers to each key's queue. */
  lemma {:induction false} PushAllEffect(endpoints: Endpoints, subs: seq<Sub>)
    ensures forall k :: Queued(PushAll(endpoints, subs), k) == Queued(endpoints, k) + ServersOf(SetOf(subs), k)
    ensures NoEmptyQueue(endpoints) ==> NoEmptyQueue(PushAll(endpoints, subs))
    decreases |subs|
  {
    if subs != [] {
      var mid := Push(endpoints, subs[0]);
      PushAllEffect(mid, subs[1..]);
      forall k ensures Queued(PushAll(endpoints, subs), k) == Queued(endpoints, k) + ServersOf(SetOf(subs), k) {
        assert SetOf(subs) == {subs[0]} + SetOf(subs[1..]);
        assert Queued(mid, k) == Queued(endpoints, k) + ServersOf({subs[0]}, k);
        assert ServersOf(SetOf(subs), k) == ServersOf({subs[0]}, k) + ServersOf(SetOf(subs[1..]), k);
      }
    }
  }

  /** A rebuilt queue holds exactly the servers the multimap names now; other queues stay. */
  lemma RebuildEffect(endpoints: Endpoints, key: Str, entries: set<Sub>, order: seq<Sub>)
    requires Lists(order, Under(entries, key))
    ensures Queued(Rebuild(endpoints, key, order), key) == ServersOf(entries, key)
    ensures forall k | k != key :: Queued(Rebuild(endpoints, key, order), k) == Queued(endpoints, k)
    ensures NoEmptyQueue(endpoints) ==> NoEmptyQueue(Rebuild(endpoints, key, order))
  {
    PushAllEffect(endpoints - {key}, order);
    assert ServersOf(SetOf(order), key) == ServersOf(entries, key);
    forall k | k != key ensures ServersOf(SetOf(order), k) == {} && Queued(endpoints - {key}, k) == Queued(endpoints, k) {
    }
  }

  // ---------------------------------------------------------------- slots

  /** The servers listed under a key, in the order of the list. */
  function Listed(subs: seq<Sub>, key: Str): seq<ServerID> {
    if subs == [] then []
    else (if subs[0].key == key then [subs[0].node.server] else []) + Listed(subs[1..], key)
  }

  /** One add event gives its server one slot, behind all others, and no other key any. */
  lemma PushAddsOneSlot(endpoints: Endpoints, sub: Sub)
    ensures var q, later := Queue(endpoints, sub.key), Queue(Push(endpoints, sub), sub.key);
            |later| == |q| + 1 && later[..|q|] == q && later[|q|] == sub.node.server
    ensures forall k | k != sub.key :: Queue(Push(endpoints, sub), k) == Queue(endpoints, k)
  {
  }

  /** A list gives each of its entries one slot behind the old ones, in its order. */
  lemma {:induction false} PushAllSlots(endpoints: Endpoints, subs: seq<Sub>, key: Str)
    ensures Queue(PushAll(endpoints, subs), key) == Queue(endpoints, key) + Listed(subs, key)
    decreases |subs|
  {
    if subs != [] {
      var mid, rest := Push(endpoints, subs[0]), Listed(subs[1..], key);
      PushAllSlots(mid, subs[1..], key);
      PushSlot(endpoints, subs[0], key);
      hide Push, Queue;
      var one := if subs[0].key == key then [subs[0].node.server] else [];
      assert Queue(endpoints, key) + one + rest == Queue(endpoints, key) + (one + rest);
    }
  }

  lemma PushSlot(endpoints: Endpoints, sub: Sub, key: Str)
    ensures Queue(Push(endpoints, sub), key)
         == Queue(endpoints, key) + if sub.key == key then [sub.node.server] else []
  {
  }

  lemma {:induction false} ListedInOrder(subs: seq<Sub>, key: Str)
    requires forall s | s in subs :: s.key == key
    ensures |Listed(subs, key)| == |subs|
    ensures forall i | 0 <= i < |subs| :: Listed(subs, key)[i] == subs[i].node.server
  {
    if subs != [] {
      assert subs[0] in subs;
      ListedInOrder(subs[1..], key);
    }
  }

  /** A rebuilt queue has exactly one slot for each entry that was re-read, in the order in which it was; the
      other queues keep theirs. */
  lemma RebuildSlots(endpoints: Endpoints, key: Str, entries: set<Sub>, order: seq<Sub>)
    requires Lists(order, Under(entries, key))
    ensures var later := Queue(Rebuild(endpoints, key, order), key);
            |later| == |order| && forall i | 0 <= i < |order| :: later[i] == order[i].node.server
    ensures forall k | k != key :: Queue(Rebuild(endpoints, key, order), k) == Queue(endpoints, k)
  {
    forall s | s in order ensures s.key == key {
      assert s in SetOf(order);
    }
    PushAllSlots(endpoints - {key}, order, key);
    ListedInOrder(order, key);
    forall k | k != key ensures Queue(Rebuild(endpoints, key, order), k) == Queue(endpoints, k) {
      PushAllSlots(endpoints - {key}, order, k);
      ListedElsewhere(order, key, k);
    }
  }

  lemma {:induction false} ListedElsewhere(subs: seq<Sub>, key: Str, k: Str)
    requires k != key && forall s | s in subs :: s.key == key
    ensures Listed(subs, k) == []
  {
    if subs != [] {
      assert subs[0] in subs;
      ListedElsewhere(subs[1..], key, k);
    }
  }

  /** The entries under a key that name a server. */
  function Naming(entries: set<Sub>, key: Str, server: ServerID): set<Sub> {
    set s | s in entries && s.key == key && s.node.server == server
  }

  lemma ListsTail(order: seq<Sub>, entries: set<Sub>)
    requires Lists(order, entries) && order != []
    ensures order[0] in entries && Lists(order[1..], entries - {order[0]})
  {
    var rest := order[1..];
    assert SetOf(order) == {order[0]} + SetOf(rest);
    assert order[0] !in rest;
  }

  lemma NamingWithout(entries: set<Sub>, first: Sub, key: Str, server: ServerID)
    requires first in entries
    ensures |Naming(entries, key, server)| == |Naming(entries - {first}, key, server)|
                                              + if first.key == key && first.node.server == server then 1 else 0
  {
    var tail := Naming(entries - {first}, key, server);
    if first.key == key && first.node.server == server {
      assert Naming(entries, key, server) == tail + {first};
    } else {
      assert Naming(entries, key, server) == tail;
    }
  }

  lemma {:induction false} ListedCounts(order: seq<Sub>, entries: set<Sub>, key: Str, server: ServerID)
    requires Lists(order, entries)
    ensures multiset(Listed(order, key))[server] == |Naming(entries, key, server)|
    decreases |order|
  {
    if order == [] {
      assert entries == {};
      assert Naming(entries, key, server) == {};
    } else {
      ListsTail(order, entries);
      hide Lists, Naming;
      ListedCounts(order[1..], entries - {order[0]}, key, server);
      NamingWithout(entries, order[0], key, server);
    }
  }

  /** A snapshot gives a server exactly one slot under a key for each entry that names it there. */
  lemma SnapshotSlots(order: seq<Sub>, entries: set<Sub>, key: Str, server: ServerID)
    requires Lists(order, entries)
    ensures multiset(Queue(PushAll(map[], order), key))[server] == |Naming(entries, key, server)|
  {
    PushAllSlots(map[], order, key);
    ListedCounts(order, entries, key, server);
    assert [] + Listed(order, key) == Listed(order, key);
  }

  /** `next` permutes a queue and touches no other. */
  lemma NextEffect(endpoints: Endpoints, key: Str)
    requires NoEmptyQueue(endpoints) && key in endpoints
    ensures var (server, after) := Next(endpoints, key).value;
            && server in Queued(endpoints, key)
            && NoEmptyQueue(after)
            && (forall k :: Queued(after, k) == Queued(endpoints, k))
            && multiset(after[key]) == multiset(endpoints[key])
  {
    var (server, after) := Next(endpoints, key).value;
    var q := endpoints[key];
    assert q == [q[0]] + q[1..];
    forall k ensures Queued(after, k) == Queued(endpoints, k) {
      if k == key {
        assert forall s :: s in q <==> s == q[0] || s in q[1..];
      }
    }
  }

  lemma RebuildIsPush(endpoints: Endpoints, key: Str, order: seq<Sub>)
    ensures Rebuild(endpoints, key, order) == PushAll(endpoints - {key}, order)
    ensures NoEmptyQueue(endpoints) ==> NoEmptyQueue(endpoints - {key})
  {
  }

  lemma PutAllStep(store: Store, subs: seq<Sub>, i: nat)
    requires i <= |subs|
    ensures PutAll(store, subs[i..]) == if i == |subs| then store else PutAll(Put(store, subs[i]), subs[i + 1..])
  {
    if i < |subs| {
      assert subs[i..][1..] == subs[i + 1..];
    }
  }

  // ---------------------------------------------------------------- the code that works in place

  /** The client's view of the Hazelcast multimap: only what the event bus relies on. */
  class MultiMap {
    var entries: set<Sub>
    var log: seq<Event>

    ghost function State(): Store
      reads this
    {
      Store(entries, log)
    }

    constructor ()
      ensures State() == Store({}, [])
    {
      entries, log := {}, [];
    }

    method PutEntry(sub: Sub)
      modifies this
      ensures State() == Put(old(State()), sub)
    {
      if sub !in entries {
        entries, log := entries + {sub}, log + [Added(sub)];
      }
    }

    method RemoveEntry(sub: Sub)
      modifies this
      ensures State() == Remove(old(State()), sub)
    {
      if sub in entries {
        entries, log := entries - {sub}, log + [Removed(sub.key)];
      }
    }

    /** The entries under `key`, in no particular order. */
    method Get(key: Str) returns (order: seq<Sub>)
      ensures Lists(order, Under(entries, key))
    {
      order := ListAll(Under(entries, key));
    }

    method EntrySet() returns (order: seq<Sub>)
      ensures Lists(order, entries)
    {
      order := ListAll(entries);
    }

    static method ListAll(subs: set<Sub>) returns (order: seq<Sub>)
      ensures Lists(order, subs)
    {
      order := [];
      var rest := subs;
      while rest != {}
        invariant rest <= subs && Lists(order, subs - rest)
        decreases rest
      {
        var s :| s in rest;
        assert SetOf(order + [s]) == SetOf(order) + {s};
        order := order + [s];
        rest := rest - {s};
      }
    }
  }

  class HazelcastCluster {
    const nodeId: Str
    const subs: MultiMap
    var localSubs: seq<Sub>
    var localEndpoints: Endpoints

    ghost predicate Valid()
      reads this
    {
      NoEmptyQueue(localEndpoints)
    }

    constructor (nodeId: Str, subs: MultiMap)
      ensures Valid() && localSubs == [] && localEndpoints == map[]
      ensures this.nodeId == nodeId && this.subs == subs
    {
      this.nodeId, this.subs := nodeId, subs;
      localSubs, localEndpoints := [], map[];
    }

    /** The snapshot taken by `join`. */
    method Join() returns (ghost order: seq<Sub>)
      requires Valid()
      modifies this`localEndpoints
      ensures Valid()
      ensures Lists(order, subs.entries)
      ensures localEndpoints == PushAll(old(localEndpoints), order)
      ensures old(localEndpoints) == map[] ==>
                forall key, server ::
                  multiset(Queue(localEndpoints, key))[server] == |Naming(subs.entries, key, server)|
    {
      var entries := subs.EntrySet();
      order := entries;
      PushEach(entries);
      forall key, server | old(localEndpoints) == map[]
        ensures multiset(Queue(localEndpoints, key))[server] == |Naming(subs.entries, key, server)|
      {
        SnapshotSlots(order, subs.entries, key, server);
      }
    }

    /** The loop of `join` and `entryRemoved` that queues the servers of listed entries. */
    method PushEach(entries: seq<Sub>)
      requires Valid()
      modifies this`localEndpoints
      ensures Valid()
      ensures localEndpoints == PushAll(old(localEndpoints), entries)
    {
      for i := 0 to |entries|
        invariant Valid()
        invariant PushAll(localEndpoints, entries[i..]) == PushAll(old(localEndpoints), entries)
      {
        EntryAdded(entries[i]);
        assert entries[i..][1..] == entries[i + 1..];
      }
    }

    method AddSub(address: Str, port: int32, host: Str)
      modifies this`localSubs, subs
      ensures var sub := Sub(address, NodeInfo(nodeId, ServerID(port, host)));
              subs.State() == Put(old(subs.State()), sub) && localSubs == old(localSubs) + [sub]
    {
      var sub := Sub(address, NodeInfo(nodeId, ServerID(port, host)));
      subs.PutEntry(sub);
      localSubs := localSubs + [sub];
    }

    method EntryAdded(sub: Sub)
      requires Valid()
      modifies this`localEndpoints
      ensures Valid()
      ensures localEndpoints == Push(old(localEndpoints), sub)
      ensures Queue(localEndpoints, sub.key) == Queue(old(localEndpoints), sub.key) + [sub.node.server]
      ensures forall k | k != sub.key :: Queue(localEndpoints, k) == Queue(old(localEndpoints), k)
    {
      if sub.key in localEndpoints {
        localEndpoints := localEndpoints[sub.key := localEndpoints[sub.key] + [sub.node.server]];
      } else {
        assert [] + [sub.node.server] == [sub.node.server];
        localEndpoints := localEndpoints[sub.key := [sub.node.server]];
      }
    }

    /** `None`: `at` throws `std::out_of_range` and nothing has changed. */
    method NextServer(address: Str) returns (server: Option<ServerID>)
      requires Valid()
      modifies this`localEndpoints
      ensures Valid()
      ensures match Next(old(localEndpoints), address)
              case None => server == None && localEndpoints == old(localEndpoints)
              case Some((s, after)) => server == Some(s) && localEndpoints == after
    {
      if address !in localEndpoints {
        return None;
      }
      var queue := localEndpoints[address];
      var id := queue[0];
      queue := queue[1..];
      queue := queue + [id];
      localEndpoints := localEndpoints[address := queue];
      server := Some(id);
    }

    /** Rebuilds the key's queue from the multimap, then re-advertises every own subscription. */
    method EntryRemoved(key: Str) returns (ghost order: seq<Sub>)
      requires Valid()
      modifies this`localEndpoints, subs
      ensures Valid()
      ensures Lists(order, Under(old(subs.entries), key))
      ensures localEndpoints == Rebuild(old(localEndpoints), key, order)
      ensures var q := Queue(localEndpoints, key);
              |q| == |order| && forall i | 0 <= i < |order| :: q[i] == order[i].node.server
      ensures forall k | k != key :: Queue(localEndpoints, k) == Queue(old(localEndpoints), k)
      ensures subs.State() == PutAll(old(subs.State()), localSubs)
    {
      hide Put, PutAll, PushAll, Rebuild, Queue;
      localEndpoints := localEndpoints - {key};
      var values := subs.Get(key);
      order := values;
      PushEach(values);
      RebuildIsPush(old(localEndpoints), key, order);
      RebuildSlots(old(localEndpoints), key, subs.entries, order);
      assert localSubs[0..] == localSubs;
      for i := 0 to |localSubs|
        invariant PutAll(subs.State(), localSubs[i..]) == PutAll(old(subs.State()), localSubs)
        modifies subs
      {
        PutAllStep(subs.State(), localSubs, i);
        subs.PutEntry(localSubs[i]);
      }
      PutAllStep(subs.State(), localSubs, |localSubs|);
    }
  }
}
