/** The index of every node follows the multimap, and subscriptions heal themselves. */
module ProtocolIndex {
  import opened Bytes
  import opened Cluster
  import opened Wrappers
  import opened EventBus
  import opened Protocol

  /** A remove event for the key is still to be handled from `cursor` on. */
  predicate RemovePending(log: seq<Event>, cursor: nat, key: Str) {
    exists i :: cursor <= i < |log| && log[i] == Removed(key)
  }

  predicate AddPending(log: seq<Event>, cursor: nat, sub: Sub) {
    exists i :: cursor <= i < |log| && log[i] == Added(sub)
  }

  /** An entry whose add event no remove event of its key follows is still there. */
  ghost predicate LogAgrees(store: Store) {
    forall i | 0 <= i < |store.log| && store.log[i].Added? ::
      RemovePending(store.log, i, store.log[i].sub.key) || store.log[i].sub in store.entries
  }

  /** With no remove event pending for a key, the queue names only servers the multimap names, and
      each entry of the multimap is queued or its add event is pending. */
  ghost predicate Follows(store: Store, endpoints: Endpoints, cursor: nat, key: Str) {
    RemovePending(store.log, cursor, key) ||
    (&& Queued(endpoints, key) <= ServersOf(store.entries, key)
     && forall sub | sub in store.entries && sub.key == key ::
          sub.node.server in Queued(endpoints, key) || AddPending(store.log, cursor, sub))
  }

  /** Every own subscription is in the multimap, or a remove event that restores it is pending. */
  ghost predicate Heals(store: Store, localSubs: seq<Sub>, cursor: nat) {
    forall sub | sub in localSubs :: sub in store.entries || RemovePending(store.log, cursor, sub.key)
  }

  ghost predicate IndexAgrees(store: Store, endpoints: Endpoints, localSubs: seq<Sub>, cursor: nat) {
    && cursor <= |store.log|
    && NoEmptyQueue(endpoints)
    && (forall key :: Follows(store, endpoints, cursor, key))
    && Heals(store, localSubs, cursor)
  }

  ghost predicate NodeIndexed(store: Store, node: Node) {
    IndexAgrees(store, node.endpoints, node.localSubs, node.cursor)
  }

  ghost predicate Indexed(s: System) {
    && LogAgrees(s.store)
    && forall d | d in s.nodes :: NodeIndexed(s.store, s.nodes[d])
  }

  // ---------------------------------------------------------------- changes of the multimap

  /** `later` is `store` after some puts. */
  ghost predicate Grown(store: Store, later: Store) {
    && store.entries <= later.entries
    && |store.log| <= |later.log| && later.log[..|store.log|] == store.log
    && (forall i | |store.log| <= i < |later.log| :: later.log[i].Added? && later.log[i].sub in later.entries)
    && forall sub | sub in later.entries && sub !in store.entries :: AddPending(later.log, |store.log|, sub)
  }

  lemma PutAllGrows(store: Store, subs: seq<Sub>)
    ensures Grown(store, PutAll(store, subs)) && PutAll(store, subs).entries == store.entries + SetOf(subs)
  {
    PutAllEffect(store, subs);
    var later := PutAll(store, subs);
    forall sub | sub in later.entries && sub !in store.entries ensures AddPending(later.log, |store.log|, sub) {
      PutAllAnnounces(store, subs, sub);
    }
  }

  lemma RemovePendingGrown(store: Store, later: Store, cursor: nat, key: Str)
    requires Grown(store, later) && cursor <= |store.log|
    ensures RemovePending(later.log, cursor, key) == RemovePending(store.log, cursor, key)
  {
    assert forall i | 0 <= i < |store.log| :: later.log[i] == later.log[..|store.log|][i];
    if RemovePending(store.log, cursor, key) {
      var i :| cursor <= i < |store.log| && store.log[i] == Removed(key);
      assert later.log[i] == Removed(key);
    }
  }

  lemma AddPendingGrown(store: Store, later: Store, cursor: nat, sub: Sub)
    requires Grown(store, later) && cursor <= |store.log|
    requires AddPending(store.log, cursor, sub) || AddPending(later.log, |store.log|, sub)
    ensures AddPending(later.log, cursor, sub)
  {
    if AddPending(store.log, cursor, sub) {
      var i :| cursor <= i < |store.log| && store.log[i] == Added(sub);
      assert later.log[i] == later.log[..|store.log|][i];
    }
  }

  lemma LogAgreesGrown(store: Store, later: Store)
    requires Grown(store, later) && LogAgrees(store)
    ensures LogAgrees(later)
  {
    forall i | 0 <= i < |later.log| && later.log[i].Added?
      ensures RemovePending(later.log, i, later.log[i].sub.key) || later.log[i].sub in later.entries
    {
      if i < |store.log| {
        assert later.log[i] == later.log[..|store.log|][i];
        RemovePendingGrown(store, later, i, store.log[i].sub.key);
      }
    }
  }

  lemma FollowsGrown(store: Store, later: Store, endpoints: Endpoints, cursor: nat, key: Str)
    requires Grown(store, later) && cursor <= |store.log| && Follows(store, endpoints, cursor, key)
    ensures Follows(later, endpoints, cursor, key)
  {
    RemovePendingGrown(store, later, cursor, key);
    if !RemovePending(store.log, cursor, key) {
      forall sub | sub in later.entries && sub.key == key
        ensures sub.node.server in Queued(endpoints, key) || AddPending(later.log, cursor, sub)
      {
        if !(sub in store.entries && sub.node.server in Queued(endpoints, key)) {
          AddPendingGrown(store, later, cursor, sub);
        }
      }
    }
  }

  lemma HealsGrown(store: Store, later: Store, localSubs: seq<Sub>, cursor: nat)
    requires Grown(store, later) && cursor <= |store.log| && Heals(store, localSubs, cursor)
    ensures Heals(later, localSubs, cursor)
  {
    forall sub | sub in localSubs ensures sub in later.entries || RemovePending(later.log, cursor, sub.key) {
      RemovePendingGrown(store, later, cursor, sub.key);
    }
  }

  lemma NodeIndexedGrown(store: Store, later: Store, node: Node)
    requires Grown(store, later) && NodeIndexed(store, node)
    ensures NodeIndexed(later, node)
  {
    forall key ensures Follows(later, node.endpoints, node.cursor, key) {
      FollowsGrown(store, later, node.endpoints, node.cursor, key);
    }
    HealsGrown(store, later, node.localSubs, node.cursor);
  }

  lemma RemovePendingShrunk(store: Store, sub: Sub, cursor: nat, key: Str)
    requires sub in store.entries && cursor <= |store.log|
    ensures RemovePending(Remove(store, sub).log, cursor, key) == (RemovePending(store.log, cursor, key) || key == sub.key)
  {
    var later := Remove(store, sub);
    assert later.log[|store.log|] == Removed(sub.key);
    if RemovePending(store.log, cursor, key) {
      var i :| cursor <= i < |store.log| && store.log[i] == Removed(key);
      assert later.log[i] == Removed(key);
    }
  }

  lemma FollowsShrunk(store: Store, sub: Sub, endpoints: Endpoints, cursor: nat, key: Str)
    requires sub in store.entries && cursor <= |store.log| && Follows(store, endpoints, cursor, key)
    ensures Follows(Remove(store, sub), endpoints, cursor, key)
  {
    var later := Remove(store, sub);
    RemovePendingShrunk(store, sub, cursor, key);
    if !RemovePending(later.log, cursor, key) {
      assert ServersOf(later.entries, key) == ServersOf(store.entries, key);
      forall e | e in later.entries && e.key == key
        ensures e.node.server in Queued(endpoints, key) || AddPending(later.log, cursor, e)
      {
        if e.node.server !in Queued(endpoints, key) {
          assert AddPending(store.log, cursor, e);
          var i :| cursor <= i < |store.log| && store.log[i] == Added(e);
          assert later.log[i] == Added(e);
        }
      }
    }
  }

  lemma NodeIndexedShrunk(store: Store, sub: Sub, node: Node)
    requires sub in store.entries && NodeIndexed(store, node)
    ensures NodeIndexed(Remove(store, sub), node)
  {
    var later := Remove(store, sub);
    forall key ensures Follows(later, node.endpoints, node.cursor, key) {
      assert Follows(store, node.endpoints, node.cursor, key);
      FollowsShrunk(store, sub, node.endpoints, node.cursor, key);
    }
    forall e | e in node.localSubs ensures e in later.entries || RemovePending(later.log, node.cursor, e.key) {
      RemovePendingShrunk(store, sub, node.cursor, e.key);
    }
  }

  lemma LogAgreesShrunk(store: Store, sub: Sub)
    requires sub in store.entries && LogAgrees(store)
    ensures LogAgrees(Remove(store, sub))
  {
    var later := Remove(store, sub);
    forall i | 0 <= i < |later.log| && later.log[i].Added?
      ensures RemovePending(later.log, i, later.log[i].sub.key) || later.log[i].sub in later.entries
    {
      RemovePendingShrunk(store, sub, i, later.log[i].sub.key);
    }
  }

  // ---------------------------------------------------------------- the handlers

  /** Past an event, what is pending is what was, less that event. */
  lemma PendingAfter(log: seq<Event>, cursor: nat, next: nat, key: Str, sub: Sub)
    requires cursor < |log| && next == cursor + 1
    ensures RemovePending(log, cursor, key) <==> log[cursor] == Removed(key) || RemovePending(log, next, key)
    ensures AddPending(log, cursor, sub) <==> log[cursor] == Added(sub) || AddPending(log, next, sub)
  {
  }

  /** An add event queues its server. */
  lemma FollowsAdded(store: Store, endpoints: Endpoints, cursor: nat, next: nat, sub: Sub, key: Str)
    requires LogAgrees(store) && Follows(store, endpoints, cursor, key)
    requires cursor < |store.log| && store.log[cursor] == Added(sub) && next == cursor + 1
    ensures Follows(store, Push(endpoints, sub), next, key)
  {
    var later := Push(endpoints, sub);
    PendingAfter(store.log, cursor, next, key, sub);
    assert Queued(later, key) == Queued(endpoints, key) + if key == sub.key then {sub.node.server} else {};
    if !RemovePending(store.log, next, key) {
      assert key == sub.key ==> sub in store.entries;
      forall e | e in store.entries && e.key == key
        ensures e.node.server in Queued(later, key) || AddPending(store.log, next, e)
      {
        PendingAfter(store.log, cursor, next, key, e);
      }
    }
  }

  lemma HealsAfter(store: Store, localSubs: seq<Sub>, cursor: nat, next: nat)
    requires Heals(store, localSubs, cursor)
    requires cursor < |store.log| && store.log[cursor].Added? && next == cursor + 1
    ensures Heals(store, localSubs, next)
  {
    forall e | e in localSubs ensures e in store.entries || RemovePending(store.log, next, e.key) {
      PendingAfter(store.log, cursor, next, e.key, e);
    }
  }

  lemma AddedKeepsIndex(store: Store, node: Node, sub: Sub, next: nat)
    requires LogAgrees(store) && NodeIndexed(store, node)
    requires node.cursor < |store.log| && store.log[node.cursor] == Added(sub) && next == node.cursor + 1
    ensures IndexAgrees(store, Push(node.endpoints, sub), node.localSubs, next)
  {
    var later := Push(node.endpoints, sub);
    forall key ensures Follows(store, later, next, key) {
      assert Follows(store, node.endpoints, node.cursor, key);
      FollowsAdded(store, node.endpoints, node.cursor, next, sub, key);
    }
    HealsAfter(store, node.localSubs, node.cursor, next);
  }

  /** A remove event has the key's queue read afresh, and leaves the other queues. */
  lemma FollowsRemoved(store: Store, endpoints: Endpoints, cursor: nat, next: nat, removed: Str, order: seq<Sub>, key: Str)
    requires Follows(store, endpoints, cursor, key)
    requires cursor < |store.log| && store.log[cursor] == Removed(removed) && next == cursor + 1
    requires Lists(order, Under(store.entries, removed))
    ensures Follows(store, Rebuild(endpoints, removed, order), next, key)
  {
    RebuildEffect(endpoints, removed, store.entries, order);
    if key != removed && !RemovePending(store.log, next, key) {
      forall e | e in store.entries && e.key == key
        ensures e.node.server in Queued(endpoints, key) || AddPending(store.log, next, e)
      {
        PendingAfter(store.log, cursor, next, key, e);
      }
      PendingAfter(store.log, cursor, next, key, Sub(key, NodeInfo([], ServerID(0, []))));
    }
  }

  /** Handling a remove event: all own subscriptions are put back as well. */
  lemma RemovedKeepsIndex(store: Store, node: Node, key: Str, order: seq<Sub>, next: nat)
    requires NodeIndexed(store, node)
    requires node.cursor < |store.log| && store.log[node.cursor] == Removed(key) && next == node.cursor + 1
    requires Lists(order, Under(store.entries, key))
    ensures IndexAgrees(PutAll(store, node.localSubs), Rebuild(node.endpoints, key, order), node.localSubs, next)
  {
    var later := Rebuild(node.endpoints, key, order);
    var grown := PutAll(store, node.localSubs);
    RebuildEffect(node.endpoints, key, store.entries, order);
    PutAllGrows(store, node.localSubs);
    forall k ensures Follows(grown, later, next, k) {
      assert Follows(store, node.endpoints, node.cursor, k);
      FollowsRemoved(store, node.endpoints, node.cursor, next, key, order, k);
      FollowsGrown(store, grown, later, next, k);
    }
  }

  // ---------------------------------------------------------------- the environment

  /** What the environment takes is gone: one frame, or one entry, whose removal every node still has to handle. */
  lemma EnvironmentTakes(s: System, packet: Packet, sub: Sub)
    ensures Enabled(s, Lose(packet)) ==> Apply(s, Lose(packet)) == s.(net := s.net[packet := s.net[packet] - 1])
    ensures Enabled(s, Evict(sub)) ==>
              var later := Apply(s, Evict(sub));
              && later == s.(store := later.store) && later.store.entries == s.store.entries - {sub}
              && forall at | at in s.nodes && s.nodes[at].cursor <= |s.store.log| ::
                   RemovePending(later.store.log, later.nodes[at].cursor, sub.key)
  {
    if Enabled(s, Lose(packet)) {
      assert s.net - multiset{packet} == s.net[packet := s.net[packet] - 1];
    }
    if Enabled(s, Evict(sub)) {
      RemoveEffect(s.store, sub);
      var later := Apply(s, Evict(sub));
      assert later.store.log[|s.store.log|] == Removed(sub.key);
    }
  }

  // ---------------------------------------------------------------- every step

  lemma JoinKeepsIndex(store: Store, info: NodeInfo, order: seq<Sub>)
    requires Lists(order, store.entries)
    ensures NodeIndexed(store, Joined(info, store, order))
  {
    PushAllEffect(map[], order);
    var endpoints := Joined(info, store, order).endpoints;
    forall key ensures Follows(store, endpoints, |store.log|, key) {
      assert Queued(endpoints, key) == Queued(map[], key) + ServersOf(SetOf(order), key);
    }
  }

  /** A node that has just joined has its index from the snapshot alone: no event is pending for it, and each
      entry has given its server one slot. */
  lemma JoinedFromTheSnapshot(s: System, info: NodeInfo, order: seq<Sub>, key: Str, server: ServerID)
    requires Enabled(s, Join(info, order))
    ensures var later := Apply(s, Join(info, order));
            && info.server in later.nodes && NextEvent(later, info.server) == None
            && multiset(Queue(later.nodes[info.server].endpoints, key))[server]
               == |Naming(s.store.entries, key, server)|
  {
    SnapshotSlots(order, s.store.entries, key, server);
    hide PushAll, Naming, Lists, Queue;
  }

  lemma ConsumeKeepsIndex(s: System, at: ServerID, key: Str, func: nat)
    requires Indexed(s) && at in s.nodes
    ensures Indexed(Consumed(s, at, key, func))
  {
    var after, sub := Consumed(s, at, key, func), Sub(key, s.nodes[at].info);
    PutAllGrows(s.store, [sub]);
    assert PutAll(s.store, [sub]) == after.store;
    LogAgreesGrown(s.store, after.store);
    forall d | d in s.nodes ensures NodeIndexed(after.store, after.nodes[d]) {
      NodeIndexedGrown(s.store, after.store, s.nodes[d]);
    }
  }

  lemma HandleRemovedKeepsIndex(s: System, at: ServerID, order: seq<Sub>)
    requires Indexed(s) && Enabled(s, HandleRemoved(at, order))
    ensures Indexed(AfterRemoved(s, at, order))
  {
    var after := AfterRemoved(s, at, order);
    PutAllGrows(s.store, s.nodes[at].localSubs);
    LogAgreesGrown(s.store, after.store);
    RemovedKeepsIndex(s.store, s.nodes[at], NextEvent(s, at).value.key, order, s.nodes[at].cursor + 1);
    forall d | d in s.nodes && d != at ensures NodeIndexed(after.store, after.nodes[d]) {
      NodeIndexedGrown(s.store, after.store, s.nodes[d]);
    }
  }

  lemma EvictKeepsIndex(s: System, sub: Sub)
    requires Indexed(s) && sub in s.store.entries
    ensures Indexed(s.(store := Remove(s.store, sub)))
  {
    LogAgreesShrunk(s.store, sub);
    forall d | d in s.nodes ensures NodeIndexed(Remove(s.store, sub), s.nodes[d]) {
      NodeIndexedShrunk(s.store, sub, s.nodes[d]);
    }
  }

  lemma AskKeepsIndex(s: System, at: ServerID, key: Str)
    requires Indexed(s) && at in s.nodes && key in s.nodes[at].endpoints
    ensures NoEmptyQueue(s.nodes[at].endpoints)
    ensures IndexAgrees(s.store, Next(s.nodes[at].endpoints, key).value.1, s.nodes[at].localSubs, s.nodes[at].cursor)
  {
    var node := s.nodes[at];
    NextEffect(node.endpoints, key);
    var rotated := Next(node.endpoints, key).value.1;
    forall k ensures Follows(s.store, rotated, node.cursor, k) {
      assert Follows(s.store, node.endpoints, node.cursor, k);
      assert Queued(rotated, k) == Queued(node.endpoints, k);
    }
  }

  /** Every step keeps the index invariant. */
  lemma StepKeepsIndex(s: System, step: Step)
    requires Indexed(s) && Enabled(s, step)
    ensures Indexed(Apply(s, step))
  {
    hide IndexAgrees, Receive, Process, LogAgrees, UsesSetters, Contains, Completions, NoEmptyQueue;
    match step {
      case Join(info, order) => JoinKeepsIndex(s.store, info, order);
      case Consume(at, key, func) => ConsumeKeepsIndex(s, at, key, func);
      case ConsumeLocal(at, key, func) =>
      case Ask(at, key, value, func, uuid, react) =>
        if key in s.nodes[at].endpoints {
          AskKeepsIndex(s, at, key);
        }
      case Deliver(packet, junk, react) =>
      case Lose(packet) =>
      case HandleAdded(at) =>
        AddedKeepsIndex(s.store, s.nodes[at], NextEvent(s, at).value.sub, s.nodes[at].cursor + 1);
      case HandleRemoved(at, order) => HandleRemovedKeepsIndex(s, at, order);
      case Evict(sub) => EvictKeepsIndex(s, sub);
    }
  }
}
