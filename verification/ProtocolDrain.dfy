/** When the environment stops removing entries, the pending events run dry and every index is complete. */
module ProtocolDrain {
  import opened Bytes
  import opened Cluster
  import opened Codec
  import opened EventBus
  import opened Protocol
  import opened ProtocolIndex

  /** The servers of the key's add events that are still to be handled. */
  function AddsPending(log: seq<Event>, cursor: nat, key: Str): set<ServerID> {
    set i | cursor <= i < |log| && log[i].Added? && log[i].sub.key == key :: log[i].sub.node.server
  }

  /** Convergence: past the last remove event for a key, what is queued together with what is still
      to be added is exactly what the multimap names; with nothing pending, the queue alone is. */
  lemma Convergence(s: System, at: ServerID, key: Str)
    requires Indexed(s) && at in s.nodes
    requires !RemovePending(s.store.log, s.nodes[at].cursor, key)
    ensures var node := s.nodes[at];
            && Queued(node.endpoints, key) + AddsPending(s.store.log, node.cursor, key) == ServersOf(s.store.entries, key)
            && (node.cursor == |s.store.log| ==> Queued(node.endpoints, key) == ServersOf(s.store.entries, key))
  {
    var node, log := s.nodes[at], s.store.log;
    assert NodeIndexed(s.store, node) && Follows(s.store, node.endpoints, node.cursor, key);
    forall i | node.cursor <= i < |log| && log[i].Added? && log[i].sub.key == key
      ensures log[i].sub.node.server in ServersOf(s.store.entries, key)
    {
      assert log[i].sub in s.store.entries;
    }
    forall e | e in s.store.entries && e.key == key && e.node.server !in Queued(node.endpoints, key)
      ensures e.node.server in AddsPending(log, node.cursor, key)
    {
      assert AddPending(log, node.cursor, e);
    }
  }

  /** Everything has been handled. */
  predicate Settled(s: System) {
    forall d | d in s.nodes :: s.nodes[d].cursor >= |s.store.log|
  }

  /** Self-healing: once everything is handled, every node's queue for a key names every consumer
      that any node has registered under it, and nobody the multimap does not name. */
  lemma SettledIsComplete(s: System, at: ServerID, owner: ServerID, sub: Sub)
    requires Indexed(s) && Settled(s) && at in s.nodes && owner in s.nodes && sub in s.nodes[owner].localSubs
    ensures sub in s.store.entries
    ensures sub.node.server in Queued(s.nodes[at].endpoints, sub.key)
    ensures Queued(s.nodes[at].endpoints, sub.key) == ServersOf(s.store.entries, sub.key)
  {
    assert NodeIndexed(s.store, s.nodes[owner]) && NodeIndexed(s.store, s.nodes[at]);
    assert sub in s.store.entries;
    Convergence(s, at, sub.key);
  }

  /** A step that only handles an event. */
  predicate Handling(step: Step) {
    step.HandleAdded? || step.HandleRemoved?
  }

  /** A step that neither changes the multimap nor registers a consumer nor lets a node join. */
  predicate Draining(step: Step) {
    Handling(step) || step.ConsumeLocal? || step.Ask? || step.Deliver? || step.Lose?
  }

  /** How many of the steps handle an event. */
  function Handlers(steps: seq<Step>): nat {
    if steps == [] then 0 else (if Handling(steps[0]) then 1 else 0) + Handlers(steps[1..])
  }

  /** Until then some event can be handled. */
  lemma HandlingGoesOn(s: System) returns (step: Step)
    requires !Settled(s)
    ensures Handling(step) && Enabled(s, step)
  {
    var at :| at in s.nodes && s.nodes[at].cursor < |s.store.log|;
    match NextEvent(s, at).value {
      case Added(_) => step := HandleAdded(at);
      case Removed(key) =>
        var order := SomeOrder(Under(s.store.entries, key));
        step := HandleRemoved(at, order);
    }
  }

  // ---------------------------------------------------------------- how long it takes

  /** Position `index` of the log, seen from one node. */
  datatype Slot = Slot(at: ServerID, index: int)

  function Grid(nodes: set<ServerID>, lo: int, hi: int): set<Slot> {
    set d, i | d in nodes && lo <= i < hi :: Slot(d, i)
  }

  /** The events still to be handled, node by node. */
  function PendingAdds(s: System): set<Slot> {
    set d, i | d in s.nodes && s.nodes[d].cursor <= i < |s.store.log| && s.store.log[i].Added? :: Slot(d, i)
  }

  function PendingRemoves(s: System): set<Slot> {
    set d, i | d in s.nodes && s.nodes[d].cursor <= i < |s.store.log| && s.store.log[i].Removed? :: Slot(d, i)
  }

  /** One remove event makes its node announce at most its own subscriptions, to every node. */
  function Cost(adds: nat, removes: nat, nodes: nat, own: nat): nat {
    adds + (1 + nodes * own) * removes
  }

  function Work(s: System, own: nat): nat {
    Cost(|PendingAdds(s)|, |PendingRemoves(s)|, |s.nodes.Keys|, own)
  }

  ghost predicate OwnsAtMost(s: System, own: nat) {
    forall d | d in s.nodes :: |s.nodes[d].localSubs| <= own
  }

  lemma {:induction false} GridSize(nodes: set<ServerID>, lo: int, hi: int)
    requires lo <= hi
    ensures |Grid(nodes, lo, hi)| == |nodes| * (hi - lo)
    decreases hi - lo
  {
    if lo == hi {
      assert Grid(nodes, lo, hi) == {};
    } else {
      GridSize(nodes, lo, hi - 1);
      ColumnSize(nodes, hi - 1);
      assert Grid(nodes, lo, hi) == Grid(nodes, lo, hi - 1) + Grid(nodes, hi - 1, hi);
      assert Grid(nodes, lo, hi - 1) !! Grid(nodes, hi - 1, hi);
    }
  }

  lemma {:induction false} ColumnSize(nodes: set<ServerID>, i: int)
    ensures |Grid(nodes, i, i + 1)| == |nodes|
    decreases |nodes|
  {
    if nodes == {} {
      assert Grid(nodes, i, i + 1) == {};
    } else {
      var d :| d in nodes;
      ColumnSize(nodes - {d}, i);
      assert Grid(nodes, i, i + 1) == Grid(nodes - {d}, i, i + 1) + {Slot(d, i)};
    }
  }

  lemma AddedShrinksWork(s: System, at: ServerID, own: nat)
    requires Enabled(s, HandleAdded(at))
    ensures Work(AfterAdded(s, at), own) < Work(s, own)
  {
    var after, i := AfterAdded(s, at), s.nodes[at].cursor;
    assert PendingAdds(after) == PendingAdds(s) - {Slot(at, i)};
    assert Slot(at, i) in PendingAdds(s);
    assert PendingRemoves(after) == PendingRemoves(s);
    assert after.nodes.Keys == s.nodes.Keys;
  }

  lemma GrownByGrid(later: set<Slot>, before: set<Slot>, nodes: set<ServerID>, lo: int, hi: int)
    requires lo <= hi && later <= before + Grid(nodes, lo, hi)
    ensures |later| <= |before| + |nodes| * (hi - lo)
  {
    GridSize(nodes, lo, hi);
    var all := before + Grid(nodes, lo, hi);
    assert all == later + (all - later);
  }

  lemma Counts(after: nat, adds: nat, removes: nat, nodes: nat, announced: nat, own: nat)
    requires removes > 0 && after <= adds + nodes * announced && announced <= own
    ensures Cost(after, removes - 1, nodes, own) < Cost(adds, removes, nodes, own)
  {
    assert nodes * announced <= nodes * own;
    assert (1 + nodes * own) * removes == (1 + nodes * own) * (removes - 1) + (1 + nodes * own);
  }

  lemma RemovedPending(s: System, at: ServerID, order: seq<Sub>)
    requires Enabled(s, HandleRemoved(at, order))
    requires forall d | d in s.nodes :: s.nodes[d].cursor <= |s.store.log|
    ensures var after := AfterRemoved(s, at, order);
            && |s.store.log| <= |after.store.log| <= |s.store.log| + |s.nodes[at].localSubs|
            && PendingRemoves(after) == PendingRemoves(s) - {Slot(at, s.nodes[at].cursor)}
            && PendingAdds(after) <= PendingAdds(s) + Grid(s.nodes.Keys, |s.store.log|, |after.store.log|)
            && after.nodes.Keys == s.nodes.Keys
            && Slot(at, s.nodes[at].cursor) in PendingRemoves(s)
  {
    var after, end := AfterRemoved(s, at, order), |s.store.log|;
    PutAllEffect(s.store, s.nodes[at].localSubs);
    assert after.store == PutAll(s.store, s.nodes[at].localSubs);
    hide PutAll, Rebuild, Lists;
    assert forall j | 0 <= j < end :: after.store.log[j] == after.store.log[..end][j] == s.store.log[j];
  }

  lemma RemovedShrinksWork(s: System, at: ServerID, order: seq<Sub>, own: nat)
    requires Enabled(s, HandleRemoved(at, order)) && OwnsAtMost(s, own)
    requires forall d | d in s.nodes :: s.nodes[d].cursor <= |s.store.log|
    ensures Work(AfterRemoved(s, at, order), own) < Work(s, own)
  {
    hide PendingAdds, PendingRemoves, Grid, Cost, AfterRemoved, Lists, Under;
    var after := AfterRemoved(s, at, order);
    RemovedPending(s, at, order);
    GrownByGrid(PendingAdds(after), PendingAdds(s), s.nodes.Keys, |s.store.log|, |after.store.log|);
    Counts(|PendingAdds(after)|, |PendingAdds(s)|, |PendingRemoves(s)|, |s.nodes.Keys|,
           |after.store.log| - |s.store.log|, own);
  }

  lemma CursorsInside(s: System)
    requires Indexed(s)
    ensures forall d | d in s.nodes :: s.nodes[d].cursor <= |s.store.log|
  {
    assert forall d | d in s.nodes :: NodeIndexed(s.store, s.nodes[d]);
  }

  /** The two systems have the same events pending at the same nodes, which own the same subscriptions. */
  predicate SameEvents(s: System, later: System) {
    && later.store == s.store && later.nodes.Keys == s.nodes.Keys
    && forall d | d in s.nodes ::
         later.nodes[d].cursor == s.nodes[d].cursor && later.nodes[d].localSubs == s.nodes[d].localSubs
  }

  lemma SameEventsSameWork(s: System, later: System, own: nat)
    requires SameEvents(s, later)
    ensures Work(later, own) == Work(s, own)
    ensures OwnsAtMost(s, own) ==> OwnsAtMost(later, own)
  {
    assert PendingAdds(later) == PendingAdds(s);
    assert PendingRemoves(later) == PendingRemoves(s);
  }

  lemma AskKeepsEvents(s: System, at: ServerID, key: Str, value: Any, func: nat, uuid: Str, react: Behaviour)
    requires at in s.nodes && NoEmptyQueue(s.nodes[at].endpoints)
    ensures SameEvents(s, Asked(Draw(s, uuid), at, key, value, func, uuid, react))
  {
    hide Request, ReplyId, Completions, NoEmptyQueue;
  }

  lemma DeliverKeepsEvents(s: System, packet: Packet, junk: Str, react: Behaviour)
    requires Deliverable(s, packet)
    ensures SameEvents(s, Delivered(s, packet, junk, react))
  {
    hide Receive, Print, FitsBuffer, Completions;
  }

  /** Requests and deliveries leave the events alone. */
  lemma TrafficKeepsEvents(s: System, step: Step)
    requires Enabled(s, step) && Draining(step) && !Handling(step)
    ensures SameEvents(s, Apply(s, step))
  {
    hide Asked, Delivered, Contains, UsesSetters, NoEmptyQueue, AddLocalConsumer, ReplyId, UserKey, Deliverable;
    match step {
      case Ask(at, key, value, func, uuid, react) => AskKeepsEvents(s, at, key, value, func, uuid, react);
      case Deliver(packet, junk, react) => DeliverKeepsEvents(s, packet, junk, react);
      case _ =>
    }
  }

  lemma HandlersKeepOwn(s: System, step: Step, own: nat)
    requires Enabled(s, step) && Handling(step) && OwnsAtMost(s, own)
    ensures OwnsAtMost(Apply(s, step), own)
  {
  }

  /** However the nodes interleave, with requests, deliveries and losses in between, handlers run at most as
      often as the work there is: draining terminates. */
  lemma {:induction false} DrainingTerminates(s: System, steps: seq<Step>, own: nat)
    requires Indexed(s) && OwnsAtMost(s, own)
    requires Legal(s, steps) && forall i | 0 <= i < |steps| :: Draining(steps[i])
    ensures Handlers(steps) <= Work(s, own)
    ensures Indexed(Run(s, steps))
    decreases |steps|
  {
    hide Work, IndexAgrees, LogAgrees, OwnsAtMost, SameEvents;
    if steps != [] {
      var step := steps[0];
      var after := Apply(s, step);
      StepKeepsIndex(s, step);
      DrainingStep(s, step, own);
      DrainingTerminates(after, steps[1..], own);
    }
  }

  lemma DrainingStep(s: System, step: Step, own: nat)
    requires Indexed(s) && OwnsAtMost(s, own) && Enabled(s, step) && Draining(step)
    ensures OwnsAtMost(Apply(s, step), own)
    ensures if Handling(step) then Work(Apply(s, step), own) < Work(s, own) else Work(Apply(s, step), own) == Work(s, own)
  {
    CursorsInside(s);
    hide Work, IndexAgrees, LogAgrees, OwnsAtMost, SameEvents;
    if Handling(step) {
      HandlersKeepOwn(s, step, own);
      if step.HandleAdded? {
        AddedShrinksWork(s, step.at, own);
      } else {
        RemovedShrinksWork(s, step.at, step.order, own);
      }
    } else {
      TrafficKeepsEvents(s, step);
      SameEventsSameWork(s, Apply(s, step), own);
    }
  }

  /** When handlers can do no more, which the bound above says is soon, every consumer is known everywhere. */
  lemma DrainedIsComplete(s: System, steps: seq<Step>, at: ServerID, owner: ServerID, sub: Sub, own: nat)
    requires Indexed(s) && OwnsAtMost(s, own)
    requires Legal(s, steps) && forall i | 0 <= i < |steps| :: Draining(steps[i])
    requires forall step | Handling(step) :: !Enabled(Run(s, steps), step)
    requires at in Run(s, steps).nodes && owner in Run(s, steps).nodes && sub in Run(s, steps).nodes[owner].localSubs
    ensures Handlers(steps) <= Work(s, own)
    ensures sub.node.server in Queued(Run(s, steps).nodes[at].endpoints, sub.key)
  {
    var end := Run(s, steps);
    DrainingTerminates(s, steps, own);
    if !Settled(end) {
      var step := HandlingGoesOn(end);
    }
    SettledIsComplete(end, at, owner, sub);
  }
}
