/** The main theorems of the clustered bus, over every run of any number of nodes. */
module ProtocolRuns {
  import opened Bytes
  import opened Wrappers
  import opened Codec
  import opened Cluster
  import opened EventBus
  import opened Protocol
  import opened ProtocolIndex
  import opened ProtocolRouting
  import opened ProtocolReplies
  import opened ProtocolDrain

  ghost predicate Sound(s: System) {
    Indexed(s) && Routed(s) && Replied(s) && Drawn(s)
  }

  // ---------------------------------------------------------------- every step

  lemma RoutedSameNodes(s: System, later: System)
    requires Routed(s) && later.nodes == s.nodes && later.store == s.store
    ensures Routed(later) && Extends(s, later)
  {
    assert Extends(s, later);
    forall at | at in later.nodes ensures NodeRouted(later, at, later.nodes[at]) {
      NodeRoutedExtends(s, later, at, s.nodes[at]);
    }
  }

  lemma EvictKeepsRouting(s: System, sub: Sub)
    requires Routed(s)
    ensures Routed(s.(store := Remove(s.store, sub))) && Extends(s, s.(store := Remove(s.store, sub)))
  {
    var later := s.(store := Remove(s.store, sub));
    assert Extends(s, later);
    forall at | at in later.nodes ensures NodeRouted(later, at, later.nodes[at]) {
      NodeRoutedExtends(s, later, at, s.nodes[at]);
    }
  }

  ghost predicate SameQueues(a: Endpoints, b: Endpoints) {
    forall key :: Queued(a, key) == Queued(b, key)
  }

  lemma RotationKeepsQueues(endpoints: Endpoints, key: Str)
    requires NoEmptyQueue(endpoints) && key in endpoints
    ensures Next(endpoints, key).Some? && SameQueues(Next(endpoints, key).value.1, endpoints)
  {
    NextEffect(endpoints, key);
  }

  lemma AskedOwnRouted(s: System, at: ServerID, key: Str, func: nat, id: Str, rotated: Endpoints)
    requires Routed(s) && at in s.nodes && SameQueues(rotated, s.nodes[at].endpoints)
    ensures Routed(AskedOwn(s, at, key, func, id, rotated))
  {
    hide Routed, Extends, Queued;
    RoutedSameConsumers(s, AskedOwn(s, at, key, func, id, rotated), at);
  }

  lemma AskedRemoteRouted(s: System, at: ServerID, key: Str, func: nat, id: Str, rotated: Endpoints, p: Packet)
    requires Routed(s) && at in s.nodes && SameQueues(rotated, s.nodes[at].endpoints)
    ensures Routed(AskedRemote(s, at, key, func, id, rotated, p))
  {
    hide Routed, Extends, Queued;
    RoutedSameConsumers(s, AskedRemote(s, at, key, func, id, rotated, p), at);
  }

  lemma CompleteRouted(s: System, at: ServerID, id: Str, func: nat)
    requires Routed(s) && at in s.nodes
    ensures Routed(Complete(s, at, id, func))
  {
    hide Routed, Extends, Queued;
    RoutedSameConsumers(s, Complete(s, at, id, func), at);
  }

  /** A request for a key without a server, or with a local consumer, leaves the system as it is. */
  lemma AskedNothing(s: System, at: ServerID, key: Str, value: Any, func: nat, uuid: Str, react: Behaviour)
    requires at in s.nodes && NoEmptyQueue(s.nodes[at].endpoints)
    requires key in s.nodes[at].bus.consumersLocal || key !in s.nodes[at].endpoints
    ensures Asked(s, at, key, value, func, uuid, react) == s
    ensures var error := Request(s.nodes[at].bus, s.nodes[at].endpoints, key, value, func, uuid, react).0.error;
            error == if key in s.nodes[at].bus.consumersLocal then None else Some(OutOfRange)
  {
    hide ReplyId;
    var node := s.nodes[at];
    var (outcome, endpoints) := Request(node.bus, node.endpoints, key, value, func, uuid, react);
    assert outcome.bus == node.bus && endpoints == node.endpoints && outcome.sent == None;
    assert s.nodes[at := node] == s.nodes;
    assert s.net + multiset{} == s.net;
  }

  lemma RequestPacketOk(at: ServerID, key: Str, id: Str, server: ServerID, value: Any)
    requires 27 + |id| + |key| + |at.host| <= BUFFER_SIZE
    ensures var p := RequestPacket(at, key, id, server, value);
            && FitsBuffer(p.sent) && !p.sent.reply.Text? && p.dest == server
            && p.sent.address == id && p.sent.replay == key && Target(p.sent) == at
  {
  }

  lemma AskKeeps(s: System, at: ServerID, key: Str, value: Any, func: nat, uuid: Str, react: Behaviour)
    requires Routed(s) && Replied(s) && Askable(s, at, key, uuid, react)
    ensures Routed(Asked(s, at, key, value, func, uuid, react)) && Replied(Asked(s, at, key, value, func, uuid, react))
  {
    hide Routed, Replied, Contains, Queued, ReplyId, Asked, NoEmptyQueue, AskedOwn, AskedRemote, RequestPacket,
         UserKey, Handles, Next, Request, FitsBuffer, Target, UsesSetters, SameQueues;
    var node, id := s.nodes[at], ReplyId(uuid);
    if key in node.bus.consumersLocal || key !in node.endpoints {
      AskedNothing(s, at, key, value, func, uuid, react);
    } else {
      RequestEffect(s, at, key, value, func, uuid, react);
      ReplyIdIsMarked(uuid);
      RotationKeepsQueues(node.endpoints, key);
      var (server, rotated) := Next(node.endpoints, key).value;
      if server == at {
        AskedOwnKeeps(s, at, key, func, id, rotated);
        AskedOwnRouted(s, at, key, func, id, rotated);
      } else {
        var p := RequestPacket(at, key, id, server, value);
        RequestPacketOk(at, key, id, server, value);
        AskedRemoteKeeps(s, at, key, func, id, rotated, p);
        AskedRemoteRouted(s, at, key, func, id, rotated, p);
      }
    }
  }

  lemma DeliverRequestKeeps(s: System, p: Packet, junk: Str, react: Behaviour)
    requires Routed(s) && Replied(s) && Deliverable(s, p) && PacketOk(s, p) && !IsReply(p)
    ensures Routed(Delivered(s, p, junk, react)) && Replied(Delivered(s, p, junk, react))
  {
    hide Routed, Replied, Delivered, Receive, PacketOk, IsReply, AnswerTo, FitsBuffer, Extends;
    var dropped := s.net - multiset{p};
    RequestDelivery(s, p, junk, react);
    DropKeeps(s, p);
    AnswerKeeps(s, p);
    RoutedSameNodes(s, s.(net := dropped));
    RoutedSameNodes(s, s.(net := dropped + multiset{AnswerTo(p)}));
  }

  lemma DeliverReplyKeeps(s: System, p: Packet, junk: Str, react: Behaviour)
    requires Routed(s) && Replied(s) && Deliverable(s, p) && IsReply(p)
    requires Id(p) in s.issued && s.issued[Id(p)].origin == p.dest && !Completed(s.done, Id(p))
    ensures Routed(Delivered(s, p, junk, react)) && Replied(Delivered(s, p, junk, react))
  {
    hide Routed, Replied, Delivered, Receive, PacketOk, IsReply, Id, Complete, FitsBuffer, Extends, Completed;
    var dropped := s.(net := s.net - multiset{p});
    ReplyDelivery(s, p, junk, react);
    DropKeeps(s, p);
    CompleteKeeps(dropped, p.dest, Id(p), s.issued[Id(p)].func);
    RoutedSameNodes(s, dropped);
    CompleteRouted(dropped, p.dest, Id(p), s.issued[Id(p)].func);
  }

  lemma InFlight(s: System, p: Packet)
    requires Replied(s) && p in s.net
    ensures PacketOk(s, p) && !Completed(s.done, Id(p))
    ensures Id(p) in s.issued && (IsReply(p) ==> s.issued[Id(p)].origin == p.dest)
  {
    assert InFlightOk(s, p);
  }

  lemma DeliverKeeps(s: System, p: Packet, junk: Str, react: Behaviour)
    requires Routed(s) && Replied(s) && Deliverable(s, p)
    ensures Routed(Delivered(s, p, junk, react)) && Replied(Delivered(s, p, junk, react))
  {
    hide Routed, Replied, Delivered, Receive, PacketOk, IsReply, Id, FitsBuffer, Completed;
    InFlight(s, p);
    if IsReply(p) {
      DeliverReplyKeeps(s, p, junk, react);
    } else {
      DeliverRequestKeeps(s, p, junk, react);
    }
  }

  lemma JoinExtends(s: System, info: NodeInfo, order: seq<Sub>)
    requires info.server !in s.nodes
    ensures Extends(s, SetNode(s, info.server, Joined(info, s.store, order)))
  {
  }

  predicate Quiet(step: Step) {
    step.Join? || step.Consume? || step.ConsumeLocal? || step.HandleAdded? || step.HandleRemoved? || step.Evict?
  }

  /** Joining, registering and handling events touch neither callbacks nor frames. */
  lemma QuietStep(s: System, step: Step)
    requires Enabled(s, step) && Quiet(step)
    ensures SameReplies(s, Apply(s, step))
  {
    hide Contains, NoEmptyQueue, UserKey, Lists, PutAll, PushAll, Put, Push, Rebuild, Remove, FitsBuffer;
  }

  lemma QuietStepKeepsRouting(s: System, step: Step)
    requires Routed(s) && Enabled(s, step) && Quiet(step)
    ensures Extends(s, Apply(s, step)) && Routed(Apply(s, step))
  {
    hide Routed, Extends, Contains, NoEmptyQueue, UserKey, Lists, PutAll, PushAll, Put, Push, Rebuild, Remove;
    match step {
      case Join(info, order) =>
        RoutedJoin(s, info, order);
        JoinExtends(s, info, order);
      case Consume(at, key, func) => RoutedConsume(s, at, key, func);
      case ConsumeLocal(at, key, func) =>
        RoutedSameConsumers(s, SetNode(s, at, s.nodes[at].(bus := AddLocalConsumer(s.nodes[at].bus, key, func))), at);
      case HandleAdded(at) => RoutedAdded(s, at);
      case HandleRemoved(at, order) => RoutedRemoved(s, at, order);
      case Evict(sub) => EvictKeepsRouting(s, sub);
    }
  }

  /** Drawing a UUID touches nothing but the record of them. */
  lemma DrawKeeps(s: System, uuid: Str)
    requires Routed(s) && Replied(s)
    ensures Routed(Draw(s, uuid)) && Replied(Draw(s, uuid))
  {
    var later := Draw(s, uuid);
    RoutedSameNodes(s, later);
    SameRepliesKeep(s, later);
  }

  lemma AskIsAskable(s: System, at: ServerID, key: Str, value: Any, func: nat, uuid: Str, react: Behaviour)
    requires Routed(s) && Replied(s) && Drawn(s) && Enabled(s, Ask(at, key, value, func, uuid, react))
    ensures Askable(Draw(s, uuid), at, key, uuid, react) && Routed(Draw(s, uuid)) && Replied(Draw(s, uuid))
  {
    hide Routed, Replied, UserKey, UsesSetters, NoEmptyQueue;
    FreshUuid(s, uuid);
    DrawKeeps(s, uuid);
  }

  lemma DeliveryIssuesNothing(s: System, p: Packet, junk: Str, react: Behaviour)
    requires Deliverable(s, p)
    ensures Delivered(s, p, junk, react).issued == s.issued && Delivered(s, p, junk, react).uuids == s.uuids
  {
    hide Receive, Print, FitsBuffer, Completions;
  }

  predicate SameIds(s: System, later: System) {
    later.issued == s.issued && later.uuids == s.uuids
  }

  lemma OthersIssueNothing(s: System, step: Step)
    requires Enabled(s, step) && !step.Ask?
    ensures SameIds(s, Apply(s, step))
  {
    hide Delivered, Consumed, AfterAdded, AfterRemoved, Contains, NoEmptyQueue, Lists, PutAll, PushAll, UserKey, UsesSetters;
    match step {
      case Deliver(packet, junk, react) => DeliveryIssuesNothing(s, packet, junk, react);
      case Consume(at, key, func) => ConsumeIssuesNothing(s, at, key, func);
      case HandleAdded(at) => AddedIssuesNothing(s, at);
      case HandleRemoved(at, order) => RemovedIssuesNothing(s, at, order);
      case _ =>
    }
  }

  lemma ConsumeIssuesNothing(s: System, at: ServerID, key: Str, func: nat)
    requires at in s.nodes
    ensures SameIds(s, Consumed(s, at, key, func))
  {
  }

  lemma AddedIssuesNothing(s: System, at: ServerID)
    requires NextEvent(s, at).Some? && NextEvent(s, at).value.Added?
    ensures SameIds(s, AfterAdded(s, at))
  {
  }

  lemma RemovedIssuesNothing(s: System, at: ServerID, order: seq<Sub>)
    requires NextEvent(s, at).Some? && NextEvent(s, at).value.Removed?
    ensures SameIds(s, AfterRemoved(s, at, order))
  {
  }

  lemma AskIssuesItsId(s: System, at: ServerID, key: Str, value: Any, func: nat, uuid: Str, react: Behaviour)
    requires at in s.nodes && NoEmptyQueue(s.nodes[at].endpoints)
    ensures var later := Asked(s, at, key, value, func, uuid, react);
            later.issued.Keys <= s.issued.Keys + {ReplyId(uuid)} && later.uuids == s.uuids
  {
    hide Request, ReplyId, NoEmptyQueue;
  }

  lemma StepKeepsDrawn(s: System, step: Step)
    requires Drawn(s) && Enabled(s, step)
    ensures Drawn(Apply(s, step))
  {
    hide Asked, ReplyId, UserKey, UsesSetters, NoEmptyQueue, Lists, Delivered, Deliverable;
    if step.Ask? {
      AskIssuesItsId(Draw(s, step.uuid), step.at, step.key, step.value, step.func, step.uuid, step.react);
      assert Ids(s.uuids + {step.uuid}) == Ids(s.uuids) + {ReplyId(step.uuid)};
    } else {
      OthersIssueNothing(s, step);
      hide Apply;
    }
  }

  lemma StepKeepsRouting(s: System, step: Step)
    requires Routed(s) && Replied(s) && Drawn(s) && Enabled(s, step)
    ensures Routed(Apply(s, step)) && Replied(Apply(s, step))
  {
    hide Routed, Replied, Drawn, Extends, SameReplies, Receive, UsesSetters, Lists, Asked, Delivered, Askable, Draw;
    match step {
      case Ask(at, key, value, func, uuid, react) =>
        AskIsAskable(s, at, key, value, func, uuid, react);
        AskKeeps(Draw(s, uuid), at, key, value, func, uuid, react);
      case Deliver(packet, junk, react) => DeliverKeeps(s, packet, junk, react);
      case Lose(packet) =>
        DropKeeps(s, packet);
        RoutedSameNodes(s, s.(net := s.net - multiset{packet}));
      case _ =>
        QuietStep(s, step);
        QuietStepKeepsRouting(s, step);
        SameRepliesKeep(s, Apply(s, step));
    }
  }

  // ---------------------------------------------------------------- every run

  lemma {:induction false} RunKeeps(s: System, steps: seq<Step>)
    requires Sound(s) && Legal(s, steps)
    ensures Sound(Run(s, steps))
    decreases |steps|
  {
    if steps != [] {
      StepKeepsIndex(s, steps[0]);
      StepKeepsRouting(s, steps[0]);
      StepKeepsDrawn(s, steps[0]);
      RunKeeps(Apply(s, steps[0]), steps[1..]);
    }
  }

  /** Every reachable state of every cluster is sound. */
  lemma EveryRun(steps: seq<Step>)
    requires Legal(INITIAL, steps)
    ensures Sound(Run(INITIAL, steps))
  {
    RunKeeps(INITIAL, steps);
  }

  /** No queue is ever empty, and every frame in flight was printed inside its buffer. */
  lemma NoQueueIsEverEmpty(steps: seq<Step>)
    requires Legal(INITIAL, steps)
    ensures var s := Run(INITIAL, steps);
            && (forall at | at in s.nodes :: NoEmptyQueue(s.nodes[at].endpoints))
            && (forall p | p in s.net :: FitsBuffer(p.sent))
  {
    EveryRun(steps);
    var s := Run(INITIAL, steps);
    hide Run, Legal, NoEmptyQueue, FitsBuffer, Follows, Heals, LogAgrees;
    forall at | at in s.nodes ensures NoEmptyQueue(s.nodes[at].endpoints) {
      assert NodeIndexed(s.store, s.nodes[at]);
    }
    forall p | p in s.net ensures FitsBuffer(p.sent) {
      assert InFlightOk(s, p);
    }
  }

  /** Convergence in every run: at a node with no remove event pending for the key, what is queued and
      what is still to be added is what the multimap names; with no event pending, the queue alone is. */
  lemma IndexConverges(steps: seq<Step>, at: ServerID, key: Str)
    requires Legal(INITIAL, steps) && at in Run(INITIAL, steps).nodes
    ensures var s := Run(INITIAL, steps);
            var node, log := s.nodes[at], s.store.log;
            && (!RemovePending(log, node.cursor, key) ==>
                  Queued(node.endpoints, key) + AddsPending(log, node.cursor, key) == ServersOf(s.store.entries, key))
            && (node.cursor >= |log| ==> Queued(node.endpoints, key) == ServersOf(s.store.entries, key))
  {
    EveryRun(steps);
    var s := Run(INITIAL, steps);
    hide Run, Legal;
    CursorsInside(s);
    if !RemovePending(s.store.log, s.nodes[at].cursor, key) {
      Convergence(s, at, key);
    }
  }

  /** Self-healing in every run: whatever was removed, once nothing more is removed, registered or joins and
      no event is left to handle, every node's queue names every consumer registered anywhere; and until
      then at most `Work` handlers run, with any requests, deliveries and losses in between. */
  lemma ClusterHeals(steps: seq<Step>, draining: seq<Step>, at: ServerID, owner: ServerID, sub: Sub, own: nat)
    requires Legal(INITIAL, steps) && Legal(Run(INITIAL, steps), draining)
    requires OwnsAtMost(Run(INITIAL, steps), own)
    requires forall i | 0 <= i < |draining| :: Draining(draining[i])
    requires forall step | Handling(step) :: !Enabled(Run(Run(INITIAL, steps), draining), step)
    requires var end := Run(Run(INITIAL, steps), draining);
             at in end.nodes && owner in end.nodes && sub in end.nodes[owner].localSubs
    ensures Handlers(draining) <= Work(Run(INITIAL, steps), own)
    ensures sub.node.server in Queued(Run(Run(INITIAL, steps), draining).nodes[at].endpoints, sub.key)
  {
    EveryRun(steps);
    DrainedIsComplete(Run(INITIAL, steps), draining, at, owner, sub, own);
  }

  /** A request for a key with `ping` in it never reaches its consumer, though the node that asked waits for it. */
  lemma PingRequestsAreLost(steps: seq<Step>, packet: Packet, junk: Str, react: Behaviour)
    requires Legal(INITIAL, steps) && Enabled(Run(INITIAL, steps), Deliver(packet, junk, react))
    requires !IsReply(packet) && Id(packet) in Run(INITIAL, steps).issued
    requires Contains(Run(INITIAL, steps).issued[Id(packet)].key, Ping())
    ensures var s := Run(INITIAL, steps);
            Delivered(s, packet, junk, react) == s.(net := s.net - multiset{packet})
  {
    EveryRun(steps);
    var s := Run(INITIAL, steps);
    assert InFlightOk(s, packet);
    PingIsDropped(s.nodes[packet.dest].bus, packet.sent, junk, react);
  }

  /** Routing safety, spelled out: in every reachable state, whoever the multimap, a pending event, a
      queue or a frame in flight names for a key has a consumer for it. */
  lemma NamedServersHaveConsumers(steps: seq<Step>)
    requires Legal(INITIAL, steps)
    ensures var s := Run(INITIAL, steps);
            && (forall sub | sub in s.store.entries :: Handles(s, sub.node.server, sub.key))
            && (forall i | 0 <= i < |s.store.log| && s.store.log[i].Added? ::
                  Handles(s, s.store.log[i].sub.node.server, s.store.log[i].sub.key))
            && (forall at, key, server | at in s.nodes && server in Queued(s.nodes[at].endpoints, key) ::
                  Handles(s, server, key))
            && (forall p | p in s.net && !IsReply(p) :: Handles(s, p.dest, p.sent.replay))
  {
    EveryRun(steps);
    var s := Run(INITIAL, steps);
    forall at, key, server | at in s.nodes && server in Queued(s.nodes[at].endpoints, key) ensures Handles(s, server, key) {
      assert NodeRouted(s, at, s.nodes[at]);
    }
    forall i | 0 <= i < |s.store.log| && s.store.log[i].Added?
      ensures Handles(s, s.store.log[i].sub.node.server, s.store.log[i].sub.key)
    {
      assert Named(s, s.store.log[i].sub);
    }
    forall p | p in s.net && !IsReply(p) ensures Handles(s, p.dest, p.sent.replay) {
      assert InFlightOk(s, p);
    }
  }

  /** No request and no delivery ever calls an empty function, and a request fails, by `at`, exactly
      when its node knows no server for the key. */
  lemma NothingIsCalledInVain(steps: seq<Step>, step: Step)
    requires Legal(INITIAL, steps) && Enabled(Run(INITIAL, steps), step)
    ensures var s := Run(INITIAL, steps);
            step.Deliver? ==>
              var r := Receive(s.nodes[step.packet.dest].bus, Print(step.packet.sent), step.junk, step.react);
              r.Handled? ==> r.outcome.error.None?
    ensures var s := Run(INITIAL, steps);
            step.Ask? ==>
              var node := s.nodes[step.at];
              var error := Request(node.bus, node.endpoints, step.key, step.value, step.func, step.uuid, step.react).0.error;
              error == if step.key !in node.bus.consumersLocal && step.key !in node.endpoints then Some(OutOfRange) else None
  {
    EveryRun(steps);
    var s := Run(INITIAL, steps);
    hide Run, Legal, Receive, Contains, Indexed;
    if step.Deliver? {
      assert InFlightOk(s, step.packet);
      if IsReply(step.packet) {
        ReplyDelivery(s, step.packet, step.junk, step.react);
      } else {
        RequestDelivery(s, step.packet, step.junk, step.react);
      }
    } else if step.Ask? {
      AskIsAskable(s, step.at, step.key, step.value, step.func, step.uuid, step.react);
      if step.key !in s.nodes[step.at].bus.consumersLocal && step.key in s.nodes[step.at].endpoints {
        RequestEffect(Draw(s, step.uuid), step.at, step.key, step.value, step.func, step.uuid, step.react);
      } else {
        AskedNothing(s, step.at, step.key, step.value, step.func, step.uuid, step.react);
      }
    }
  }

  /** Conservation end to end: a request in flight whose frame arrives, and then the frame of its answer,
      has exactly its own callback called and erased at its origin, and changes nothing else. */
  lemma RequestComesBack(s: System, p: Packet, junk: Str, junk': Str, react: Behaviour, react': Behaviour)
    requires Routed(s) && Replied(s) && p in s.net && !IsReply(p)
    ensures FitsBuffer(p.sent) && FitsBuffer(AnswerTo(p).sent) && Deliverable(s, p)
    ensures Id(p) in s.issued && s.issued[Id(p)].origin in s.nodes
    ensures Arrives(p.sent, junk) && Arrives(AnswerTo(p).sent, junk') ==>
              && Deliverable(Delivered(s, p, junk, react), AnswerTo(p))
              && Delivered(Delivered(s, p, junk, react), AnswerTo(p), junk', react')
                 == Complete(s.(net := s.net - multiset{p}), s.issued[Id(p)].origin, Id(p), s.issued[Id(p)].func)
  {
    hide Routed, Replied, PacketOk, IsReply, Id, FitsBuffer, Completed, Arrives, Delivered, AnswerTo, Complete;
    InFlight(s, p);
    AnswerGoesHome(s, p);
    RequestTurnsIntoAnswer(s, p, junk, react);
    if Arrives(p.sent, junk) && Arrives(AnswerTo(p).sent, junk') {
      var answer, dropped, mid := AnswerTo(p), s.net - multiset{p}, Delivered(s, p, junk, react);
      AnswerCompletes(mid, answer, junk', react');
      assert mid.net - multiset{answer} == dropped;
      assert mid.(net := dropped) == s.(net := dropped);
    }
  }

  lemma RequestTurnsIntoAnswer(s: System, p: Packet, junk: Str, react: Behaviour)
    requires Routed(s) && Replied(s) && p in s.net && !IsReply(p)
    ensures FitsBuffer(p.sent) && FitsBuffer(AnswerTo(p).sent) && Deliverable(s, p)
    ensures Arrives(p.sent, junk) ==>
              Delivered(s, p, junk, react) == s.(net := s.net - multiset{p} + multiset{AnswerTo(p)})
    ensures Routed(Delivered(s, p, junk, react)) && Replied(Delivered(s, p, junk, react))
  {
    InFlight(s, p);
    AnswerGoesHome(s, p);
    assert FitsBuffer(p.sent);
    hide Routed, Replied, PacketOk, IsReply, Id, FitsBuffer, Completed, Arrives, Delivered, AnswerTo;
    RequestDelivery(s, p, junk, react);
    DeliverRequestKeeps(s, p, junk, react);
  }

  lemma AnswerCompletes(s: System, p: Packet, junk: Str, react: Behaviour)
    requires Routed(s) && Replied(s) && p in s.net && IsReply(p) && p.dest in s.nodes && FitsBuffer(p.sent)
    ensures Id(p) in s.issued && Deliverable(s, p)
    ensures Arrives(p.sent, junk) ==>
              Delivered(s, p, junk, react) ==
              Complete(s.(net := s.net - multiset{p}), p.dest, Id(p), s.issued[Id(p)].func)
  {
    hide Routed, Replied, IsReply, Id, FitsBuffer, Arrives, Delivered, Complete;
    ReplyDelivery(s, p, junk, react);
  }

  lemma AnswerGoesHome(s: System, p: Packet)
    requires Replied(s) && PacketOk(s, p) && !IsReply(p)
    ensures var answer := AnswerTo(p);
            && IsReply(answer) && Id(answer) == Id(p) && answer.dest == s.issued[Id(p)].origin
            && p.dest in s.nodes && answer.dest in s.nodes
  {
    assert IssueOk(s, Id(p));
  }

  /** In every run, a request through the index whose two frames arrive ends exactly as one that its own node
      serves: issued, its callback called once, nothing left registered or in flight. */
  lemma RemoteRequestsEndLikeOwnOnes(steps: seq<Step>, ask: Step, junk: Str, junk': Str,
                                     react: Behaviour, react': Behaviour)
    requires Legal(INITIAL, steps) && ask.Ask? && Enabled(Run(INITIAL, steps), ask)
    requires var node := Run(INITIAL, steps).nodes[ask.at];
             ask.key !in node.bus.consumersLocal && ask.key in node.endpoints
    ensures var s, id := Draw(Run(INITIAL, steps), ask.uuid), ReplyId(ask.uuid);
            var (server, rotated) := Next(s.nodes[ask.at].endpoints, ask.key).value;
            var p, asked := RequestPacket(ask.at, ask.key, id, server, ask.value), Apply(Run(INITIAL, steps), ask);
            var ended := AskedOwn(s, ask.at, ask.key, ask.func, id, rotated);
            && id !in s.issued && asked.issued == s.issued[id := Issue(ask.at, ask.key, ask.func)]
            && FitsBuffer(p.sent) && FitsBuffer(AnswerTo(p).sent)
            && (server == ask.at ==> asked == ended)
            && (server != ask.at ==>
                  id in asked.nodes[ask.at].bus.publishers && asked.nodes[ask.at].bus.publishers[id] == Some(ask.func)
                  && asked.net == s.net + multiset{p})
            && (server != ask.at && Arrives(p.sent, junk) && Arrives(AnswerTo(p).sent, junk') ==>
                  && Deliverable(asked, p) && Deliverable(Delivered(asked, p, junk, react), AnswerTo(p))
                  && Delivered(Delivered(asked, p, junk, react), AnswerTo(p), junk', react') == ended)
  {
    EveryRun(steps);
    var s, id := Draw(Run(INITIAL, steps), ask.uuid), ReplyId(ask.uuid);
    var (server, rotated) := Next(s.nodes[ask.at].endpoints, ask.key).value;
    var p := RequestPacket(ask.at, ask.key, id, server, ask.value);
    RequestPacketOk(ask.at, ask.key, id, server, ask.value);
    assert FitsBuffer(AnswerTo(p).sent);
    AskIsAskable(Run(INITIAL, steps), ask.at, ask.key, ask.value, ask.func, ask.uuid, ask.react);
    AskEnds(s, ask, junk, junk', react, react');
  }

  /** The same in any sound state that has drawn the UUID. */
  lemma AskEnds(s: System, ask: Step, junk: Str, junk': Str, react: Behaviour, react': Behaviour)
    requires Routed(s) && Replied(s) && ask.Ask? && Askable(s, ask.at, ask.key, ask.uuid, ask.react)
    requires ask.key !in s.nodes[ask.at].bus.consumersLocal && ask.key in s.nodes[ask.at].endpoints
    ensures var id := ReplyId(ask.uuid);
            var (server, rotated) := Next(s.nodes[ask.at].endpoints, ask.key).value;
            var p := RequestPacket(ask.at, ask.key, id, server, ask.value);
            var asked := Asked(s, ask.at, ask.key, ask.value, ask.func, ask.uuid, ask.react);
            var ended := AskedOwn(s, ask.at, ask.key, ask.func, id, rotated);
            && id !in s.issued && asked.issued == s.issued[id := Issue(ask.at, ask.key, ask.func)]
            && (server == ask.at ==> asked == ended)
            && (server != ask.at ==>
                  id in asked.nodes[ask.at].bus.publishers && asked.nodes[ask.at].bus.publishers[id] == Some(ask.func)
                  && asked.net == s.net + multiset{p})
            && (server != ask.at && FitsBuffer(p.sent) && FitsBuffer(AnswerTo(p).sent)
                && Arrives(p.sent, junk) && Arrives(AnswerTo(p).sent, junk') ==>
                  && Deliverable(asked, p) && Deliverable(Delivered(asked, p, junk, react), AnswerTo(p))
                  && Delivered(Delivered(asked, p, junk, react), AnswerTo(p), junk', react') == ended)
  {
    hide Routed, Replied, Contains, Queued, ReplyId, Asked, RequestPacket, Delivered, Complete,
         UserKey, Handles, Next, Request, FitsBuffer, Target, UsesSetters, Arrives, AnswerTo, IsReply, Id, Deliverable;
    var at, key, func, id := ask.at, ask.key, ask.func, ReplyId(ask.uuid);
    RotationKeepsQueues(s.nodes[at].endpoints, key);
    RequestEffect(s, at, key, ask.value, func, ask.uuid, ask.react);
    FreshId(s, id);
    var (server, rotated) := Next(s.nodes[at].endpoints, key).value;
    if server != at {
      var p := RequestPacket(at, key, id, server, ask.value);
      var asked := Asked(s, at, key, ask.value, func, ask.uuid, ask.react);
      AskKeeps(s, at, key, ask.value, func, ask.uuid, ask.react);
      RequestPacketOk(at, key, id, server, ask.value);
      AskedIsInFlight(s, at, key, func, id, rotated, p);
      hide AskedOwn, AskedRemote;
      if FitsBuffer(AnswerTo(p).sent) && Arrives(p.sent, junk) && Arrives(AnswerTo(p).sent, junk') {
        RequestComesBack(asked, p, junk, junk', react, react');
      }
    }
  }

  /** What completing a request just put in flight leaves. */
  lemma AskedIsInFlight(s: System, at: ServerID, key: Str, func: nat, id: Str, rotated: Endpoints, p: Packet)
    requires Replied(s) && at in s.nodes && id !in s.issued && UserKey(key)
    requires p.sent.address == id && p.sent.replay == key
    ensures var asked := AskedRemote(s, at, key, func, id, rotated, p);
            && p in asked.net && !IsReply(p) && Id(p) == id && asked.issued[id] == Issue(at, key, func)
            && at in asked.nodes
            && Complete(asked.(net := asked.net - multiset{p}), at, id, func) == AskedOwn(s, at, key, func, id, rotated)
  {
    FreshId(s, id);
    OwnIsRegisterThenComplete(s, at, key, func, id, rotated);
    hide Replied;
    var asked := AskedRemote(s, at, key, func, id, rotated, p);
    assert s.net + multiset{p} - multiset{p} == s.net;
    assert asked.(net := asked.net - multiset{p}) == Register(s, at, key, func, id, rotated);
  }

  /** How often the callback of a request has been called. */
  function TimesCalled(done: seq<Done>, id: Str): nat {
    if done == [] then 0 else (if done[0].id == id then 1 else 0) + TimesCalled(done[1..], id)
  }

  lemma {:induction false} DistinctMeansOnce(done: seq<Done>, id: Str)
    requires forall i, j | 0 <= i < j < |done| :: done[i].id != done[j].id
    ensures TimesCalled(done, id) == if Completed(done, id) then 1 else 0
  {
    if done != [] {
      DistinctMeansOnce(done[1..], id);
      if Completed(done[1..], id) {
        var i :| 0 <= i < |done[1..]| && done[1..][i].id == id;
        assert done[i + 1].id == id;
      }
      if Completed(done, id) && done[0].id != id {
        var i :| 0 <= i < |done| && done[i].id == id;
        assert done[1..][i - 1].id == id;
      }
    }
  }

  /** At most once, and conservation: an issued request is registered at its origin and its callback
      has not been called, or it is registered nowhere, has no frame in flight, and its own callback
      has been called once, at its origin. In flight there is at most one frame of it, the request or
      the answer, and an answer is on its way to the origin. */
  lemma AtMostOnce(steps: seq<Step>, id: Str)
    requires Legal(INITIAL, steps) && id in Run(INITIAL, steps).issued
    ensures var s := Run(INITIAL, steps);
            var issue := s.issued[id];
            && issue.origin in s.nodes
            && (forall at | at in s.nodes && id in s.nodes[at].bus.publishers :: at == issue.origin)
            && (forall i | 0 <= i < |s.done| && s.done[i].id == id :: s.done[i] == Done(issue.origin, id, issue.func))
            && (forall p | p in s.net && Id(p) == id :: s.net[p] == 1 && (IsReply(p) ==> p.dest == issue.origin))
            && (forall p, q | p in s.net && q in s.net && Id(p) == id && Id(q) == id :: p == q)
            && if id in s.nodes[issue.origin].bus.publishers
               then TimesCalled(s.done, id) == 0 && s.nodes[issue.origin].bus.publishers[id] == Some(issue.func)
               else TimesCalled(s.done, id) == 1 && forall p | p in s.net :: Id(p) != id
  {
    EveryRun(steps);
    var s := Run(INITIAL, steps);
    assert IssueOk(s, id);
    DistinctMeansOnce(s.done, id);
    forall p | p in s.net && Id(p) == id ensures !Completed(s.done, id) && (IsReply(p) ==> p.dest == s.issued[id].origin) {
      assert InFlightOk(s, p);
    }
  }
}
