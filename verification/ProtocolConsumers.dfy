/** Which function is called: the one that the node registered first for the address, in every run. */
module ProtocolConsumers {
  import opened Bytes
  import opened Wrappers
  import opened Codec
  import opened Cluster
  import opened EventBus
  import opened Protocol
  import opened ProtocolIndex
  import opened ProtocolDrain
  import opened ProtocolRouting
  import opened ProtocolReplies
  import opened ProtocolRuns

  /** The function of the first step that registers a consumer of the key at the node. */
  function FirstConsumer(steps: seq<Step>, at: ServerID, key: Str): Option<nat>
    decreases |steps|
  {
    if steps == [] then None
    else match steps[0]
      case Consume(at', key', func) =>
        if at' == at && key' == key then Some(func) else FirstConsumer(steps[1..], at, key)
      case _ => FirstConsumer(steps[1..], at, key)
  }

  /** The consumer a node has for a key. */
  function Known(s: System, at: ServerID, key: Str): Option<nat> {
    if at in s.nodes then Lookup(s.nodes[at].bus.consumers, key) else None
  }

  // ---------------------------------------------------------------- every step

  ghost predicate SameConsumers(s: System, later: System) {
    later.nodes.Keys == s.nodes.Keys
    && forall at | at in s.nodes ::
         && later.nodes[at].bus.consumers == s.nodes[at].bus.consumers
         && later.nodes[at].localSubs == s.nodes[at].localSubs
         && later.nodes[at].info == s.nodes[at].info
  }

  lemma AskSameConsumers(s: System, at: ServerID, key: Str, value: Any, func: nat, uuid: Str, react: Behaviour)
    requires Routed(s) && Replied(s) && Askable(s, at, key, uuid, react)
    ensures SameConsumers(s, Asked(s, at, key, value, func, uuid, react))
  {
    hide Routed, Replied, UserKey, UsesSetters, NoEmptyQueue, Asked, Next, Handles, Request, ReplyId, RequestPacket;
    if key in s.nodes[at].bus.consumersLocal || key !in s.nodes[at].endpoints {
      AskedNothing(s, at, key, value, func, uuid, react);
    } else {
      RotationKeepsQueues(s.nodes[at].endpoints, key);
      RequestEffect(s, at, key, value, func, uuid, react);
    }
  }

  lemma CompleteSameConsumers(s: System, net: multiset<Packet>, at: ServerID, id: Str, func: nat)
    requires at in s.nodes
    ensures SameConsumers(s, Complete(s.(net := net), at, id, func))
  {
  }

  lemma NetSameConsumers(s: System, net: multiset<Packet>)
    ensures SameConsumers(s, s.(net := net))
  {
  }

  lemma DeliverSameConsumers(s: System, p: Packet, junk: Str, react: Behaviour)
    requires Routed(s) && Replied(s) && Deliverable(s, p)
    ensures SameConsumers(s, Delivered(s, p, junk, react))
  {
    InFlight(s, p);
    var dropped := s.net - multiset{p};
    NetSameConsumers(s, dropped);
    NetSameConsumers(s, dropped + multiset{AnswerTo(p)});
    CompleteSameConsumers(s, dropped, p.dest, Id(p), s.issued[Id(p)].func);
    hide Routed, Replied, PacketOk, IsReply, Id, FitsBuffer, Delivered, Receive, Arrives, AnswerTo, Completed, Complete,
         SameConsumers;
    if IsReply(p) {
      ReplyDelivery(s, p, junk, react);
    } else {
      RequestDelivery(s, p, junk, react);
    }
  }

  /** The consumers and own subscriptions of a node after a step. */
  ghost predicate NodeRegisters(at: ServerID, step: Step, node: Node, later: Node) {
    && later.info == node.info
    && if step.Consume? && step.at == at then
         && later.bus.consumers == AddConsumer(node.bus, step.key, step.func).consumers
         && later.localSubs == node.localSubs + [Sub(step.key, node.info)]
       else
         later.bus.consumers == node.bus.consumers && later.localSubs == node.localSubs
  }

  ghost predicate Registers(s: System, step: Step, later: System) {
    && (forall at | at in s.nodes :: at in later.nodes && NodeRegisters(at, step, s.nodes[at], later.nodes[at]))
    && (forall at | at in later.nodes && at !in s.nodes :: later.nodes[at].bus.consumers == map[])
  }

  lemma QuietRegisters(s: System, step: Step)
    requires Enabled(s, step) && !step.Ask? && !step.Deliver?
    ensures Registers(s, step, Apply(s, step))
  {
    hide NoEmptyQueue, Lists, PutAll, PushAll, Put, Push, Rebuild, Remove, UserKey, Contains, FitsBuffer;
  }

  /** A step registers at most the consumer it names, at the node it names. */
  lemma StepRegisters(s: System, step: Step)
    requires Sound(s) && Enabled(s, step)
    ensures Registers(s, step, Apply(s, step))
  {
    hide Routed, Replied, Drawn, Indexed, Registers, SameConsumers, Asked, Delivered, Askable, Lists, UsesSetters, UserKey;
    match step {
      case Ask(n, k, value, func, uuid, react) =>
        AskIsAskable(s, n, k, value, func, uuid, react);
        AskSameConsumers(Draw(s, uuid), n, k, value, func, uuid, react);
        SameRegisters(s, Draw(s, uuid), step, Apply(s, step));
      case Deliver(p, junk, react) =>
        DeliverSameConsumers(s, p, junk, react);
        SameRegisters(s, s, step, Apply(s, step));
      case _ =>
        QuietRegisters(s, step);
    }
  }

  lemma SameRegisters(s: System, drawn: System, step: Step, later: System)
    requires drawn.nodes == s.nodes && SameConsumers(drawn, later) && !step.Consume?
    ensures Registers(s, step, later)
  {
  }

  lemma StepConsumers(s: System, step: Step, at: ServerID, key: Str)
    requires Sound(s) && Enabled(s, step)
    ensures Known(Apply(s, step), at, key) ==
            if Known(s, at, key).Some? then Known(s, at, key)
            else if step.Consume? && step.at == at && step.key == key then Some(step.func) else None
  {
    StepRegisters(s, step);
    if at in s.nodes {
      NodeIsItself(s, at);
    }
    assert step.Consume? ==> step.at in s.nodes;
    hide Sound, Apply, Enabled;
  }

  /** Own subscriptions grow by those the node registers, under its own name. */
  lemma StepSubs(s: System, step: Step, at: ServerID, sub: Sub)
    requires Sound(s) && Enabled(s, step) && at in s.nodes && sub.node == s.nodes[at].info
    ensures at in Apply(s, step).nodes && Apply(s, step).nodes[at].info == sub.node
    ensures sub in s.nodes[at].localSubs || (step.Consume? && step.at == at && step.key == sub.key) ==>
              sub in Apply(s, step).nodes[at].localSubs
  {
    StepRegisters(s, step);
    hide Sound, Apply, Enabled;
    assert NodeRegisters(at, step, s.nodes[at], Apply(s, step).nodes[at]);
    assert sub == Sub(sub.key, s.nodes[at].info);
  }

  // ---------------------------------------------------------------- every run

  lemma StepKeepsSound(s: System, step: Step)
    requires Sound(s) && Enabled(s, step)
    ensures Sound(Apply(s, step))
  {
    StepKeepsIndex(s, step);
    StepKeepsRouting(s, step);
    StepKeepsDrawn(s, step);
    hide Indexed, Routed, Replied, Drawn, Apply, Enabled;
  }

  lemma {:induction false} RunConsumers(s: System, steps: seq<Step>, at: ServerID, key: Str)
    requires Sound(s) && Legal(s, steps)
    ensures Known(Run(s, steps), at, key) ==
            if Known(s, at, key).Some? then Known(s, at, key) else FirstConsumer(steps, at, key)
    decreases |steps|
  {
    hide Sound, Apply, Enabled, Known;
    if steps != [] {
      StepKeepsSound(s, steps[0]);
      StepConsumers(s, steps[0], at, key);
      RunConsumers(Apply(s, steps[0]), steps[1..], at, key);
    }
  }

  /** In every run a node has for a key the function that it registered first, and no other. */
  lemma FirstRegisteredIsKnown(steps: seq<Step>, at: ServerID, key: Str)
    requires Legal(INITIAL, steps)
    ensures Known(Run(INITIAL, steps), at, key) == FirstConsumer(steps, at, key)
  {
    RunConsumers(INITIAL, steps, at, key);
  }

  lemma {:induction false} RunSubs(s: System, steps: seq<Step>, at: ServerID, sub: Sub)
    requires Sound(s) && Legal(s, steps) && at in s.nodes && sub.node == s.nodes[at].info
    requires sub in s.nodes[at].localSubs || FirstConsumer(steps, at, sub.key).Some?
    ensures at in Run(s, steps).nodes && sub in Run(s, steps).nodes[at].localSubs
    decreases |steps|
  {
    hide Sound, Apply, Enabled;
    if steps != [] {
      StepKeepsSound(s, steps[0]);
      StepSubs(s, steps[0], at, sub);
      RunSubs(Apply(s, steps[0]), steps[1..], at, sub);
    }
  }

  /** A node that registers is there, and stays. */
  lemma {:induction false} RegisteringNodes(s: System, steps: seq<Step>, at: ServerID, key: Str)
    returns (sub: Sub)
    requires Sound(s) && Legal(s, steps) && FirstConsumer(steps, at, key).Some?
    ensures at in Run(s, steps).nodes && sub in Run(s, steps).nodes[at].localSubs
    ensures sub.key == key && sub.node.server == at
    decreases |steps|
  {
    hide Sound, Apply;
    var step := steps[0];
    if step.Consume? && step.at == at && step.key == key {
      sub := Sub(key, s.nodes[at].info);
      NodeHasItsInfo(s, at);
      RunSubs(s, steps, at, sub);
    } else {
      StepKeepsSound(s, step);
      sub := RegisteringNodes(Apply(s, step), steps[1..], at, key);
    }
  }

  lemma NodeHasItsInfo(s: System, at: ServerID)
    requires Sound(s) && at in s.nodes
    ensures s.nodes[at].info.server == at
  {
    assert NodeRouted(s, at, s.nodes[at]);
  }

  lemma {:induction false} DrainingRegistersNothing(steps: seq<Step>, at: ServerID, key: Str)
    requires forall i | 0 <= i < |steps| :: Draining(steps[i])
    ensures FirstConsumer(steps, at, key) == None
    decreases |steps|
  {
    if steps != [] {
      assert Draining(steps[0]);
      DrainingRegistersNothing(steps[1..], at, key);
    }
  }

  /** Main result: after any run with any removals, once the pending events are handled, the queue of every node
      for a key names exactly the nodes that registered a consumer of the key in the run. */
  lemma QueuesNameWhoRegistered(steps: seq<Step>, draining: seq<Step>, at: ServerID, key: Str, server: ServerID, own: nat)
    requires Legal(INITIAL, steps) && Legal(Run(INITIAL, steps), draining)
    requires OwnsAtMost(Run(INITIAL, steps), own)
    requires forall i | 0 <= i < |draining| :: Draining(draining[i])
    requires forall step | Handling(step) :: !Enabled(Run(Run(INITIAL, steps), draining), step)
    requires at in Run(Run(INITIAL, steps), draining).nodes
    ensures server in Queued(Run(Run(INITIAL, steps), draining).nodes[at].endpoints, key)
            <==> FirstConsumer(steps, server, key).Some?
  {
    var mid, end := Run(INITIAL, steps), Run(Run(INITIAL, steps), draining);
    EveryRun(steps);
    hide Sound, Run, Legal, Apply, Enabled, Known, Queued, Draining, Handling, OwnsAtMost;
    RunKeeps(mid, draining);
    FirstRegisteredIsKnown(steps, server, key);
    RunConsumers(mid, draining, server, key);
    DrainingRegistersNothing(draining, server, key);
    if FirstConsumer(steps, server, key).Some? {
      RegisteredIsQueued(steps, draining, at, key, server, own);
    }
    if server in Queued(end.nodes[at].endpoints, key) {
      QueuedIsKnown(end, at, key, server);
    }
  }

  lemma RegisteredIsQueued(steps: seq<Step>, draining: seq<Step>, at: ServerID, key: Str, server: ServerID, own: nat)
    requires Legal(INITIAL, steps) && Legal(Run(INITIAL, steps), draining)
    requires OwnsAtMost(Run(INITIAL, steps), own)
    requires forall i | 0 <= i < |draining| :: Draining(draining[i])
    requires forall step | Handling(step) :: !Enabled(Run(Run(INITIAL, steps), draining), step)
    requires at in Run(Run(INITIAL, steps), draining).nodes && FirstConsumer(steps, server, key).Some?
    ensures server in Queued(Run(Run(INITIAL, steps), draining).nodes[at].endpoints, key)
  {
    hide *;
    EveryRun(steps);
    InitialIsSound();
    SoundIsIndexed(Run(INITIAL, steps));
    var sub := RegisteringNodes(INITIAL, steps, server, key);
    KeepsSubs(Run(INITIAL, steps), draining, server, sub);
    DrainedIsComplete(Run(INITIAL, steps), draining, at, server, sub, own);
  }

  lemma InitialIsSound()
    ensures Sound(INITIAL)
  {
  }

  lemma SoundIsIndexed(s: System)
    requires Sound(s)
    ensures Indexed(s)
  {
  }

  lemma KeepsSubs(s: System, steps: seq<Step>, at: ServerID, sub: Sub)
    requires Sound(s) && Legal(s, steps) && at in s.nodes && sub in s.nodes[at].localSubs
    ensures at in Run(s, steps).nodes && sub in Run(s, steps).nodes[at].localSubs
  {
    assert NodeRouted(s, at, s.nodes[at]);
    RunSubs(s, steps, at, sub);
  }

  lemma QueuedIsKnown(s: System, at: ServerID, key: Str, server: ServerID)
    requires Sound(s) && at in s.nodes && server in Queued(s.nodes[at].endpoints, key)
    ensures Known(s, server, key).Some?
  {
    assert NodeRouted(s, at, s.nodes[at]);
  }

  // ---------------------------------------------------------------- what is called

  /** Main result: in every run, a request of another node that arrives calls the function that the node
      registered first for its address, with the body that was read, and no other function. */
  lemma DeliveriesCallTheFirstRegistered(steps: seq<Step>, p: Packet, junk: Str, react: Behaviour)
    requires Legal(INITIAL, steps) && Enabled(Run(INITIAL, steps), Deliver(p, junk, react)) && !IsReply(p)
    ensures var first := FirstConsumer(steps, p.dest, p.sent.replay);
            var r := Receive(Run(INITIAL, steps).nodes[p.dest].bus, Print(p.sent), junk, react);
            && first.Some?
            && (r.Handled? <==> Arrives(p.sent, junk))
            && (r.Handled? ==>
                  && r.outcome.calls == [ConsumerCall(first.value, Hop(p.sent, BodyAt(junk)))]
                  && r.outcome.calls[0].message.body == Text(BodyAt(junk))
                  && r.outcome.calls[0].message.address == p.sent.replay)
  {
    EveryRun(steps);
    var s := Run(INITIAL, steps);
    FirstRegisteredIsKnown(steps, p.dest, p.sent.replay);
    hide Run, Legal;
    InFlight(s, p);
    var first := FirstConsumer(steps, p.dest, p.sent.replay).value;
    RequestIsServedExactly(s.nodes[p.dest].bus, p.sent, junk, react, first);
    ReceivedMessage(s.nodes[p.dest].bus, p.sent, junk, react);
    hide Receive, Contains, Print, FitsBuffer, StrAt, Sound, Process;
  }

  /** In every run, a request that its own node serves calls that node's first registered function with the
      value, and then the requester's function with the reply. */
  lemma OwnRequestsCallTheFirstRegistered(steps: seq<Step>, ask: Step) returns (seen: Message, answered: Message)
    requires Legal(INITIAL, steps) && ask.Ask? && Enabled(Run(INITIAL, steps), ask)
    requires var node := Run(INITIAL, steps).nodes[ask.at];
             && ask.key !in node.bus.consumersLocal && ask.key in node.endpoints
             && node.endpoints[ask.key][0] == ask.at
    ensures var node, first := Run(INITIAL, steps).nodes[ask.at], FirstConsumer(steps, ask.at, ask.key);
            && first.Some?
            && Request(node.bus, node.endpoints, ask.key, ask.value, ask.func, ask.uuid, ask.react).0.calls
               == [ConsumerCall(first.value, seen), ReplyCall(ask.func, answered)]
            && seen.body == ask.value && seen.replay == ask.key
            && answered.body == ask.react(first.value, seen).reply
  {
    EveryRun(steps);
    var s := Run(INITIAL, steps);
    FirstRegisteredIsKnown(steps, ask.at, ask.key);
    AskIsAskable(s, ask.at, ask.key, ask.value, ask.func, ask.uuid, ask.react);
    hide Run, Legal, Sound;
    var node := s.nodes[ask.at];
    assert ask.at in Queued(node.endpoints, ask.key);
    QueuedIsKnown(s, ask.at, ask.key, ask.at);
    NodeIsItself(s, ask.at);
    UnregisteredId(s, ask.at, ReplyId(ask.uuid));
    seen, answered := OwnNodeRequest(node.bus, node.endpoints, ask.key, ask.value, ask.func, ask.uuid, ask.react,
                                     FirstConsumer(steps, ask.at, ask.key).value);
  }

  lemma UnregisteredId(s: System, at: ServerID, id: Str)
    requires Sound(s) && at in s.nodes && id !in s.issued
    ensures id !in s.nodes[at].bus.publishers
  {
    FreshId(s, id);
  }
}
