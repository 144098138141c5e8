/** Any number of nodes, the shared multimap, and the frames in flight, as one step system.
    Each handler of src/vertx/hazelcast_cluster.cpp and src/vertx/event_bus_hazeclast.hpp is one atomic step. */
module Protocol {
  import opened Bytes
  import opened Wrappers
  import opened Codec
  import opened Cluster
  import opened EventBus

  /** A node: its bus, its index, and how much of the multimap's log it has handled. All nodes
      receive the same events in change order, so what is pending at a node is `log[cursor..]`. */
  datatype Node = Node(info: NodeInfo, bus: Bus, endpoints: Endpoints, localSubs: seq<Sub>, cursor: nat)

  /** History of a request that was given an id: who asked for what, with which callback. */
  datatype Issue = Issue(origin: ServerID, key: Str, func: nat)

  /** History of a call of a registered callback. */
  datatype Done = Done(at: ServerID, id: Str, func: nat)

  datatype System = System(
    nodes: map<ServerID, Node>,
    store: Store,
    net: multiset<Packet>,
    issued: map<Str, Issue>,
    done: seq<Done>,
    uuids: set<Str>)

  const INITIAL := System(map[], Store({}, []), multiset{}, map[], [], {})

  datatype Step =
    | Join(info: NodeInfo, order: seq<Sub>)
    | Consume(at: ServerID, key: Str, func: nat)
    | ConsumeLocal(at: ServerID, key: Str, func: nat)
    | Ask(at: ServerID, key: Str, value: Any, func: nat, uuid: Str, react: Behaviour)
    | Deliver(packet: Packet, junk: Str, react: Behaviour)
    | Lose(packet: Packet)
    | HandleAdded(at: ServerID)
    | HandleRemoved(at: ServerID, order: seq<Sub>)
    | Evict(sub: Sub)

  /** The addresses users may choose. */
  predicate UserKey(key: Str) {
    !Contains(key, ReplyMark())
  }

  function NextEvent(s: System, at: ServerID): Option<Event> {
    if at in s.nodes && s.nodes[at].cursor < |s.store.log| then Some(s.store.log[s.nodes[at].cursor]) else None
  }

  /** A frame for a node that is not there can only be lost. That frames in flight fit the printer's
      buffer is an invariant of every run, and so is that no queue is empty. */
  predicate Deliverable(s: System, packet: Packet) {
    packet in s.net && packet.dest in s.nodes && FitsBuffer(packet.sent)
  }

  /** What may happen next. Server ids are fresh, and UUIDs have not been
      drawn before; a request's frames fit the printer's buffer. */
  ghost predicate Enabled(s: System, step: Step) {
    match step
    case Join(info, order) => info.server !in s.nodes && Lists(order, s.store.entries)
    case Consume(at, key, _) => at in s.nodes && UserKey(key)
    case ConsumeLocal(at, _, _) => at in s.nodes
    case Ask(at, key, _, _, uuid, react) =>
      && at in s.nodes && UserKey(key) && UsesSetters(react)
      && uuid !in s.uuids
      && 27 + |ReplyId(uuid)| + |key| + |at.host| <= BUFFER_SIZE
      && NoEmptyQueue(s.nodes[at].endpoints)
    case Deliver(packet, _, react) => Deliverable(s, packet) && UsesSetters(react)
    case Lose(packet) => packet in s.net
    case HandleAdded(at) => NextEvent(s, at).Some? && NextEvent(s, at).value.Added?
    case HandleRemoved(at, order) =>
      && NextEvent(s, at).Some? && NextEvent(s, at).value.Removed?
      && Lists(order, Under(s.store.entries, NextEvent(s, at).value.key))
    case Evict(sub) => sub in s.store.entries
  }

  function SetNode(s: System, at: ServerID, node: Node): System {
    s.(nodes := s.nodes[at := node])
  }

  function Joined(info: NodeInfo, store: Store, order: seq<Sub>): Node {
    Node(info, Bus(info.server, map[], map[], map[]), PushAll(map[], order), [], |store.log|)
  }

  function Consumed(s: System, at: ServerID, key: Str, func: nat): System
    requires at in s.nodes
  {
    var node := s.nodes[at];
    var sub := Sub(key, node.info);
    SetNode(s, at, node.(bus := AddConsumer(node.bus, key, func), localSubs := node.localSubs + [sub]))
      .(store := Put(s.store, sub))
  }

  function Sent(packet: Option<Packet>): multiset<Packet> {
    match packet
    case None => multiset{}
    case Some(p) => multiset{p}
  }

  /** The callbacks an outcome has called, by the id of their request. */
  function Completions(at: ServerID, calls: seq<UserCall>): seq<Done>
    decreases |calls|
  {
    if calls == [] then []
    else (if calls[0].ReplyCall? then [Done(at, calls[0].message.address, calls[0].func)] else [])
         + Completions(at, calls[1..])
  }

  function Draw(s: System, uuid: Str): System {
    s.(uuids := s.uuids + {uuid})
  }

  /** A local request, and one that throws for want of a server, are not given an id. */
  function Asked(s: System, at: ServerID, key: Str, value: Any, func: nat, uuid: Str, react: Behaviour): System
    requires at in s.nodes && NoEmptyQueue(s.nodes[at].endpoints)
  {
    var node := s.nodes[at];
    var (outcome, endpoints) := Request(node.bus, node.endpoints, key, value, func, uuid, react);
    var later := SetNode(s, at, node.(bus := outcome.bus, endpoints := endpoints)).(net := s.net + Sent(outcome.sent));
    if key in node.bus.consumersLocal || key !in node.endpoints then later
    else later.(issued := s.issued[ReplyId(uuid) := Issue(at, key, func)],
                done := s.done + Completions(at, outcome.calls))
  }

  /** A frame with `ping` in it is answered and dropped; so is one that the parser overruns. */
  function Delivered(s: System, packet: Packet, junk: Str, react: Behaviour): System
    requires Deliverable(s, packet)
  {
    var node := s.nodes[packet.dest];
    match Receive(node.bus, Print(packet.sent), junk, react)
    case Handled(outcome) =>
      SetNode(s, packet.dest, node.(bus := outcome.bus))
        .(net := s.net - multiset{packet} + Sent(outcome.sent),
          done := s.done + Completions(packet.dest, outcome.calls))
    case _ => s.(net := s.net - multiset{packet})
  }

  function AfterAdded(s: System, at: ServerID): System
    requires NextEvent(s, at).Some? && NextEvent(s, at).value.Added?
  {
    var node := s.nodes[at];
    SetNode(s, at, node.(endpoints := Push(node.endpoints, NextEvent(s, at).value.sub), cursor := node.cursor + 1))
  }

  function AfterRemoved(s: System, at: ServerID, order: seq<Sub>): System
    requires NextEvent(s, at).Some? && NextEvent(s, at).value.Removed?
  {
    var node := s.nodes[at];
    SetNode(s, at, node.(endpoints := Rebuild(node.endpoints, NextEvent(s, at).value.key, order),
                         cursor := node.cursor + 1))
      .(store := PutAll(s.store, node.localSubs))
  }

  ghost function Apply(s: System, step: Step): System
    requires Enabled(s, step)
  {
    match step
    case Join(info, order) => SetNode(s, info.server, Joined(info, s.store, order))
    case Consume(at, key, func) => Consumed(s, at, key, func)
    case ConsumeLocal(at, key, func) =>
      SetNode(s, at, s.nodes[at].(bus := AddLocalConsumer(s.nodes[at].bus, key, func)))
    case Ask(at, key, value, func, uuid, react) =>
      Asked(Draw(s, uuid), at, key, value, func, uuid, react)
    case Deliver(packet, junk, react) => Delivered(s, packet, junk, react)
    case Lose(packet) => s.(net := s.net - multiset{packet})
    case HandleAdded(at) => AfterAdded(s, at)
    case HandleRemoved(at, order) => AfterRemoved(s, at, order)
    case Evict(sub) => s.(store := Remove(s.store, sub))
  }

  ghost predicate Legal(s: System, steps: seq<Step>)
    decreases |steps|
  {
    steps == [] || (Enabled(s, steps[0]) && Legal(Apply(s, steps[0]), steps[1..]))
  }

  ghost function Run(s: System, steps: seq<Step>): System
    requires Legal(s, steps)
    decreases |steps|
  {
    if steps == [] then s else Run(Apply(s, steps[0]), steps[1..])
  }
}
