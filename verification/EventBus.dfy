/** One node's request/reply machine: src/vertx/event_bus_hazeclast.hpp. */
module EventBus {
  import opened Bytes
  import opened Wrappers
  import opened Codec
  import opened Cluster

  /** What marks the address of a frame as a reply id. */
  function ReplyMark(): Str { Ascii("__vertx.reply") }

  function Ping(): Str { Ascii("ping") }

  /** The id of a request, from a fresh UUID. */
  function ReplyId(uuid: Str): Str { ReplyMark() + (Ascii(".") + uuid) }

  /** The user's functions, by name. What a consumer does to the message it is given. */
  type Behaviour = (nat, Message) -> Message

  /** `ClusteredMessage` has setters for these members only. */
  predicate LeftBy(before: Message, after: Message) {
    after == before.(port := after.port, host := after.host, body := after.body, reply := after.reply,
                     request := after.request, local := after.local)
  }

  ghost predicate UsesSetters(react: Behaviour) {
    forall func, m :: LeftBy(m, react(func, m))
  }

  // ---------------------------------------------------------------- the state machine

  /** The maps of the bus. `None` is the empty `std::function` that `operator[]` inserts for a
      missing key, and that throws when it is called. */
  datatype Bus = Bus(
    self: ServerID,
    consumers: map<Str, Option<nat>>,
    consumersLocal: map<Str, nat>,
    publishers: map<Str, Option<nat>>)

  /** A frame on its way: the bytes `Print(sent)`, for the bridge at `dest`. */
  datatype Packet = Packet(dest: ServerID, sent: Message)

  /** A call of a user function with the message it sees. */
  datatype UserCall = ConsumerCall(func: nat, message: Message) | ReplyCall(func: nat, message: Message)

  datatype Error = BadFunctionCall | OutOfRange

  datatype Outcome = Outcome(bus: Bus, calls: seq<UserCall>, sent: Option<Packet>, error: Option<Error>)

  /** `map[key]` followed by a call of the function found there. */
  function Lookup(functions: map<Str, Option<nat>>, key: Str): Option<nat> {
    if key in functions then functions[key] else None
  }

  /** `_consumers.emplace(address, function)` */
  function AddConsumer(bus: Bus, address: Str, func: nat): Bus {
    if address in bus.consumers then bus else bus.(consumers := bus.consumers[address := Some(func)])
  }

  function AddLocalConsumer(bus: Bus, address: Str, func: nat): Bus {
    if address in bus.consumersLocal then bus else bus.(consumersLocal := bus.consumersLocal[address := func])
  }

  function AddPublisher(bus: Bus, id: Str, func: nat): Bus {
    if id in bus.publishers then bus else bus.(publishers := bus.publishers[id := Some(func)])
  }

  function Target(m: Message): ServerID {
    ServerID(m.port, m.host)
  }

  /** The copy of a request that is printed: it names the sender as the place to answer to. */
  function Forwarded(bus: Bus, m: Message): Message {
    m.(port := bus.self.port, host := bus.self.host)
  }

  /** The answer to a request of another node; its body, a `const char*`, is never printed. */
  function Response(bus: Bus, m: Message): Message {
    MakeMessage(0, 1, 9, true, m.address, m.replay, bus.self.port, m.host, 4, Other(0), false)
  }

  /** The request of a local consumer: both user functions run at once. */
  function ProcessLocal(bus: Bus, m: Message, react: Behaviour): Outcome
    requires m.local.Some?
  {
    var after := react(m.local.value.func, m);
    Outcome(bus, [ConsumerCall(m.local.value.func, m), ReplyCall(m.local.value.callback, after.(body := after.reply))],
            None, None)
  }

  /** A request this node serves itself. */
  function ProcessOwn(bus: Bus, m: Message, react: Behaviour): Outcome {
    match Lookup(bus.consumers, m.replay)
    case None => Outcome(bus.(consumers := bus.consumers[m.replay := None]), [], None, Some(BadFunctionCall))
    case Some(func) =>
      var after := react(func, m);
      var served := ConsumerCall(func, m);
      if after.address !in bus.publishers then Outcome(bus, [served], None, None)
      else match bus.publishers[after.address]
        case None => Outcome(bus, [served], None, Some(BadFunctionCall))
        case Some(callback) =>
          Outcome(bus.(publishers := bus.publishers - {after.address}),
                  [served, ReplyCall(callback, after.(body := after.reply))], None, None)
  }

  /** A reply to a request of this node. */
  function ProcessReply(bus: Bus, m: Message): Outcome {
    match Lookup(bus.publishers, m.address)
    case None => Outcome(bus.(publishers := bus.publishers[m.address := None]), [], None, Some(BadFunctionCall))
    case Some(callback) =>
      Outcome(bus.(publishers := bus.publishers - {m.address}), [ReplyCall(callback, m)], None, None)
  }

  /** A request of another node. */
  function ProcessRemote(bus: Bus, m: Message): Outcome {
    match Lookup(bus.consumers, m.address)
    case None => Outcome(bus.(consumers := bus.consumers[m.address := None]), [], None, Some(BadFunctionCall))
    case Some(func) =>
      Outcome(bus, [ConsumerCall(func, m)], Some(Packet(Target(m), Response(bus, m))), None)
  }

  /** `processOnTcpMessage` */
  function Process(bus: Bus, m: Message, react: Behaviour): Outcome {
    if m.request then
      if m.local.Some? then ProcessLocal(bus, m, react)
      else if Target(m) == bus.self then ProcessOwn(bus, m, react)
      else Outcome(bus, [], Some(Packet(Target(m), Forwarded(bus, m))), None)
    else if Contains(m.address, ReplyMark()) then ProcessReply(bus, m)
    else ProcessRemote(bus, m)
  }

  /** The message `request` builds for a server taken from the index. */
  function RequestMessage(id: Str, address: Str, server: ServerID, value: Any): Message {
    MakeMessage(0, 1, 9, true, id, address, server.port, server.host, 4, value, true)
  }

  function LocalRequestMessage(bus: Bus, address: Str, value: Any, func: nat): Message
    requires address in bus.consumersLocal
  {
    MakeMessage(0, 1, 9, true, Ascii("__vertx.reply.local"), address, bus.self.port, bus.self.host, 4, value, true)
      .(local := Some(LocalCall(bus.consumersLocal[address], func)))
  }

  /** `request`, on the event loop: the node's index gives the server and is rotated. */
  function Request(bus: Bus, endpoints: Endpoints, address: Str, value: Any, func: nat, uuid: Str, react: Behaviour)
    : (Outcome, Endpoints)
    requires NoEmptyQueue(endpoints)
  {
    if address in bus.consumersLocal then
      (Process(bus, LocalRequestMessage(bus, address, value, func), react), endpoints)
    else match Next(endpoints, address)
      case None => (Outcome(bus, [], None, Some(OutOfRange)), endpoints)
      case Some((server, rotated)) =>
        var m := RequestMessage(ReplyId(uuid), address, server, value);
        (Process(AddPublisher(bus, ReplyId(uuid), func), m, react), rotated)
  }

  datatype Received = Pong | Undefined | Handled(outcome: Outcome)

  /** `onMessage` for a frame in memory that `junk` follows. `Undefined`: the parser leaves even that. */
  function Receive(bus: Bus, frame: Str, junk: Str, react: Behaviour): Received {
    if Contains(frame, Ping()) then Pong
    else match Parse(frame + junk)
      case None => Undefined
      case Some((m, _)) => Handled(Process(bus, m, react))
  }

  /** `to_string` is only given messages that fit its buffer. */
  predicate Printable(sent: Option<Packet>) {
    sent.Some? ==> FitsBuffer(sent.value.sent)
  }

  // ---------------------------------------------------------------- registering and requesting

  /** The first consumer of an address is the one that is looked up from then on; other addresses keep theirs. */
  lemma FirstConsumerStays(bus: Bus, address: Str, func: nat)
    ensures var later := AddConsumer(bus, address, func);
            && (address !in bus.consumers ==> Lookup(later.consumers, address) == Some(func))
            && (address in bus.consumers ==> later == bus)
            && (forall a | a != address :: Lookup(later.consumers, a) == Lookup(bus.consumers, a))
            && later.(consumers := bus.consumers) == bus
  {
  }

  lemma FirstLocalConsumerStays(bus: Bus, address: Str, func: nat)
    ensures var later := AddLocalConsumer(bus, address, func);
            && address in later.consumersLocal
            && (address !in bus.consumersLocal ==> later.consumersLocal[address] == func)
            && (address in bus.consumersLocal ==> later == bus)
            && (forall a | a != address && a in later.consumersLocal ::
                  a in bus.consumersLocal && later.consumersLocal[a] == bus.consumersLocal[a])
            && (forall a | a in bus.consumersLocal :: a in later.consumersLocal)
            && later.(consumersLocal := bus.consumersLocal) == bus
  {
  }

  /** Different UUIDs make different ids, which all start with the same text. */
  lemma ReplyIdsDiffer(u: Str, v: Str)
    ensures ReplyId(u) == Ascii("__vertx.reply.") + u
    ensures ReplyId(u) == ReplyId(v) ==> u == v
  {
    var prefix := Ascii("__vertx.reply.");
    assert forall i | 0 <= i < 14 :: "__vertx.reply."[i] == ("__vertx.reply" + ".")[i];
    assert ReplyMark() + Ascii(".") == prefix;
    assert ReplyId(u) == prefix + u && ReplyId(v) == prefix + v;
    hide Ascii, ReplyId;
    assert (prefix + u)[|prefix|..] == u && (prefix + v)[|prefix|..] == v;
  }

  /** A request to another node registers its function and sends its frame there. */
  lemma RequestIsRegistered(bus: Bus, endpoints: Endpoints, address: Str, value: Any, func: nat, uuid: Str,
                            react: Behaviour)
    requires NoEmptyQueue(endpoints) && address !in bus.consumersLocal && address in endpoints
    requires endpoints[address][0] != bus.self && ReplyId(uuid) !in bus.publishers
    ensures var (outcome, rotated) := Request(bus, endpoints, address, value, func, uuid, react);
            && outcome.bus == bus.(publishers := bus.publishers[ReplyId(uuid) := Some(func)])
            && rotated == endpoints[address := endpoints[address][1..] + [endpoints[address][0]]]
            && outcome.calls == [] && outcome.error.None? && outcome.sent.Some?
            && outcome.sent.value.dest == endpoints[address][0]
            && outcome.sent.value.sent.address == ReplyId(uuid) && outcome.sent.value.sent.replay == address
            && Target(outcome.sent.value.sent) == bus.self && outcome.sent.value.sent.body == value
  {
    hide ReplyId;
  }

  /** After two requests to other nodes with different UUIDs both functions are registered, under different ids. */
  lemma TwoRequests(bus: Bus, endpoints: Endpoints, a: Str, b: Str, value: Any, value': Any, f: nat, g: nat,
                    u: Str, v: Str, react: Behaviour)
    requires NoEmptyQueue(endpoints) && a !in bus.consumersLocal && b !in bus.consumersLocal
    requires a in endpoints && b in endpoints && bus.self !in endpoints[a] && bus.self !in endpoints[b]
    requires u != v && ReplyId(u) !in bus.publishers && ReplyId(v) !in bus.publishers
    ensures var (one, rotated) := Request(bus, endpoints, a, value, f, u, react);
            && NoEmptyQueue(rotated)
            && var (two, _) := Request(one.bus, rotated, b, value', g, v, react);
               ReplyId(u) != ReplyId(v)
               && two.bus.publishers == bus.publishers[ReplyId(u) := Some(f)][ReplyId(v) := Some(g)]
  {
    ReplyIdsDiffer(u, v);
    RequestIsRegistered(bus, endpoints, a, value, f, u, react);
    var (one, rotated) := Request(bus, endpoints, a, value, f, u, react);
    assert b in rotated && rotated[b][0] in endpoints[b];
    hide Request, ReplyId;
    RequestIsRegistered(one.bus, rotated, b, value', g, v, react);
  }

  /** A request for a local consumer calls it with the value and then the response handler with the reply; nothing
      is registered, sent or rotated. */
  lemma LocalRequest(bus: Bus, endpoints: Endpoints, address: Str, value: Any, func: nat, uuid: Str, react: Behaviour)
    returns (seen: Message, answered: Message)
    requires NoEmptyQueue(endpoints) && address in bus.consumersLocal && UsesSetters(react)
    ensures Request(bus, endpoints, address, value, func, uuid, react) ==
            (Outcome(bus, [ConsumerCall(bus.consumersLocal[address], seen), ReplyCall(func, answered)], None, None),
             endpoints)
    ensures seen.body == value && seen.replay == address && seen.address == Ascii("__vertx.reply.local")
    ensures Target(seen) == bus.self && seen.request
    ensures answered.body == react(bus.consumersLocal[address], seen).reply
    ensures answered.address == seen.address && answered.replay == address
  {
    seen := LocalRequestMessage(bus, address, value, func);
    var after := react(bus.consumersLocal[address], seen);
    assert LeftBy(seen, after);
    answered := after.(body := after.reply);
  }

  /** A request that the node serves itself calls its consumer with the value and then the response handler with
      the reply, and leaves no callback behind. */
  lemma OwnNodeRequest(bus: Bus, endpoints: Endpoints, address: Str, value: Any, func: nat, uuid: Str, react: Behaviour,
                       consumer: nat)
    returns (seen: Message, answered: Message)
    requires NoEmptyQueue(endpoints) && address !in bus.consumersLocal && address in endpoints
    requires endpoints[address][0] == bus.self && ReplyId(uuid) !in bus.publishers && UsesSetters(react)
    requires Lookup(bus.consumers, address) == Some(consumer)
    ensures Request(bus, endpoints, address, value, func, uuid, react) ==
            (Outcome(bus, [ConsumerCall(consumer, seen), ReplyCall(func, answered)], None, None),
             endpoints[address := endpoints[address][1..] + [bus.self]])
    ensures seen.body == value && seen.replay == address && seen.address == ReplyId(uuid) && seen.request
    ensures answered.body == react(consumer, seen).reply
    ensures answered.address == ReplyId(uuid) && answered.replay == address
  {
    hide ReplyId;
    seen := RequestMessage(ReplyId(uuid), address, bus.self, value);
    var after := react(consumer, seen);
    assert LeftBy(seen, after);
    answered := after.(body := after.reply);
    var registered := AddPublisher(bus, ReplyId(uuid), func);
    assert registered.publishers - {ReplyId(uuid)} == bus.publishers;
  }

  /** A lookup of an unknown address, by a request of another node, throws and leaves an empty function behind,
      so that a consumer registered afterwards is never called. */
  lemma LookupSpoilsTheAddress(bus: Bus, m: Message, react: Behaviour, func: nat)
    requires !m.request && !Contains(m.address, ReplyMark()) && m.address !in bus.consumers
    ensures var outcome := Process(bus, m, react);
            && outcome.error == Some(BadFunctionCall) && outcome.calls == [] && outcome.sent.None?
            && Process(AddConsumer(outcome.bus, m.address, func), m, react).calls == []
            && Process(AddConsumer(outcome.bus, m.address, func), m, react).error == Some(BadFunctionCall)
  {
    hide Contains;
  }

  /** The lookups that find nothing: each throws, calls nothing and leaves an empty function under the key that
      was looked up. */
  lemma FailedLookups(bus: Bus, m: Message, react: Behaviour)
    requires m.local.None?
    ensures m.request && Target(m) == bus.self && m.replay !in bus.consumers ==>
              Process(bus, m, react)
              == Outcome(bus.(consumers := bus.consumers[m.replay := None]), [], None, Some(BadFunctionCall))
    ensures !m.request && Contains(m.address, ReplyMark()) && m.address !in bus.publishers ==>
              Process(bus, m, react)
              == Outcome(bus.(publishers := bus.publishers[m.address := None]), [], None, Some(BadFunctionCall))
    ensures !m.request && !Contains(m.address, ReplyMark()) && m.address !in bus.consumers ==>
              Process(bus, m, react)
              == Outcome(bus.(consumers := bus.consumers[m.address := None]), [], None, Some(BadFunctionCall))
  {
    hide Contains;
  }

  /** A second reply to the same request finds nothing any more, throws, and leaves an empty function behind. */
  lemma SecondReplyThrows(bus: Bus, m: Message, react: Behaviour, callback: nat)
    requires !m.request && Contains(m.address, ReplyMark()) && Lookup(bus.publishers, m.address) == Some(callback)
    ensures var first := Process(bus, m, react);
            var second := Process(first.bus, m, react);
            && first.calls == [ReplyCall(callback, m)] && first.error.None? && m.address !in first.bus.publishers
            && second.calls == [] && second.error == Some(BadFunctionCall)
            && Lookup(second.bus.publishers, m.address) == None && m.address in second.bus.publishers
  {
    hide Contains;
  }

  /** A request to the own node that has no callback, or an empty one, still calls its consumer; the empty one
      is called, throws and stays. */
  lemma OwnRequestWithoutCallback(bus: Bus, m: Message, react: Behaviour, consumer: nat)
    requires m.request && m.local.None? && Target(m) == bus.self && UsesSetters(react)
    requires Lookup(bus.consumers, m.replay) == Some(consumer)
    ensures m.address !in bus.publishers ==>
              Process(bus, m, react) == Outcome(bus, [ConsumerCall(consumer, m)], None, None)
    ensures m.address in bus.publishers && bus.publishers[m.address] == None ==>
              Process(bus, m, react) == Outcome(bus, [ConsumerCall(consumer, m)], None, Some(BadFunctionCall))
  {
    assert LeftBy(m, react(consumer, m));
  }

  /** What counts as a ping: these four bytes in a row. */
  lemma PingBytes(s: Str, i: nat)
    requires i + 4 <= |s|
    ensures OccursAt(s, Ping(), i) <==> s[i] == 0x70 && s[i + 1] == 0x69 && s[i + 2] == 0x6e && s[i + 3] == 0x67
  {
    assert |Ping()| == 4 && Ping()[0] == 0x70 && Ping()[1] == 0x69 && Ping()[2] == 0x6e && Ping()[3] == 0x67;
    var window := s[i..i + 4];
    assert window[0] == s[i] && window[1] == s[i + 1] && window[2] == s[i + 2] && window[3] == s[i + 3];
  }

  // ---------------------------------------------------------------- one request, two hops

  /** A frame is handed to the bus when `ping` is not among its bytes and a body can be read after it. */
  predicate Arrives(sent: Message, junk: Str)
    requires FitsBuffer(sent)
  {
    !Contains(Print(sent), Ping()) && StrAt(junk).Some?
  }

  function BodyAt(junk: Str): Str
    requires StrAt(junk).Some?
  {
    StrAt(junk).value.0
  }

  /** Exactly what a node makes of a frame without a string reply and the memory that follows it. */
  lemma ReceivedMessage(bus: Bus, sent: Message, junk: Str, react: Behaviour)
    requires FitsBuffer(sent) && !sent.reply.Text?
    ensures Receive(bus, Print(sent), junk, react) ==
            if Contains(Print(sent), Ping()) then Pong
            else if StrAt(junk).None? then Undefined
            else Handled(Process(bus, Hop(sent, BodyAt(junk)), react))
  {
    HeaderRoundTrip(sent, junk);
    hide Print, FitsBuffer, Process, IntAt, StrAt, Parse, Contains;
    assert Payload(sent) + junk == junk;
  }

  ghost predicate CallsConsumer(r: Received) {
    r.Handled? && exists i :: 0 <= i < |r.outcome.calls| && r.outcome.calls[i].ConsumerCall?
  }

  predicate Answers(r: Received) {
    r.Handled? && r.outcome.sent.Some?
  }

  /** A forwarded request calls a consumer, and is answered, exactly when its frame has no `ping` in it,
      a body can be read after it, and its address does not contain the mark of a reply. */
  lemma RequestIsServedExactly(server: Bus, sent: Message, junk: Str, react: Behaviour, func: nat)
    requires FitsBuffer(sent) && !sent.reply.Text?
    requires Lookup(server.consumers, sent.replay) == Some(func)
    ensures var r, served := Receive(server, Print(sent), junk, react),
                             Arrives(sent, junk) && !Contains(sent.replay, ReplyMark());
            && (CallsConsumer(r) <==> served)
            && (Answers(r) <==> served)
            && (served ==> r == Handled(Outcome(server, [ConsumerCall(func, Hop(sent, BodyAt(junk)))],
                                                Some(Packet(Target(sent), Answer(server, sent))), None)))
  {
    ReceivedMessage(server, sent, junk, react);
    hide Receive, Print, FitsBuffer, Contains, Ascii, StrAt;
    var r := Receive(server, Print(sent), junk, react);
    if Arrives(sent, junk) && !Contains(sent.replay, ReplyMark()) {
      assert r.outcome.calls[0].ConsumerCall?;
    }
  }

  /** Two concrete cases: a consumer registered under the mark itself is never called by another node, and
      neither is one registered under `ping`. */
  lemma UnreachableConsumers(self: ServerID, request: Message, junk: Str, react: Behaviour, func: nat)
    requires FitsBuffer(request) && !request.reply.Text?
    requires request.replay == ReplyMark() || request.replay == Ping()
    ensures var server := Bus(self, map[ReplyMark() := Some(func), Ping() := Some(func)], map[], map[]);
            var r := Receive(server, Print(request), junk, react);
            && !CallsConsumer(r)
            && (request.replay == Ping() ==> r == Pong)
            && (r.Handled? ==> r.outcome.calls == [] && r.outcome.error == Some(BadFunctionCall))
  {
    var server := Bus(self, map[ReplyMark() := Some(func), Ping() := Some(func)], map[], map[]);
    ReceivedMessage(server, request, junk, react);
    if request.replay == Ping() {
      assert OccursAt(Ping(), Ping(), 0);
      PingIsDropped(server, request, junk, react);
    } else {
      assert OccursAt(ReplyMark(), ReplyMark(), 0);
    }
    hide Receive, Print, FitsBuffer, Ascii, OccursAt, StrAt;
  }

  /** The message a server answers with, in terms of the message the requester printed. */
  function Answer(server: Bus, sent: Message): Message {
    MakeMessage(0, 1, 9, true, sent.replay, sent.address, server.self.port, sent.host, 4, Other(0), false)
  }

  /** The id `request` makes is recognised as a reply. */
  lemma ReplyIdIsMarked(uuid: Str)
    ensures Contains(ReplyId(uuid), ReplyMark())
  {
    hide Ascii;
    assert ReplyId(uuid)[0..|ReplyMark()|] == ReplyMark();
    assert OccursAt(ReplyId(uuid), ReplyMark(), 0);
  }

  /** A reply frame that arrives calls and erases the function registered under its `replay`, and nothing
      else; one that does not arrive is not handled. */
  lemma ReplyIsRouted(client: Bus, sent: Message, junk: Str, react: Behaviour, callback: nat)
    requires FitsBuffer(sent) && !sent.reply.Text?
    requires Contains(sent.replay, ReplyMark())
    requires Lookup(client.publishers, sent.replay) == Some(callback)
    ensures var back := Receive(client, Print(sent), junk, react);
            if Arrives(sent, junk) then
              back == Handled(Outcome(client.(publishers := client.publishers - {sent.replay}),
                                      [ReplyCall(callback, Hop(sent, BodyAt(junk)))], None, None))
            else !back.Handled?
  {
    ReceivedMessage(client, sent, junk, react);
    hide Receive, Print, FitsBuffer, Contains, Ascii, StrAt;
  }

  /** Right callback at the right node: a forwarded request that arrives is answered by a frame for the node
      that issued it, and if that arrives the node calls exactly the function registered for the request's
      id, once, whatever bodies are read. */
  lemma TwoHops(client: Bus, server: Bus, request: Message, junk: Str, junk': Str, react: Behaviour,
                func: nat, callback: nat)
    requires request.request && request.local.None? && !request.reply.Text?
    requires Target(request) == server.self != client.self
    requires FitsBuffer(Forwarded(client, request))
    requires !Contains(request.replay, ReplyMark()) && Contains(request.address, ReplyMark())
    requires Lookup(server.consumers, request.replay) == Some(func)
    requires Lookup(client.publishers, request.address) == Some(callback)
    ensures Process(client, request, react) ==
            Outcome(client, [], Some(Packet(server.self, Forwarded(client, request))), None)
    ensures FitsBuffer(Answer(server, Forwarded(client, request)))
    ensures var sent := Forwarded(client, request);
            var there := Receive(server, Print(sent), junk, react);
            if Arrives(sent, junk) then
              there == Handled(Outcome(server, [ConsumerCall(func, Hop(sent, BodyAt(junk)))],
                                       Some(Packet(client.self, Answer(server, sent))), None))
            else !there.Handled?
    ensures var sent := Answer(server, Forwarded(client, request));
            var back := Receive(client, Print(sent), junk', react);
            if Arrives(sent, junk') then
              back == Handled(Outcome(client.(publishers := client.publishers - {request.address}),
                                      [ReplyCall(callback, Hop(sent, BodyAt(junk')))], None, None))
            else !back.Handled?
    ensures var sent := Answer(server, Forwarded(client, request));
            StrAt(junk').Some? ==>
              var seen := Hop(sent, BodyAt(junk'));
              && seen.address == request.address && seen.replay == request.replay
              && seen.port == server.self.port && seen.host == client.self.host && seen.body == Text(BodyAt(junk'))
    ensures var sent := Forwarded(client, request);
            StrAt(junk).Some? ==>
              var seen := Hop(sent, BodyAt(junk));
              && seen.address == request.replay && seen.replay == request.address
              && Target(seen) == client.self && seen.body == Text(BodyAt(junk))
  {
    var sent := Forwarded(client, request);
    assert FitsBuffer(Answer(server, sent));
    ReceivedMessage(server, sent, junk, react);
    hide Receive, Print, Contains, Ascii, FitsBuffer, StrAt;
    RequestIsServedExactly(server, sent, junk, react, func);
    ReplyIsRouted(client, Answer(server, sent), junk', react, callback);
  }

  /** A frame that names an address, an id or a host with `ping` in it is answered and dropped. */
  lemma PingIsDropped(bus: Bus, sent: Message, junk: Str, react: Behaviour)
    requires FitsBuffer(sent)
    requires Contains(sent.replay, Ping()) || Contains(sent.address, Ping()) || Contains(sent.host, Ping())
    ensures Receive(bus, Print(sent), junk, react) == Pong
  {
    FieldShapes(sent);
    var size := IntBytes(FrameLength(sent) - 4);
    assert Print(sent) == size + ([1, 9, 0] + Fields(sent));
    assert Contains(Print(sent), Ping()) by {
      hide *;
      if Contains(sent.replay, Ping()) {
        ContainsAfter(IntBytes(|sent.replay|), sent.replay, FromAddress(sent), Ping());
      } else {
        if Contains(sent.address, Ping()) {
          ContainsAfter(IntBytes(|sent.address|), sent.address, FromPort(sent), Ping());
        } else {
          ContainsAfter(IntBytes(|sent.host|), sent.host, FromHeaders(sent), Ping());
          ContainsInside(IntBytes(sent.port), FromHost(sent), [], Ping());
          assert FromPort(sent) == IntBytes(sent.port) + FromHost(sent) + [];
          ContainsAfter(IntBytes(|sent.address|), sent.address, FromPort(sent), Ping());
        }
        ContainsAfter(IntBytes(|sent.replay|), sent.replay, FromAddress(sent), Ping());
      }
      ContainsAfter(size, [1, 9, 0], Fields(sent), Ping());
    }
  }

  /** A field of a frame shows in the frame, and so does what comes after the field. */
  lemma ContainsAfter(size: Str, field: Str, next: Str, p: Str)
    requires Contains(field, p) || Contains(next, p)
    ensures Contains(size + (field + next), p)
  {
    if Contains(field, p) {
      ContainsInside(size, field, next, p);
      assert size + field + next == size + (field + next);
    } else {
      ContainsInside(size + field, next, [], p);
      assert size + field + next + [] == size + (field + next);
    }
  }

  // ---------------------------------------------------------------- the code that works in place

  /** Bytes handed to the TCP client for `dest`. */
  datatype Frame = Frame(dest: ServerID, bytes: Str)

  /** What a method of the bus hands to user functions and to the network, and whether it throws. */
  datatype Effect = Effect(calls: seq<UserCall>, sent: Option<Frame>, error: Option<Error>)

  ghost predicate Performs(effect: Effect, outcome: Outcome)
    requires Printable(outcome.sent)
  {
    && effect.calls == outcome.calls
    && effect.error == outcome.error
    && effect.sent == match outcome.sent
                      case None => None
                      case Some(packet) => Some(Frame(packet.dest, Print(packet.sent)))
  }

  class EventBus {
    const self: ServerID
    const hz: HazelcastCluster
    const react: Behaviour
    var consumers: map<Str, Option<nat>>
    var consumersLocal: map<Str, nat>
    var publishers: map<Str, Option<nat>>

    ghost function State(): Bus
      reads this
    {
      Bus(self, consumers, consumersLocal, publishers)
    }

    constructor (hz: HazelcastCluster, self: ServerID, react: Behaviour)
      ensures State() == Bus(self, map[], map[], map[])
      ensures this.hz == hz && this.react == react
    {
      this.hz, this.self, this.react := hz, self, react;
      consumers, consumersLocal, publishers := map[], map[], map[];
    }

    method Consumer(address: Str, func: nat)
      modifies this`consumers, hz`localSubs, hz.subs
      ensures State() == AddConsumer(old(State()), address, func)
      ensures address !in old(consumers) ==> Lookup(consumers, address) == Some(func)
      ensures address in old(consumers) ==> consumers == old(consumers)
      ensures var sub := Sub(address, NodeInfo(hz.nodeId, self));
              hz.subs.State() == Put(old(hz.subs.State()), sub) && hz.localSubs == old(hz.localSubs) + [sub]
    {
      if address !in consumers {
        consumers := consumers[address := Some(func)];
      }
      hz.AddSub(address, self.port, self.host);
    }

    method LocalConsumer(address: Str, func: nat)
      modifies this`consumersLocal
      ensures State() == AddLocalConsumer(old(State()), address, func)
    {
      if address !in consumersLocal {
        consumersLocal := consumersLocal[address := func];
      }
    }

    /** `request(address, value, func)` on the event loop, with the UUID it draws. */
    method SendRequest(address: Str, value: Any, func: nat, uuid: Str) returns (effect: Effect)
      requires hz.Valid()
      requires Printable(Request(State(), hz.localEndpoints, address, value, func, uuid, react).0.sent)
      modifies this`consumers, this`publishers, hz`localEndpoints
      ensures var (outcome, endpoints) :=
                Request(old(State()), old(hz.localEndpoints), address, value, func, uuid, react);
              hz.Valid() && State() == outcome.bus && hz.localEndpoints == endpoints && Performs(effect, outcome)
    {
      if address !in consumersLocal {
        var id := ReplyId(uuid);
        var server := hz.NextServer(address);
        if server.None? {
          return Effect([], None, Some(OutOfRange));
        }
        if id !in publishers {
          publishers := publishers[id := Some(func)];
        }
        effect := ProcessOnTcpMessage(RequestMessage(id, address, server.value, value));
      } else {
        effect := ProcessOnTcpMessage(
          MakeMessage(0, 1, 9, true, Ascii("__vertx.reply.local"), address, self.port, self.host, 4, value, true)
            .(local := Some(LocalCall(consumersLocal[address], func))));
      }
    }

    method ProcessOnTcpMessage(m: Message) returns (effect: Effect)
      requires Printable(Process(State(), m, react).sent)
      modifies this`consumers, this`publishers
      ensures var outcome := Process(old(State()), m, react);
              State() == outcome.bus && Performs(effect, outcome)
    {
      hide Contains, Print, FitsBuffer;
      var address := m.address;
      if m.request {
        if m.local.Some? {
          var after := react(m.local.value.func, m);
          var answered := after.(body := after.reply);
          return Effect([ConsumerCall(m.local.value.func, m), ReplyCall(m.local.value.callback, answered)], None, None);
        }
        if m.host == self.host && m.port == self.port {
          effect := Serve(m);
          return;
        }
        var forwarded := m.(port := self.port, host := self.host);
        var frame := ToString(forwarded);
        return Effect([], Some(Frame(ServerID(m.port, m.host), frame)), None);
      }
      if Contains(address, ReplyMark()) {
        if address !in publishers {
          publishers := publishers[address := None];
        }
        var invoke := publishers[address];
        if invoke.None? {
          return Effect([], None, Some(BadFunctionCall));
        }
        publishers := publishers - {address};
        return Effect([ReplyCall(invoke.value, m)], None, None);
      }
      if address !in consumers {
        consumers := consumers[address := None];
      }
      var invoke := consumers[address];
      var response := MakeMessage(0, 1, 9, true, address, m.replay, self.port, m.host, 4, Other(0), false);
      if invoke.None? {
        return Effect([], None, Some(BadFunctionCall));
      }
      var frame := ToString(response);
      effect := Effect([ConsumerCall(invoke.value, m)], Some(Frame(ServerID(m.port, m.host), frame)), None);
    }

    /** The branch of `processOnTcpMessage` for a request to this same node. */
    method Serve(m: Message) returns (effect: Effect)
      modifies this`consumers, this`publishers
      ensures var outcome := ProcessOwn(old(State()), m, react);
              State() == outcome.bus && outcome.sent.None? && Performs(effect, outcome)
    {
      if m.replay !in consumers {
        consumers := consumers[m.replay := None];
      }
      var invoke := consumers[m.replay];
      if invoke.None? {
        return Effect([], None, Some(BadFunctionCall));
      }
      var after := react(invoke.value, m);
      var calls := [ConsumerCall(invoke.value, m)];
      if after.address in publishers {
        var callback := publishers[after.address];
        if callback.None? {
          return Effect(calls, None, Some(BadFunctionCall));
        }
        after := after.(body := after.reply);
        calls := calls + [ReplyCall(callback.value, after)];
        publishers := publishers - {after.address};
      }
      effect := Effect(calls, None, None);
    }

    /** `onMessage` for the first `length` bytes of `memory`. The answer is `None` where the bridge
        says "pong", or where the parser leaves `memory`. */
    method OnMessage(memory: array<schar>, length: nat) returns (effect: Option<Effect>)
      requires length <= memory.Length
      requires var r := Receive(State(), memory[..length], memory[length..], react);
               r.Handled? ==> Printable(r.outcome.sent)
      modifies this`consumers, this`publishers
      ensures match Receive(old(State()), memory[..length], memory[length..], react)
              case Handled(outcome) =>
                effect.Some? && State() == outcome.bus && Printable(outcome.sent) && Performs(effect.value, outcome)
              case _ => effect.None? && State() == old(State())
    {
      hide Contains, Parse, Process, Print, FitsBuffer;
      if Contains(memory[..length], Ping()) {
        return None;
      }
      assert memory[..length] + memory[length..] == memory[..];
      var m, _ := ToMessage(memory);
      if m.None? {
        return None;
      }
      var e := ProcessOnTcpMessage(m.value);
      effect := Some(e);
    }
  }
}
