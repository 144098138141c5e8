/** Every remote request is answered at most once, at the node that asked, by the function that asked. */
module ProtocolReplies {
  import opened Bytes
  import opened Wrappers
  import opened Codec
  import opened Cluster
  import opened EventBus
  import opened Protocol
  import opened ProtocolRouting

  predicate IsReply(p: Packet) {
    Contains(p.sent.replay, ReplyMark())
  }

  /** The request a frame belongs to. */
  function Id(p: Packet): Str {
    if IsReply(p) then p.sent.replay else p.sent.address
  }

  /** A frame in flight: a request on its way to a node that handles its key and names the place to
      answer to, or an answer on its way to the node that asked. */
  ghost predicate PacketOk(s: System, p: Packet) {
    && FitsBuffer(p.sent) && !p.sent.reply.Text?
    && Id(p) in s.issued
    && var issue := s.issued[Id(p)];
       if IsReply(p) then p.dest == issue.origin
       else p.sent.replay == issue.key && Target(p.sent) == issue.origin && Handles(s, p.dest, issue.key)
  }

  predicate Completed(done: seq<Done>, id: Str) {
    exists i :: 0 <= i < |done| && done[i].id == id
  }

  /** Conservation: an issued request is registered at its origin until its callback is called. */
  ghost predicate IssueOk(s: System, id: Str)
    requires id in s.issued
  {
    var issue := s.issued[id];
    && Contains(id, ReplyMark()) && UserKey(issue.key)
    && issue.origin in s.nodes
    && var publishers := s.nodes[issue.origin].bus.publishers;
       if Completed(s.done, id) then id !in publishers else id in publishers && publishers[id] == Some(issue.func)
  }

  ghost predicate PublishersOk(s: System) {
    forall at, id | at in s.nodes && id in s.nodes[at].bus.publishers :: id in s.issued && s.issued[id].origin == at
  }

  /** Each callback call is the right function at the right node, and no request has two. */
  ghost predicate DoneOk(s: System) {
    && (forall i | 0 <= i < |s.done| ::
          s.done[i].id in s.issued &&
          s.done[i] == Done(s.issued[s.done[i].id].origin, s.done[i].id, s.issued[s.done[i].id].func))
    && forall i, j | 0 <= i < j < |s.done| :: s.done[i].id != s.done[j].id
  }

  ghost predicate BooksOk(s: System) {
    && (forall id | id in s.issued :: IssueOk(s, id))
    && PublishersOk(s)
    && DoneOk(s)
  }

  ghost predicate InFlightOk(s: System, p: Packet) {
    PacketOk(s, p) && !Completed(s.done, Id(p))
  }

  predicate OneFrameEach(net: multiset<Packet>) {
    && (forall p | p in net :: net[p] == 1)
    && forall p, q | p in net && q in net && Id(p) == Id(q) :: p == q
  }

  /** A request has at most one frame in flight, and none once it is completed. */
  ghost predicate NetOk(s: System) {
    && OneFrameEach(s.net)
    && forall p | p in s.net :: InFlightOk(s, p)
  }

  ghost predicate Replied(s: System) {
    BooksOk(s) && NetOk(s)
  }

  // ---------------------------------------------------------------- ids

  function Ids(uuids: set<Str>): set<Str> {
    set u | u in uuids :: ReplyId(u)
  }

  /** Every issued id was made from a UUID that was drawn. */
  ghost predicate Drawn(s: System) {
    s.issued.Keys <= Ids(s.uuids)
  }

  /** A UUID that was not drawn before makes an id that was not issued, because ids differ as their UUIDs do. */
  lemma FreshUuid(s: System, uuid: Str)
    requires Drawn(s) && uuid !in s.uuids
    ensures ReplyId(uuid) !in s.issued
  {
    hide ReplyId;
    if ReplyId(uuid) in s.issued {
      var u :| u in s.uuids && ReplyId(uuid) == ReplyId(u);
      ReplyIdsDiffer(uuid, u);
      assert false;
    }
  }

  ghost predicate Askable(s: System, at: ServerID, key: Str, uuid: Str, react: Behaviour) {
    && at in s.nodes && UserKey(key) && UsesSetters(react) && ReplyId(uuid) !in s.issued
    && 27 + |ReplyId(uuid)| + |key| + |at.host| <= BUFFER_SIZE
    && NoEmptyQueue(s.nodes[at].endpoints)
  }

  // ---------------------------------------------------------------- what a delivery does

  lemma NodeIsItself(s: System, at: ServerID)
    requires Routed(s) && at in s.nodes
    ensures s.nodes[at].bus.self == at
    ensures forall key | key in s.nodes[at].bus.consumers :: s.nodes[at].bus.consumers[key].Some?
  {
    assert NodeRouted(s, at, s.nodes[at]);
  }

  /** The answer to a request in flight. */
  function AnswerTo(p: Packet): Packet {
    Packet(Target(p.sent),
           MakeMessage(0, 1, 9, true, p.sent.replay, p.sent.address, p.dest.port, p.sent.host, 4, Other(0), false))
  }

  /** A delivered request that arrives finds its consumer and is replaced by its answer in flight; one that
      does not is gone. No other state changes. */
  lemma RequestDelivery(s: System, p: Packet, junk: Str, react: Behaviour)
    requires Routed(s) && PacketOk(s, p) && !IsReply(p)
    requires Deliverable(s, p)
    ensures var r := Receive(s.nodes[p.dest].bus, Print(p.sent), junk, react);
            && (r.Handled? <==> Arrives(p.sent, junk))
            && (r.Handled? ==> r.outcome.error.None? && |r.outcome.calls| == 1 && r.outcome.calls[0].ConsumerCall?)
    ensures var dropped := s.net - multiset{p};
            Delivered(s, p, junk, react) ==
            s.(net := if Arrives(p.sent, junk) then dropped + multiset{AnswerTo(p)} else dropped)
    ensures FitsBuffer(AnswerTo(p).sent)
  {
    var bus := s.nodes[p.dest].bus;
    NodeIsItself(s, p.dest);
    var r := Receive(bus, Print(p.sent), junk, react);
    assert FitsBuffer(AnswerTo(p).sent);
    RequestIsServedExactly(bus, p.sent, junk, react, Lookup(bus.consumers, p.sent.replay).value);
    ReceivedMessage(bus, p.sent, junk, react);
    hide Receive, Contains, Print, FitsBuffer, StrAt;
    if r.Handled? {
      assert r.outcome.sent == Some(AnswerTo(p));
      assert Completions(p.dest, r.outcome.calls) == [] by { NoCompletion(p.dest, r.outcome.calls); }
      assert s.nodes[p.dest := s.nodes[p.dest]] == s.nodes;
      assert s.done + [] == s.done;
    }
  }

  lemma NoCompletion(at: ServerID, calls: seq<UserCall>)
    requires |calls| == 1 && calls[0].ConsumerCall?
    ensures Completions(at, calls) == []
  {
    assert Completions(at, calls[1..]) == [];
  }

  lemma OneCompletion(at: ServerID, calls: seq<UserCall>)
    requires |calls| == 1 && calls[0].ReplyCall?
    ensures Completions(at, calls) == [Done(at, calls[0].message.address, calls[0].func)]
  {
    assert Completions(at, calls[1..]) == [];
  }

  /** The state after the callback of request `id` has been called at `at`. */
  function Complete(s: System, at: ServerID, id: Str, func: nat): System
    requires at in s.nodes
  {
    var node := s.nodes[at];
    SetNode(s, at, node.(bus := node.bus.(publishers := node.bus.publishers - {id})))
      .(done := s.done + [Done(at, id, func)])
  }

  /** A delivered reply that arrives finds its callback registered, calls it and erases it; one that does
      not is gone. */
  lemma ReplyDelivery(s: System, p: Packet, junk: Str, react: Behaviour)
    requires Routed(s) && Replied(s) && IsReply(p)
    requires Deliverable(s, p)
    ensures var r := Receive(s.nodes[p.dest].bus, Print(p.sent), junk, react);
            (r.Handled? <==> Arrives(p.sent, junk)) && (r.Handled? ==> r.outcome.error.None?)
    ensures Id(p) in s.issued
    ensures var dropped := s.(net := s.net - multiset{p});
            Delivered(s, p, junk, react) ==
            if Arrives(p.sent, junk) then Complete(dropped, p.dest, Id(p), s.issued[Id(p)].func) else dropped
  {
    var bus := s.nodes[p.dest].bus;
    var r := Receive(bus, Print(p.sent), junk, react);
    assert InFlightOk(s, p) && IssueOk(s, Id(p));
    ReplyIsRouted(bus, p.sent, junk, react, s.issued[Id(p)].func);
    hide Receive, Contains, Print, FitsBuffer, StrAt;
    if r.Handled? {
      OneCompletion(p.dest, r.outcome.calls);
      assert s.net - multiset{p} + Sent(None) == s.net - multiset{p};
    }
  }

  // ---------------------------------------------------------------- what a request does

  /** A request that this node serves itself is issued and completed in one step. */
  function AskedOwn(s: System, at: ServerID, key: Str, func: nat, id: Str, rotated: Endpoints): System
    requires at in s.nodes
  {
    SetNode(s, at, s.nodes[at].(endpoints := rotated))
      .(issued := s.issued[id := Issue(at, key, func)], done := s.done + [Done(at, id, func)])
  }

  /** A request to another node is registered and its frame is put in flight. */
  function AskedRemote(s: System, at: ServerID, key: Str, func: nat, id: Str, rotated: Endpoints, p: Packet): System
    requires at in s.nodes
  {
    SetNode(s, at, s.nodes[at].(endpoints := rotated, bus := AddPublisher(s.nodes[at].bus, id, func)))
      .(issued := s.issued[id := Issue(at, key, func)], net := s.net + multiset{p})
  }

  function RequestPacket(at: ServerID, key: Str, id: Str, server: ServerID, value: Any): Packet {
    Packet(server, RequestMessage(id, key, server, value).(port := at.port, host := at.host))
  }

  lemma ServerHandles(s: System, at: ServerID, key: Str)
    requires Routed(s) && at in s.nodes && NoEmptyQueue(s.nodes[at].endpoints) && key in s.nodes[at].endpoints
    ensures Handles(s, Next(s.nodes[at].endpoints, key).value.0, key)
  {
    assert NodeRouted(s, at, s.nodes[at]);
    var server := Next(s.nodes[at].endpoints, key).value.0;
    assert server in Queued(s.nodes[at].endpoints, key);
  }

  /** A request never meets a missing consumer: it is served here, or a frame leaves for a node that
      has a consumer for its key. */
  lemma RequestEffect(s: System, at: ServerID, key: Str, value: Any, func: nat, uuid: Str, react: Behaviour)
    requires Routed(s) && Replied(s) && Askable(s, at, key, uuid, react)
    requires key !in s.nodes[at].bus.consumersLocal && key in s.nodes[at].endpoints
    ensures var (server, rotated) := Next(s.nodes[at].endpoints, key).value;
            var later := Asked(s, at, key, value, func, uuid, react);
            && Handles(s, server, key)
            && Request(s.nodes[at].bus, s.nodes[at].endpoints, key, value, func, uuid, react).0.error.None?
            && if server == at then later == AskedOwn(s, at, key, func, ReplyId(uuid), rotated)
               else later == AskedRemote(s, at, key, func, ReplyId(uuid), rotated,
                                         RequestPacket(at, key, ReplyId(uuid), server, value))
  {
    ServerHandles(s, at, key);
    NodeIsItself(s, at);
    hide NoEmptyQueue, Contains, UserKey, ReplyId, Routed;
    var node, id := s.nodes[at], ReplyId(uuid);
    var (server, rotated) := Next(node.endpoints, key).value;
    assert id !in node.bus.publishers;
    var registered := AddPublisher(node.bus, id, func);
    var m := RequestMessage(id, key, server, value);
    if server == at {
      OwnRequest(registered, m, react, Lookup(node.bus.consumers, key).value, func);
      var outcome := Process(registered, m, react);
      assert registered.(publishers := registered.publishers - {id}) == node.bus;
      TwoCalls(at, outcome.calls);
      assert s.net + multiset{} == s.net;
    } else {
      assert s.done + [] == s.done;
    }
  }

  lemma TwoCalls(at: ServerID, calls: seq<UserCall>)
    requires |calls| == 2 && calls[0].ConsumerCall? && calls[1].ReplyCall?
    ensures Completions(at, calls) == [Done(at, calls[1].message.address, calls[1].func)]
  {
    OneCompletion(at, calls[1..]);
  }

  /** A request to the own node calls the consumer, and then the callback with what the consumer replied. */
  lemma OwnRequest(bus: Bus, m: Message, react: Behaviour, consumer: nat, callback: nat)
    requires m.request && m.local.None? && Target(m) == bus.self && UsesSetters(react)
    requires Lookup(bus.consumers, m.replay) == Some(consumer)
    requires m.address in bus.publishers && bus.publishers[m.address] == Some(callback)
    ensures var outcome := Process(bus, m, react);
            && outcome.bus == bus.(publishers := bus.publishers - {m.address})
            && outcome.sent.None? && outcome.error.None? && |outcome.calls| == 2
            && outcome.calls[0] == ConsumerCall(consumer, m)
            && outcome.calls[1] == ReplyCall(callback, outcome.calls[1].message)
            && outcome.calls[1].message.address == m.address
            && outcome.calls[1].message.body == react(consumer, m).reply
  {
    assert LeftBy(m, react(consumer, m));
  }

  // ---------------------------------------------------------------- each step keeps the invariant

  /** Steps that touch neither callbacks nor frames. */
  ghost predicate SameReplies(s: System, later: System) {
    && later.net == s.net && later.issued == s.issued && later.done == s.done
    && (forall at | at in s.nodes :: at in later.nodes && later.nodes[at].bus.publishers == s.nodes[at].bus.publishers)
    && (forall at | at in later.nodes && at !in s.nodes :: later.nodes[at].bus.publishers == map[])
  }

  lemma PacketOkExtends(s: System, later: System, p: Packet)
    requires PacketOk(s, p) && Extends(s, later)
    requires Id(p) in later.issued && later.issued[Id(p)] == s.issued[Id(p)]
    ensures PacketOk(later, p)
  {
  }

  lemma BooksSame(s: System, later: System)
    requires BooksOk(s) && later.issued == s.issued && later.done == s.done
    requires forall at | at in s.nodes ::
               at in later.nodes && later.nodes[at].bus.publishers == s.nodes[at].bus.publishers
    requires forall at | at in later.nodes && at !in s.nodes :: later.nodes[at].bus.publishers == map[]
    ensures BooksOk(later)
  {
    forall id | id in later.issued ensures IssueOk(later, id) {
      assert IssueOk(s, id);
    }
  }

  lemma SameRepliesKeep(s: System, later: System)
    requires Replied(s) && SameReplies(s, later) && Extends(s, later)
    ensures Replied(later)
  {
    BooksSame(s, later);
    forall p | p in later.net ensures InFlightOk(later, p) {
      assert InFlightOk(s, p);
      PacketOkExtends(s, later, p);
    }
  }

  lemma DropKeeps(s: System, p: Packet)
    requires Replied(s) && p in s.net
    ensures Replied(s.(net := s.net - multiset{p}))
    ensures p !in s.net - multiset{p} && forall q | q in s.net - multiset{p} :: Id(q) != Id(p)
  {
    hide Id, IsReply, PacketOk, Completed;
    var later := s.(net := s.net - multiset{p});
    BooksSame(s, later);
    assert s.net[p] == 1;
    forall q | q in later.net ensures InFlightOk(later, q) {
      assert InFlightOk(s, q);
      PacketOkSame(s, later, q);
    }
  }

  lemma PacketOkSame(s: System, later: System, p: Packet)
    requires later.nodes == s.nodes && later.issued == s.issued
    ensures PacketOk(later, p) == PacketOk(s, p)
  {
  }

  lemma AnswerIsOk(s: System, p: Packet)
    requires Replied(s) && p in s.net && !IsReply(p) && FitsBuffer(AnswerTo(p).sent)
    ensures Id(AnswerTo(p)) == Id(p) && PacketOk(s, AnswerTo(p))
  {
    assert InFlightOk(s, p) && IssueOk(s, Id(p));
  }

  /** The answer takes the place of the request it answers. */
  lemma AnswerKeeps(s: System, p: Packet)
    requires Replied(s) && p in s.net && !IsReply(p) && FitsBuffer(AnswerTo(p).sent)
    ensures Replied(s.(net := s.net - multiset{p} + multiset{AnswerTo(p)}))
  {
    AnswerIsOk(s, p);
    assert InFlightOk(s, p);
    DropKeeps(s, p);
    AddFrameKeeps(s.(net := s.net - multiset{p}), AnswerTo(p));
  }

  /** A frame for a request that has none in flight. */
  lemma AddFrameKeeps(s: System, p: Packet)
    requires Replied(s) && InFlightOk(s, p) && forall q | q in s.net :: Id(q) != Id(p)
    ensures Replied(s.(net := s.net + multiset{p}))
  {
    hide Id, IsReply, PacketOk, Completed;
    var later := s.(net := s.net + multiset{p});
    BooksSame(s, later);
    assert p !in s.net;
    forall q | q in later.net ensures InFlightOk(later, q) {
      assert q in s.net || q == p;
      PacketOkSame(s, later, q);
    }
  }

  lemma CompletedAfter(done: seq<Done>, d: Done, id: Str)
    ensures Completed(done + [d], id) == (Completed(done, id) || id == d.id)
  {
    var later := done + [d];
    assert later[|done|] == d;
    if Completed(done, id) {
      var i :| 0 <= i < |done| && done[i].id == id;
      assert later[i].id == id;
    }
  }

  /** Calling the callback of a registered request. */
  lemma CompleteKeepsBooks(s: System, at: ServerID, id: Str, func: nat)
    requires BooksOk(s) && id in s.issued && s.issued[id] == Issue(at, s.issued[id].key, func)
    requires at in s.nodes && !Completed(s.done, id)
    ensures BooksOk(Complete(s, at, id, func))
  {
    var later := Complete(s, at, id, func);
    forall id' | id' in later.issued ensures IssueOk(later, id') {
      assert IssueOk(s, id');
      hide Completed, Contains;
      CompletedAfter(s.done, Done(at, id, func), id');
    }
  }

  lemma CompleteKeeps(s: System, at: ServerID, id: Str, func: nat)
    requires Replied(s) && id in s.issued && s.issued[id] == Issue(at, s.issued[id].key, func)
    requires at in s.nodes && !Completed(s.done, id) && forall p | p in s.net :: Id(p) != id
    ensures Replied(Complete(s, at, id, func))
  {
    var later := Complete(s, at, id, func);
    CompleteKeepsBooks(s, at, id, func);
    assert Extends(s, later);
    hide Id, IsReply, PacketOk, Completed, Extends, BooksOk;
    forall p | p in later.net ensures InFlightOk(later, p) {
      assert InFlightOk(s, p);
      InFlightIsIssued(s, p);
      PacketOkExtends(s, later, p);
      CompletedAfter(s.done, Done(at, id, func), Id(p));
    }
  }

  lemma InFlightIsIssued(s: System, p: Packet)
    requires PacketOk(s, p)
    ensures Id(p) in s.issued
  {
  }

  /** A fresh id on the books of its node. */
  function Register(s: System, at: ServerID, key: Str, func: nat, id: Str, rotated: Endpoints): System
    requires at in s.nodes
  {
    SetNode(s, at, s.nodes[at].(endpoints := rotated, bus := AddPublisher(s.nodes[at].bus, id, func)))
      .(issued := s.issued[id := Issue(at, key, func)])
  }

  lemma RegisterKeeps(s: System, at: ServerID, key: Str, func: nat, id: Str, rotated: Endpoints)
    requires Replied(s) && at in s.nodes && id !in s.issued && Contains(id, ReplyMark()) && UserKey(key)
    ensures var later := Register(s, at, key, func, id, rotated);
            && Replied(later) && Extends(s, later) && !Completed(later.done, id) && later.net == s.net
            && forall p | p in later.net :: Id(p) != id
  {
    hide Id, IsReply, PacketOk, Completed, Contains, UserKey, OneFrameEach;
    var later := Register(s, at, key, func, id, rotated);
    FreshId(s, id);
    RegisterKeepsBooks(s, at, key, func, id, rotated);
    RegisterExtends(s, at, key, func, id, rotated);
    hide Extends, BooksOk, Register;
    forall p | p in s.net ensures InFlightOk(later, p) {
      assert InFlightOk(s, p);
      InFlightIsIssued(s, p);
      PacketOkExtends(s, later, p);
    }
  }

  lemma RegisterExtends(s: System, at: ServerID, key: Str, func: nat, id: Str, rotated: Endpoints)
    requires at in s.nodes && id !in s.issued
    ensures var later := Register(s, at, key, func, id, rotated);
            && Extends(s, later) && later.net == s.net && later.done == s.done
            && forall id' | id' in s.issued :: id' in later.issued && later.issued[id'] == s.issued[id']
  {
  }

  /** An id that was not issued appears nowhere. */
  lemma FreshId(s: System, id: Str)
    requires Replied(s) && id !in s.issued
    ensures !Completed(s.done, id)
    ensures forall p | p in s.net :: Id(p) != id
    ensures forall at | at in s.nodes :: id !in s.nodes[at].bus.publishers
  {
    forall p | p in s.net ensures Id(p) != id {
      assert InFlightOk(s, p);
    }
  }

  lemma RegisterKeepsBooks(s: System, at: ServerID, key: Str, func: nat, id: Str, rotated: Endpoints)
    requires BooksOk(s) && at in s.nodes && id !in s.issued && Contains(id, ReplyMark()) && UserKey(key)
    requires !Completed(s.done, id)
    ensures BooksOk(Register(s, at, key, func, id, rotated))
  {
    hide Completed, Contains, UserKey, ReplyMark, IssueOk;
    var later := Register(s, at, key, func, id, rotated);
    assert id !in s.nodes[at].bus.publishers;
    forall id' | id' in later.issued ensures IssueOk(later, id') {
      RegisteredIssueOk(s, at, key, func, id, rotated, id');
    }
    assert DoneOk(later);
  }

  lemma RegisteredIssueOk(s: System, at: ServerID, key: Str, func: nat, id: Str, rotated: Endpoints, id': Str)
    requires at in s.nodes && id !in s.nodes[at].bus.publishers && Contains(id, ReplyMark()) && UserKey(key)
    requires id' != id ==> id' in s.issued && IssueOk(s, id')
    requires !Completed(s.done, id)
    ensures IssueOk(Register(s, at, key, func, id, rotated), id')
  {
    hide Completed, Contains, UserKey, ReplyMark;
  }

  /** Serving one's own request registers its id and completes it at once. */
  lemma AskedOwnKeeps(s: System, at: ServerID, key: Str, func: nat, id: Str, rotated: Endpoints)
    requires Replied(s) && at in s.nodes && id !in s.issued && Contains(id, ReplyMark()) && UserKey(key)
    ensures Replied(AskedOwn(s, at, key, func, id, rotated))
  {
    hide Replied, Completed, Contains, UserKey, Id, Extends;
    var registered := Register(s, at, key, func, id, rotated);
    RegisterKeeps(s, at, key, func, id, rotated);
    CompleteKeeps(registered, at, id, func);
    FreshId(s, id);
    OwnIsRegisterThenComplete(s, at, key, func, id, rotated);
  }

  lemma OwnIsRegisterThenComplete(s: System, at: ServerID, key: Str, func: nat, id: Str, rotated: Endpoints)
    requires at in s.nodes && id !in s.nodes[at].bus.publishers
    ensures Complete(Register(s, at, key, func, id, rotated), at, id, func) == AskedOwn(s, at, key, func, id, rotated)
  {
    var bus := s.nodes[at].bus;
    assert AddPublisher(bus, id, func).publishers - {id} == bus.publishers;
    var registered := Register(s, at, key, func, id, rotated);
    assert registered.nodes[at := s.nodes[at].(endpoints := rotated)] == s.nodes[at := s.nodes[at].(endpoints := rotated)];
  }

  lemma AskedRemoteKeeps(s: System, at: ServerID, key: Str, func: nat, id: Str, rotated: Endpoints, p: Packet)
    requires Replied(s) && at in s.nodes && id !in s.issued && Contains(id, ReplyMark()) && UserKey(key)
    requires FitsBuffer(p.sent) && !p.sent.reply.Text? && Handles(s, p.dest, key)
    requires p.sent.address == id && p.sent.replay == key && Target(p.sent) == at
    ensures Replied(AskedRemote(s, at, key, func, id, rotated, p))
  {
    var registered := Register(s, at, key, func, id, rotated);
    RegisterKeeps(s, at, key, func, id, rotated);
    assert Id(p) == id && PacketOk(registered, p);
    AddFrameKeeps(registered, p);
  }
}
