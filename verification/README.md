# Verified model of vertx-cpp

vertx-cpp is a clustered event bus in C++. Nodes register consumers under addresses in a shared Hazelcast
multimap, each node keeps a round-robin index of that multimap, and requests travel between nodes as small
binary frames whose answers are routed back by a reply id. The repository also carries a copy of
easylogging++. This project models both in Dafny and proves what they promise. Where the code does not keep
a promise, the exact condition under which it does is proved, together with an input for which it fails.

`dafny verify dfyconfig.toml` checks everything.

## The clustered event bus

| file | content |
|---|---|
| `Bytes.dfy`, `Wrappers.dfy`, `Division.dfy` | signed chars, 32-bit integers, substring search; `Option`; division facts |
| `Codec.dfy` | the frame printer and parser of `ClusteredMessage.h` |
| `Cluster.dfy` | the multimap, `hazelcast_cluster`, and what its operations do to the index |
| `RoundRobin.dfy` | `next` over many calls: rotation, fairness, bounded waiting |
| `EventBus.dfy` | one node's request/reply machine, and one request over two hops |
| `Protocol.dfy` | any number of nodes, the multimap's events and the frames in flight as one step system |
| `ProtocolIndex.dfy`, `ProtocolDrain.dfy` | the index invariant; convergence, self-healing and termination |
| `ProtocolRouting.dfy`, `ProtocolReplies.dfy` | the routing and the request/reply invariants |
| `ProtocolRuns.dfy` | the theorems about every run |
| `ProtocolConsumers.dfy` | which function is called, and whom the queues name, in every run |

The classes `HazelcastCluster` and `EventBus` and the methods of `Codec` are the code as it works in place.
Each is proved equal to a function on values (`Next`, `Rebuild`, `Process`, `Print`, `Parse`, ...). The step
system is built from the same functions, so the theorems about runs are theorems about what those methods do.
The class `MultiMap` stands for the multimap: its `RemoveEntry` is what the environment does to it in a step.

A state of the system has the nodes, the multimap with the log of all events it has raised, the bag of frames
in flight, and two histories: which request ids were issued by whom, and which callbacks were called. The
steps are: a node joins, registers a consumer or a local consumer, sends a request, handles an add event,
handles a remove event; a frame is delivered or lost; the environment removes any entry of the multimap. A
node's queue of pending events is the part of the log past its cursor.

Assumptions about the environment:

- The multimap has set semantics per key, a duplicate put raises no event, and all nodes receive the events
  in change order. `join` takes its snapshot and registers its listener in one step.
- Every handler is one atomic step. In the source `entryAdded` takes no lock, while `next` and `entryRemoved` do.
- No UUID is drawn twice, and server addresses are fresh; that ids differ is proved. The network delays and loses frames but does not duplicate them.
- User functions change a message through its setters only, which leave its address and its `replay`.
- Users choose addresses that do not contain `__vertx.reply`, and a request's frame fits the 2048 bytes the
  printer prints into. A `char` is signed.
- `int_value` advances its cursor four times in operands of `|`, which C++ leaves unsequenced; the model reads
  the bytes from left to right.

Where code and documentation disagree, the model follows the code:

- The README example prints the answer of a consumer. Between two nodes the code never sends a body: it prints
  only a string `_reply`, which neither a forwarded request nor a response has, and yet it parses one. What the
  other side sees as the body is whatever memory follows the frame (`Codec.BodyIsWhateverFollows`). The answer
  does arrive when the node serves the request itself (`ProtocolReplies.OwnRequest`). Routing is proved for
  every such body.
- `address` and `replay` change places on every hop. The protocol relies on it.
- A frame with the bytes `ping` in it is answered and dropped, so requests for such an address never arrive
  (`ProtocolRuns.PingRequestsAreLost`). The model counts this as loss.
- Looking up an address or an id that is not registered leaves an empty function behind, so that a consumer
  registered afterwards is never called (`EventBus.LookupSpoilsTheAddress`). In every run of the step system
  that never happens (`ProtocolRuns.NothingIsCalledInVain`).
- A forwarded request reaches its consumer if and only if its frame has no `ping` in it, a body can be read from
  the memory after it, and its address does not contain the reply mark (`EventBus.RequestIsServedExactly`).

## easylogging++

| file | content |
|---|---|
| `Configurations.dfy` | the registry of configuration entries as a last-write-wins map; copying |
| `TypedConfigurations.dfy` | the registry compiled into compressed per-level maps |
| `HitCounters.dfy` | every-N logging with counters that wrap at 100000 |
| `WildCard.dfy`, `EscapeReplace.dfy` | the backtracking matcher, the in-place replacer |
| `Decimals.dfy`, `FixedWidth.dfy` | decimal digits and what they stand for; the digit printer |
| `Dispatch.dfy`, `Writer.dfy` | a log statement for several loggers: locks, streams and dispatches; the writer on the logger objects |

Where the code does not do what it is for, the condition is exact:

- Every-N logging is right for every call if and only if N is at most 100000.
- A compressed map answers every level that has an entry with that entry's value if and only if the type has no
  Global entry, or the Global entry's value is that of the type's first entry. It answers every level, with an
  entry or without, as a level-then-Global-then-default reading of the registry does if and only if, in
  addition, a type with entries has a Global one or its first entry's value is the default.
- Copying keeps a level's own entry if and only if no Global entry with another value comes after it.
- The replacer does what it is for, for every string, if and only if the specifier is not two characters long.
- All dispatches of a statement to known loggers carry its text if and only if the first named logger lets the
  statement through, or the text is empty, or no named logger lets it through.

## Model

| member | source | states |
|---|---|---|
| Codec.IntRoundTrip | src/vertx/ClusteredMessage.h:287-289 | reading four written bytes gives back every 32-bit integer, whatever follows |
| Codec.IntBytesRoundTrip | src/vertx/ClusteredMessage.h:215-220 | writing a read integer gives back all four signed chars |
| Codec.HighByteFirst | src/vertx/ClusteredMessage.h:215-220 | written or read, four bytes stand for the number in base 256, highest byte first |
| Codec.FrameLayout | src/vertx/ClusteredMessage.h:60-87 | the place of every field in the frame, byte by byte |
| Codec.ParsedFields | src/vertx/ClusteredMessage.h:303-322 | every parse, field by field: which read from which place lands in which member |
| Codec.StringsAreCounted | src/vertx/ClusteredMessage.h:291-301 | a string is read exactly when its counted bytes are there, and is empty for a count of zero or less |
| Codec.HeaderRoundTrip | src/vertx/ClusteredMessage.h:303-322 | everything before the body is parsed back from a printed frame, whatever follows it: version 1, codec 9, send, 4 headers, size = length - 4, the same port and host, `address` and `replay` swapped, no reply and no request mark; the parse fails exactly when reading the body leaves memory |
| Codec.RoundTrip | src/vertx/ClusteredMessage.h:60-87 | with a string reply, printing and parsing gives, field by field, address = replay, replay = address, the same port and host, body = reply, version 1, codec 9, send, 4 headers, size = length - 4, with the cursor at the frame's end, before any suffix |
| Codec.RoundTripWithoutReply | src/vertx/ClusteredMessage.h:79-85 | without a string reply the parser overruns the frame, and everything but the body is still determined by the message |
| Codec.BodyIsWhateverFollows | src/vertx/ClusteredMessage.h:317-319 | such a message is parsed with any body at all, as the bytes after its frame have it |
| Codec.FramesArePrefixFree | src/vertx/ClusteredMessage.h:60-87 | no frame with a string reply is a proper prefix of another, and printing is injective on replay, address, port, host and reply |
| Codec.TwoHopsRestoreTheAddresses | src/vertx/event_bus_hazeclast.hpp:216-222 | printing and parsing a request and then the answer made from it gives the requester its own address and id back in its own order |
| Codec.SetInt | src/vertx/ClusteredMessage.h:222-227 | writes the four bytes at the cursor, advances it by four and leaves the bytes after it |
| Codec.ToCString | src/vertx/ClusteredMessage.h:60-87 | the loops write exactly the frame's fields at the cursor and then the size at the start of the buffer |
| Codec.ToString | src/vertx/ClusteredMessage.h:366-374 | the returned string is the printed frame that the round trips speak of |
| Codec.StringValue | src/vertx/ClusteredMessage.h:291-301 | the loop reads the length-prefixed string, nothing for a length of zero or less, and stops after it |
| Codec.ToMessage | src/vertx/ClusteredMessage.h:303-322 | the cursor-advancing parser computes the parse the round trips speak of, or leaves memory exactly when that is undefined |
| Cluster.PutAllEffect | src/vertx/hazelcast_cluster.cpp:103-105 | re-advertising grows the multimap by exactly the list and raises add events for new entries only |
| Cluster.PutAllAnnounces | src/vertx/hazelcast_cluster.cpp:103-105 | every re-advertised entry that was missing is announced |
| Cluster.PushAllEffect | src/vertx/hazelcast_cluster.cpp:29-35 | queueing a snapshot adds exactly its servers to each key's queue and leaves no queue empty |
| Cluster.PushAddsOneSlot | src/vertx/hazelcast_cluster.cpp:69-76 | an add event gives its server one slot, behind all others, and no other key any |
| Cluster.PushAllSlots | src/vertx/hazelcast_cluster.cpp:29-35 | a list gives each of its entries one slot under its key, in its order, behind the old ones |
| Cluster.SnapshotSlots | src/vertx/hazelcast_cluster.cpp:29-35 | a snapshot gives a server exactly one slot under a key for each entry that names it there |
| Cluster.RebuildEffect | src/vertx/hazelcast_cluster.cpp:93-101 | a rebuilt queue holds exactly the servers the multimap names now, in whatever order it lists them; other queues stay |
| Cluster.RebuildSlots | src/vertx/hazelcast_cluster.cpp:93-101 | a rebuilt queue has exactly one slot for each re-read entry, in the order in which it was read; the other queues keep theirs |
| Cluster.NextEffect | src/vertx/hazelcast_cluster.cpp:80-88 | `next` returns a queued server and permutes only that queue |
| Cluster.HazelcastCluster.Join | src/vertx/hazelcast_cluster.cpp:28-37 | the index after joining is the snapshot's, one slot for each entry |
| Cluster.HazelcastCluster.AddSub | src/vertx/hazelcast_cluster.cpp:46-50 | the subscription is put in the multimap and remembered as the node's own |
| Cluster.HazelcastCluster.EntryAdded | src/vertx/hazelcast_cluster.cpp:69-76 | the new server has one more slot, the last, under its key; the other queues stay |
| Cluster.HazelcastCluster.NextServer | src/vertx/hazelcast_cluster.cpp:80-88 | the front server is returned and moved to the back; a missing key throws and changes nothing |
| Cluster.HazelcastCluster.EntryRemoved | src/vertx/hazelcast_cluster.cpp:90-106 | the key's queue has one slot for each entry the multimap held before, in the order it listed them, the other queues stay, and then every own subscription is put back |
| RoundRobin.PositionAdvances | src/vertx/hazelcast_cluster.cpp:69-88 | each call for a key moves a queued server one position forward, whatever joins or is called in between |
| RoundRobin.BoundedWait | src/vertx/hazelcast_cluster.cpp:69-88 | the server at position p is returned by exactly the (p+1)-th following call, in any interleaving with joins |
| RoundRobin.NewcomersWaitTheirTurn | src/vertx/hazelcast_cluster.cpp:69-88 | a server that joins is returned right after each slot before it has had one call |
| RoundRobin.Rotation | src/vertx/hazelcast_cluster.cpp:80-88 | without joins under a key, and whatever happens to other keys, its queue is the original rotated by the number of its calls, with the same multiset of slots |
| RoundRobin.ReturnsSlot | src/vertx/hazelcast_cluster.cpp:80-88 | in any such interleaving call i of `next` for the key returns slot i mod n |
| RoundRobin.Fair | src/vertx/hazelcast_cluster.cpp:80-88 | in any such interleaving any m consecutive calls of `next` for the key return a server m/n times, rounded down or up, for each slot that holds it |
| EventBus.ReceivedMessage | src/vertx/event_bus_hazeclast.hpp:147-158 | exactly what a node makes of a frame without a string reply: pong if `ping` is among its bytes, undefined if no body can be read after it, and otherwise the processing of the swapped message with that body |
| EventBus.RequestIsServedExactly | src/vertx/event_bus_hazeclast.hpp:147-222 | a forwarded request calls a consumer, and is answered to the requester with its id, if and only if its frame has no `ping`, a body can be read after it, and its address does not contain the reply mark |
| EventBus.UnreachableConsumers | src/vertx/event_bus_hazeclast.hpp:147-222 | consumers registered under the mark itself or under `ping` are never called by another node |
| EventBus.ReplyIdIsMarked | src/vertx/event_bus_hazeclast.hpp:122 | every id that `request` makes is recognised as a reply |
| EventBus.ReplyIdsDiffer | src/vertx/event_bus_hazeclast.hpp:122 | an id is the fixed prefix and the UUID, so different UUIDs make different ids |
| EventBus.RequestIsRegistered | src/vertx/event_bus_hazeclast.hpp:122-201 | a request to another node registers its function under its id and sends one frame to the next server, naming this node to answer to |
| EventBus.TwoRequests | src/vertx/event_bus_hazeclast.hpp:122-130 | after two requests with different UUIDs both functions are registered, under different ids |
| EventBus.LocalRequest | src/vertx/event_bus_hazeclast.hpp:131-177 | a local consumer is called with the value and then the response handler with its reply; nothing is registered, sent or rotated |
| EventBus.OwnNodeRequest | src/vertx/event_bus_hazeclast.hpp:118-193 | a request served by its own node calls the consumer with the value and then the response handler with its reply, and leaves no callback behind |
| EventBus.OwnRequestWithoutCallback | src/vertx/event_bus_hazeclast.hpp:180-193 | without a registered callback only the consumer is called; an empty one throws and stays |
| EventBus.FailedLookups | src/vertx/event_bus_hazeclast.hpp:181-219 | each lookup that finds nothing throws, calls nothing and leaves an empty function under its key |
| EventBus.LookupSpoilsTheAddress | src/vertx/event_bus_hazeclast.hpp:96-219 | after such a lookup a consumer registered for the address is never called |
| EventBus.SecondReplyThrows | src/vertx/event_bus_hazeclast.hpp:204-214 | a second reply to the same request throws and leaves an empty function under the id |
| EventBus.PingBytes | src/vertx/event_bus_hazeclast.hpp:149 | which four bytes in a row make a frame a ping |
| EventBus.ReplyIsRouted | src/vertx/event_bus_hazeclast.hpp:204-214 | a reply frame that arrives calls and erases the callback registered under its id, and nothing else; otherwise it is not handled |
| EventBus.TwoHops | src/vertx/event_bus_hazeclast.hpp:168-223 | a forwarded request that arrives is answered by a frame for the node that issued it, and if that arrives the node calls exactly the request's own callback, for any bodies the parser finds; neither hop is handled otherwise |
| EventBus.PingIsDropped | src/vertx/event_bus_hazeclast.hpp:149-153 | a frame with `ping` in its address, id or host is answered and dropped |
| EventBus.FirstConsumerStays | src/vertx/event_bus_hazeclast.hpp:96-97 | the first function registered for an address is the one looked up from then on, a later one changes nothing, other addresses keep theirs |
| EventBus.FirstLocalConsumerStays | src/vertx/event_bus_hazeclast.hpp:107-109 | the same for local consumers |
| EventBus.EventBus.Consumer | src/vertx/event_bus_hazeclast.hpp:96-99 | a first registration stores the given function, a later one changes nothing, and the subscription is put and remembered |
| EventBus.EventBus.LocalConsumer | src/vertx/event_bus_hazeclast.hpp:107-109 | the first local consumer of an address stays |
| EventBus.EventBus.SendRequest | src/vertx/event_bus_hazeclast.hpp:118-139 | the state, calls, frame or exception of a request, local or through the index, are those of the state machine |
| EventBus.EventBus.ProcessOnTcpMessage | src/vertx/event_bus_hazeclast.hpp:168-223 | all five branches, with the empty functions that looking up a missing key leaves behind |
| EventBus.EventBus.OnMessage | src/vertx/event_bus_hazeclast.hpp:147-164 | bytes in, effects out: parsing in place and processing are the state machine's reception of a frame |
| ProtocolIndex.AddedKeepsIndex | src/vertx/hazelcast_cluster.cpp:69-76 | handling an add event keeps a node's index in step with the multimap |
| ProtocolIndex.RemovedKeepsIndex | src/vertx/hazelcast_cluster.cpp:90-106 | so does handling a remove event, at the node that also puts its subscriptions back |
| ProtocolIndex.StepKeepsIndex | src/vertx/hazelcast_cluster.cpp:19-106 | every step of every node and of the environment keeps the index invariant of all nodes |
| ProtocolIndex.JoinedFromTheSnapshot | src/vertx/hazelcast_cluster.cpp:28-37 | a node that has just joined has no event pending and one slot for each entry of the snapshot |
| ProtocolIndex.EnvironmentTakes | src/vertx/hazelcast_cluster.cpp:90-106 | a loss takes one frame; a removal takes one entry and leaves a remove event to handle at every node |
| ProtocolDrain.Convergence | src/vertx/hazelcast_cluster.cpp:69-101 | past the last pending remove, queued plus pending servers are those of the multimap |
| ProtocolDrain.SettledIsComplete | src/vertx/hazelcast_cluster.cpp:90-106 | with all events handled, every own subscription is in the multimap and in every node's queue |
| ProtocolDrain.HandlingGoesOn | src/vertx/hazelcast_cluster.cpp:69-106 | while an event is pending some handler can run |
| ProtocolDrain.DrainingTerminates | src/vertx/hazelcast_cluster.cpp:90-106 | in any interleaving, with any requests, deliveries and losses in between, handlers run at most as often as a bound of pending removes and adds says, although each remove may raise new add events at every node |
| ProtocolDrain.DrainedIsComplete | src/vertx/hazelcast_cluster.cpp:90-106 | when after such steps no handler can run any more, every registered consumer is queued at every node |
| ProtocolReplies.RequestDelivery | src/vertx/event_bus_hazeclast.hpp:216-222 | delivering a request replaces its frame by exactly its answer if it arrives and removes it otherwise; its consumer is found and no node changes |
| ProtocolReplies.ReplyDelivery | src/vertx/event_bus_hazeclast.hpp:204-214 | delivering a reply calls and erases its callback, which is registered, if it arrives, and removes the frame otherwise |
| ProtocolReplies.RequestEffect | src/vertx/event_bus_hazeclast.hpp:118-139 | a request through the index never meets a missing consumer: it is completed at this node, or registered and put in flight |
| ProtocolReplies.OwnRequest | src/vertx/event_bus_hazeclast.hpp:180-193 | a request to the own node calls the consumer and then the callback with the consumer's reply, and is erased |
| ProtocolReplies.FreshUuid | src/vertx/event_bus_hazeclast.hpp:122-128 | a UUID that was not drawn before makes an id that was not issued |
| ProtocolReplies.AskedOwnKeeps | src/vertx/event_bus_hazeclast.hpp:180-193 | requests served by the own node keep the request/reply invariant |
| ProtocolReplies.AskedRemoteKeeps | src/vertx/event_bus_hazeclast.hpp:195-201 | so do requests put in flight |
| ProtocolReplies.AnswerKeeps | src/vertx/event_bus_hazeclast.hpp:216-222 | so does replacing a request in flight by its answer |
| ProtocolReplies.CompleteKeeps | src/vertx/event_bus_hazeclast.hpp:204-214 | so does calling and erasing a callback |
| ProtocolRuns.StepKeepsRouting | src/vertx/event_bus_hazeclast.hpp:96-223 | every step keeps the routing and the request/reply invariant |
| ProtocolRuns.EveryRun | src/vertx/event_bus_hazeclast.hpp:96-223 | all three invariants hold in every state that any number of nodes can reach from the empty cluster |
| ProtocolRuns.NoQueueIsEverEmpty | src/vertx/hazelcast_cluster.cpp:80-88 | in every reachable state no queue is empty, so `next` never takes the front of one, and every frame was printed inside its buffer |
| ProtocolRuns.NamedServersHaveConsumers | src/vertx/event_bus_hazeclast.hpp:96-99 | in every reachable state, whoever the multimap, an event, a queue or a request in flight names for an address has a consumer for it |
| ProtocolRuns.NothingIsCalledInVain | src/vertx/event_bus_hazeclast.hpp:168-223 | in every run no delivery and no request calls an empty function; a request throws exactly when its node has neither a local consumer nor a server for the address |
| ProtocolRuns.AtMostOnce | src/vertx/event_bus_hazeclast.hpp:122-214 | in every run an issued request is either registered at its origin and uncalled, or registered nowhere, without frames, and its own callback was called exactly once, at its origin; at most one frame of it is in flight and an answer goes to its origin |
| ProtocolRuns.RequestComesBack | src/vertx/event_bus_hazeclast.hpp:168-223 | in a sound state, delivering a request in flight and then its answer, when both frames arrive, has exactly the request's own callback called and erased at its origin and changes nothing else |
| ProtocolRuns.RemoteRequestsEndLikeOwnOnes | src/vertx/event_bus_hazeclast.hpp:118-223 | in every run a request whose two frames arrive ends exactly as one its own node serves: issued, called once, nothing registered or in flight |
| ProtocolRuns.IndexConverges | src/vertx/hazelcast_cluster.cpp:28-101 | convergence in every run, and with nothing pending a key's queue names exactly the servers of the multimap |
| ProtocolRuns.ClusterHeals | src/vertx/hazelcast_cluster.cpp:90-106 | after any run with any removals, handling the pending events among requests and deliveries ends within the bound with every consumer queued at every node |
| ProtocolRuns.PingRequestsAreLost | src/vertx/event_bus_hazeclast.hpp:149-153 | delivering a request whose address contains `ping` changes nothing but that the frame is gone |
| ProtocolConsumers.FirstRegisteredIsKnown | src/vertx/event_bus_hazeclast.hpp:96-99 | in every run a node has for an address the function it registered first, and no other |
| ProtocolConsumers.DeliveriesCallTheFirstRegistered | src/vertx/event_bus_hazeclast.hpp:216-222 | in every run a request of another node that arrives calls exactly that function |
| ProtocolConsumers.OwnRequestsCallTheFirstRegistered | src/vertx/event_bus_hazeclast.hpp:180-193 | in every run a request served by its own node calls exactly that function with the value, and then the requester's with the reply |
| ProtocolConsumers.QueuesNameWhoRegistered | src/vertx/hazelcast_cluster.cpp:46-106 | after any run with any removals, once the pending events are handled every node's queue for an address names a node if and only if that node registered a consumer of it in the run |
| Configurations.SetIsWrite | include/easylogging++/easylogging++.cc:350-356 | the entry vector behaves as a map in which writing Global writes every level |
| Configurations.LevelsAreDoubled | include/easylogging++/easylogging++.cc:175-183 | doubling from the lowest to the highest valid level visits every level but Global and Unknown, once |
| Configurations.SetAllOverrides | include/easylogging++/easylogging++.cc:317-325 | copying is an override: the last base entry that reaches a level wins, the rest stays |
| Configurations.SetKeeps | include/easylogging++/easylogging++.cc:548-558 | every write keeps entries unique and a leading Global entry leading |
| Configurations.DefaultsLead | include/easylogging++/easylogging++.cc:365-387 | the defaults give every type a leading Global entry and every level an entry |
| Configurations.DefaultsAre | include/easylogging++/easylogging++.cc:365-387 | the default of every type at every level, whatever was registered before |
| Configurations.WritesKeep | include/easylogging++/easylogging++.cc:317-363 | any writes and copies afterwards keep that |
| Configurations.CopyTakesOwnThenGlobal | include/easylogging++/easylogging++.cc:317-325 | from a base led by Global a level takes the base's own entry, else its Global value, else it stays |
| Configurations.CopyTakesOwnExactly | include/easylogging++/easylogging++.cc:317-325 | without that, a level's own entry survives if and only if no Global entry with another value comes after it |
| Configurations.CopyLosesAnEarlierEntry | include/easylogging++/easylogging++.cc:350-356 | three calls of `set` that make a base whose copy loses a level's own value |
| Configurations.Repository.Get | include/easylogging++/easylogging++.h:1506-1513 | the entry found is the first of its level and type |
| Configurations.Repository.UnsafeSet | include/easylogging++/easylogging++.cc:548-558 | an entry is overwritten in place or appended; for Global every level follows |
| Configurations.Repository.SetFromBase | include/easylogging++/easylogging++.cc:317-325 | every entry of another registry is set, in order; a null or the same registry changes nothing |
| Configurations.Repository.ResetToDefault | include/easylogging++/easylogging++.cc:365-387 | the fourteen writes of the defaults |
| TypedConfigurations.AgreeingCompile | include/easylogging++/easylogging++.h:1987-2009 | while Global agrees with the first entry, the compressed map reads every entry back |
| TypedConfigurations.SetValueExactly | include/easylogging++/easylogging++.h:1987-2009 | after one call the level reads the value if and only if it had no other value of its own while Global had the new one already; no other level of a filled map changes |
| TypedConfigurations.DisagreeingCompile | include/easylogging++/easylogging++.h:1987-2009 | once it disagrees, the first entry's level reads the Global value |
| TypedConfigurations.EntriesAreFaithfulExactly | include/easylogging++/easylogging++.h:1954-1969 | lookup in the compiled map answers every entry of a registry with its value if and only if Global is absent or agrees with the type's first entry |
| TypedConfigurations.CompiledRegistryIsFaithfulExactly | include/easylogging++/easylogging++.h:1954-1969 | lookup answers every level, listed or not, with its entry, else the Global entry, else the default, if and only if a Global entry agrees with the type's first entry and without one the first entry agrees with the default |
| TypedConfigurations.MissingGlobalLeaks | include/easylogging++/easylogging++.h:1990-1994 | a one-entry registry whose compiled map answers a level without an entry with another level's value |
| TypedConfigurations.CompiledDefaultsAreFaithful | include/easylogging++/easylogging++.cc:1675-1714 | after the defaults and any writes the compiled map answers every level as the registry does |
| TypedConfigurations.DefaultsCompiled | include/easylogging++/easylogging++.cc:1675-1714 | with the defaults every level is enabled and goes to standard output, without size limit and flush threshold |
| TypedConfigurations.TrueTexts | include/easylogging++/easylogging++.cc:1677-1680 | exactly three texts are true, whatever spaces surround them |
| TypedConfigurations.NumbersAreRead | include/easylogging++/easylogging++.cc:1729-1742 | digits, with leading zeros and spaces around them, are read as the number they stand for, and any other text as 0 |
| TypedConfigurations.PrintedNumbersAreRead | include/easylogging++/easylogging++.cc:1729-1742 | the digits that printing a number writes are read back as it |
| TypedConfigurations.GlobalSecondHidesTheFirst | include/easylogging++/easylogging++.h:1990-1999 | a two-entry registry whose compiled map answers a level with the wrong value |
| TypedConfigurations.LastEntryCounts | include/easylogging++/easylogging++.cc:1703-1704 | performance tracking is stored for Global only, so the last entry counts at every level |
| TypedConfigurations.TypedConfigurations.constructor | include/easylogging++/easylogging++.cc:1675-1714 | the loop over the registry fills each map with the compiled entries of its type |
| TypedConfigurations.TypedConfigurations.IsEnabled | include/easylogging++/easylogging++.h:1954-1969 | the level's value, else Global's, else false |
| HitCounters.PhaseIsKept | include/easylogging++/easylogging++.h:2062-2067 | a counter stays congruent to the number of calls modulo n and never exceeds the limit, across the wrap |
| HitCounters.EveryNthFiresExactly | include/easylogging++/easylogging++.cc:1841-1850 | every n-th call fires and no other, for all calls, if and only if n is at most 100000 |
| HitCounters.PastTheLimit | include/easylogging++/easylogging++.cc:1841-1850 | for n = 100001 a call fires that should not, for n = 200000 one does not that should |
| HitCounters.EveryNth | include/easylogging++/easylogging++.cc:1841-1850 | in any interleaving with other sites the k-th call of a site fires exactly when n divides k |
| HitCounters.HitCounter.ValidateHitCounts | include/easylogging++/easylogging++.h:2062-2067 | a full counter restarts at the limit modulo n and the hit is counted |
| HitCounters.RegisteredHitCounters.ValidateEveryN | include/easylogging++/easylogging++.cc:1841-1850 | the site's counter, registered if missing, takes the hit and decides; no other counter changes |
| WildCard.MatchIsSound | include/easylogging++/easylogging++.cc:863-885 | a match comes with a split of the string into the pieces the pattern's characters take |
| WildCard.MatchIsComplete | include/easylogging++/easylogging++.cc:863-885 | every such split is found by backtracking |
| WildCard.PlainPatterns | include/easylogging++/easylogging++.cc:863-885 | a pattern without wildcards matches itself only, and with a star behind it what starts with it |
| WildCard.QuestionMarks | include/easylogging++/easylogging++.cc:863-885 | a pattern of question marks matches the strings of its length |
| WildCard.WildCardMatch | include/easylogging++/easylogging++.cc:863-885 | terminates and answers true if and only if such a split exists |
| EscapeReplace.LoopIsReplaced | include/easylogging++/easylogging++.cc:929-941 | for specifiers of three characters or more the in-place loop strips escapes, replaces the first unescaped occurrence and leaves the rest |
| EscapeReplace.FamiliarTexts | include/easylogging++/easylogging++.cc:929-941 | the meaning on familiar texts: unmarked text stays, a specifier is replaced, an escaped one loses its extra mark and is kept |
| EscapeReplace.TwoCharacters | include/easylogging++/easylogging++.cc:929-941 | for every two-character specifier, a string the loop gets wrong |
| EscapeReplace.ReplacesRightExactly | include/easylogging++/easylogging++.cc:929-941 | the loop is right for every string if and only if the specifier is not two characters long |
| EscapeReplace.ReplaceFirstWithEscape | include/easylogging++/easylogging++.cc:929-941 | terminates and computes that meaning |
| FixedWidth.TextMeaning | include/easylogging++/easylogging++.cc:990-1003 | for every width, cut to eight, the text denotes n modulo the power of ten; padded it has exactly that many digits, unpadded as many as n has, without a leading zero, or the full width if n is longer, and a zero is one digit; without a width only a zero is printed |
| Decimals.TailLength | include/easylogging++/easylogging++.cc:994-996 | the loop writes as many digits as the number has, or the width if it has more |
| Decimals.DigitsAreUsual | include/easylogging++/easylogging++.cc:996 | the character of each digit |
| FixedWidth.AddToBuff | include/easylogging++/easylogging++.cc:1005-1009 | the text is written at the pointer, cut at the limit and terminated when there is room; nothing else changes and the pointer stays within the limit |
| FixedWidth.ConvertAndAddToBuff | include/easylogging++/easylogging++.cc:990-1003 | the digits written backwards into the local buffer are that text, in the target buffer |
| Dispatch.LocksAreBalanced | include/easylogging++/easylogging++.cc:2553-2647 | for any list of missing, disabled and enabled loggers every lock is as often held after the statement as before, and while it is streamed exactly the first logger's lock is held once more |
| Dispatch.RoundsDispatch | include/easylogging++/easylogging++.cc:2587-2605 | the rest of the loop dispatches each remaining logger's line with the text of the first dispatch and leaves every stream empty |
| Dispatch.StatementDispatches | include/easylogging++/easylogging++.cc:2534-2647 | a statement dispatches, in order, one record for each logger that lets it through and one notice for each unknown one, all records with the same text, and leaves every stream empty |
| Dispatch.HierarchyOrdersLevels | include/easylogging++/easylogging++.cc:2572-2577 | under the hierarchical flag exactly the levels from the logging level on pass, except that the verbose level is up to the logger |
| Dispatch.NoticeText | include/easylogging++/easylogging++.cc:2564-2565 | the text of the notice about an unknown logger |
| Dispatch.IdSymbolCodes | include/easylogging++/easylogging++.cc:108-109 | the characters a logger id may have |
| Dispatch.KnownLoggersHear | include/easylogging++/easylogging++.cc:2587-2605 | without unknown loggers, each accepting logger is dispatched to once for each time it is named, whatever is registered on the way |
| Dispatch.TextIsHeardExactly | include/easylogging++/easylogging++.cc:2587-2597 | all those dispatches carry the streamed text if and only if the first logger accepts it, or it is empty, or nobody accepts |
| Dispatch.DisabledFirstLosesTheText | include/easylogging++/easylogging++.h:3197-3205 | a disabled first logger makes an enabled second one receive an empty message |
| Writer.Storage.Get | include/easylogging++/easylogging++.cc:1891-1913 | the registered logger, or a new one if creation is forced and the id is valid, or none |
| Writer.Writer.InitializeLogger | include/easylogging++/easylogging++.cc:2553-2579 | a known logger is locked and decides whether to proceed; an unknown one leads to a notice through the default logger |
| Writer.Writer.SendNotice | include/easylogging++/easylogging++.cc:2564-2565 | the nested writer's whole statement, from its own constructor to its destructor, is the notice's text streamed and dispatched at the default logger |
| Writer.Writer.Notify | include/easylogging++/easylogging++.cc:2557-2565 | with the default logger registered again if need be, that leaves one notice, if the default logger accepts it, an empty stream and all locks as they were |
| Writer.Writer.TriggerDispatch | include/easylogging++/easylogging++.cc:2622-2647 | the stream is dispatched if the writer proceeds, then cleared, and the lock released |
| Writer.Writer.ProcessDispatch | include/easylogging++/easylogging++.cc:2581-2620 | the loop over the logger ids does what the rounds above do |
| Writer.Log | include/easylogging++/easylogging++.cc:2534-2620 | constructing a writer, streaming pieces and destroying it is the statement the theorems above speak of |

## Left out

- Event loops, TCP clients and servers, connection set-up and the cache of endpoints: frames are a bag from which they are delivered or lost.
- Frames that arrive merged or split in one buffer: a delivery is one frame followed by arbitrary memory. A parse that leaves that memory counts as loss; in C++ it is undefined.
- Hazelcast's client, serialization and membership, and the Java class: only the multimap and event assumptions above.
- A node that crashes is a node that takes no more steps. Its entries stay in the multimap until the environment removes them.
- Races between `entryAdded`, which takes no lock, and the other handlers; `consumer` puts and remembers its subscription in one step.
- Local requests in runs: they touch neither index nor frames and their effect is stated by `EventBus.EventBus.SendRequest` only.
- The iteration order of `_local_subs`: own subscriptions are put back in registration order. `Cluster.MultiMap` lists entries in an arbitrary order.
- `EventBus.EventBus.SendRequest`, `ProcessOnTcpMessage` and `OnMessage` are stated for messages that fit the printer's buffer; beyond it the C++ writes out of bounds.
- User functions that throw, call back into the bus, or are empty `std::function` objects.
- Payloads between nodes: the code does not send them.
- `event_bus.hpp`, the HTTP and TCP servers, `vertx.h` and the benchmark: wiring, or a restriction of the same bus.
- The layout and randomness of generated UUIDs: they are assumed not to repeat.
- In the configurations: the ToFile, Format, Filename and SubsecondPrecision maps, file rolling, the parser of configuration files, `atol` overflow and locks.
- In the hit counters: a site that changes its n between calls has no promise; the model of one call allows it.
- A log statement's other constructor (for a given logger), `DispatchAction::None`, the user-defined dispatch callbacks, the abort after a fatal message, and messages whose arguments log themselves.
- In `Dispatch`, a logger's compiled configuration is the set of levels it enables.
- File streams, crash handling, the async worker, container printing and macros of easylogging++.
