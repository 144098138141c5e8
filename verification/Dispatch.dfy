/** A log statement sent to several loggers: what the writer does to the registered loggers and what is
    dispatched. include/easylogging++/easylogging++.cc, lines 1891-1913 and 2534-2647. */
module Dispatch {
  import opened Wrappers
  import opened Configurations

  const DEFAULT_LOGGER_ID := "default"

  /** A logger's state; `enabled` holds the levels its compiled configuration enables. */
  datatype LoggerState = LoggerState(enabled: set<Level>, stream: string, locks: int)

  /** One call of the dispatch callbacks. */
  datatype Record = Record(id: string, level: Level, text: string)

  datatype World = World(loggers: map<string, LoggerState>, log: seq<Record>)

  /** The flags and settings of the global storage that a writer reads; `defaults` are the levels enabled in
      a newly registered logger. */
  datatype Settings = Settings(
    multiLogger: bool, createAutomatically: bool, hierarchical: bool, autoSpacing: bool,
    loggingLevel: Level, defaults: set<Level>)

  /** A writer between its steps: the logger `m_logger` points to, and `m_proceed`. */
  datatype Writing = Writing(world: World, current: Option<string>, proceed: bool)

  // ---------------------------------------------------------------- the steps of a writer

  predicate Passes(s: Settings, enabled: set<Level>, level: Level) {
    if s.hierarchical && level != Verbose then Cast(level) >= Cast(s.loggingLevel) else level in enabled
  }

  /** Under the hierarchical flag a level passes when it is the logging level or comes after it in the order of
      the levels, whatever the logger enables; only the verbose level is still up to the logger. */
  lemma HierarchyOrdersLevels(s: Settings, enabled: set<Level>, i: nat, j: nat)
    requires s.hierarchical && i < |LEVELS| && j < |LEVELS| && s.loggingLevel == LEVELS[j]
    ensures Passes(s, enabled, LEVELS[i]) <==> if LEVELS[i] == Verbose then Verbose in enabled else j <= i
    ensures Passes(s, enabled, Global) <==> false
    ensures Passes(s.(loggingLevel := Global), enabled, LEVELS[i])
            <==> LEVELS[i] != Verbose || Verbose in enabled
  {
    LevelsAreDoubled();
  }

  /** Without it the logger decides. */
  lemma LoggersDecide(s: Settings, enabled: set<Level>, level: Level)
    requires !s.hierarchical
    ensures Passes(s, enabled, level) <==> level in enabled
  {
  }

  /** One of `kValidLoggerIdSymbols` */
  predicate IsIdSymbol(c: char) {
    'a' <= c <= 'z' || 'A' <= c <= 'Z' || '0' <= c <= '9' || c == '-' || c == '.' || c == '_'
  }

  /** The same by their codes: digits, capitals, small letters, and three signs. */
  lemma IdSymbolCodes(c: char)
    ensures IsIdSymbol(c) <==>
            var code := c as int;
            48 <= code <= 57 || 65 <= code <= 90 || 97 <= code <= 122 || code == 45 || code == 46 || code == 95
  {
  }

  predicate ValidId(id: string) {
    forall i | 0 <= i < |id| :: IsIdSymbol(id[i])
  }

  /** What streaming the pieces one by one leaves in a message. */
  function Spaced(s: Settings, pieces: seq<string>): string {
    if pieces == [] then "" else pieces[0] + (if s.autoSpacing then " " else "") + Spaced(s, pieces[1..])
  }

  function Notice(id: string): seq<string> {
    ["Logger [", id, "] is not registered yet!"]
  }

  lemma SpacedThree(s: Settings, a: string, b: string, c: string)
    ensures var gap := if s.autoSpacing then " " else "";
            Spaced(s, [a, b, c]) == (a + gap) + (b + gap) + (c + gap)
  {
    var gap := if s.autoSpacing then " " else "";
    assert [a, b, c][1..] == [b, c] && [b, c][1..] == [c] && [c][1..] == [];
    assert Spaced(s, [c]) == c + gap + "" && Spaced(s, [b, c]) == b + gap + (c + gap + "");
    assert a + gap + (b + gap + (c + gap + "")) == (a + gap) + (b + gap) + (c + gap);
  }

  /** The text of the notice, with and without spaces between its pieces. */
  lemma NoticeText(s: Settings, id: string)
    ensures Spaced(s, Notice(id)) ==
            if s.autoSpacing then "Logger [ " + id + " ] is not registered yet! "
            else "Logger [" + id + "] is not registered yet!"
  {
    SpacedThree(s, "Logger [", id, "] is not registered yet!");
    hide Spaced;
    if s.autoSpacing {
      assert "Logger [" + " " == "Logger [ ";
      assert "] is not registered yet!" + " " == "] is not registered yet! ";
      assert id + " " + "] is not registered yet! " == id + " ] is not registered yet! ";
    } else {
      assert "Logger [" + "" == "Logger [" && id + "" == id;
      assert "] is not registered yet!" + "" == "] is not registered yet!";
    }
  }

  /** `RegisteredLoggers::get(id, forceCreation)` */
  function Lookup(w: World, s: Settings, id: string, forceCreation: bool): World {
    if id !in w.loggers && forceCreation && ValidId(id) then
      With(w, id, LoggerState(s.defaults, "", 0))
    else
      w
  }

  function With(w: World, id: string, l: LoggerState): World {
    w.(loggers := w.loggers[id := l])
  }

  /** The notice about an unknown logger, sent to the default logger. */
  function Warn(w: World, s: Settings, id: string): World {
    var known := Lookup(w, s, DEFAULT_LOGGER_ID, true);
    var l := known.loggers[DEFAULT_LOGGER_ID];
    var text := l.stream + Spaced(s, Notice(id));
    var log := if Passes(s, l.enabled, Debug) then known.log + [Record(DEFAULT_LOGGER_ID, Debug, text)] else known.log;
    With(known.(log := log), DEFAULT_LOGGER_ID, l.(stream := ""))
  }

  /** `initializeLogger(id)` */
  function Initialize(w: World, s: Settings, level: Level, id: string): Writing {
    var known := Lookup(w, s, id, s.createAutomatically);
    if id in known.loggers then
      var l := known.loggers[id];
      Writing(With(known, id, l.(locks := l.locks + 1)), Some(id), Passes(s, l.enabled, level))
    else
      Writing(Warn(known, s, id), None, false)
  }

  predicate Sane(wr: Writing) {
    (wr.proceed ==> wr.current.Some?) && (wr.current.Some? ==> wr.current.value in wr.world.loggers)
  }

  /** `operator<<`, which writes only when the writer proceeds. */
  function Stream(wr: Writing, text: string): Writing
    requires Sane(wr)
  {
    if wr.proceed then
      var l := wr.world.loggers[wr.current.value];
      wr.(world := With(wr.world, wr.current.value, l.(stream := l.stream + text)))
    else
      wr
  }

  /** One pass of the dispatch loop's body after the text is in place: dispatch if the writer proceeds, then
      clear the stream and release the lock of the logger, if there is one. */
  function Trigger(wr: Writing, level: Level): World
    requires Sane(wr)
  {
    if wr.current.None? then
      wr.world
    else
      var id, l := wr.current.value, wr.world.loggers[wr.current.value];
      var log := if wr.proceed then wr.world.log + [Record(id, level, l.stream)] else wr.world.log;
      With(wr.world.(log := log), id, l.(stream := "", locks := l.locks - 1))
  }

  /** The dispatch loop with `rest` still to come; `saved` is the text of the first dispatch. */
  function Rounds(wr: Writing, s: Settings, level: Level, rest: seq<string>, saved: Option<string>): World
    requires Sane(wr)
    decreases rest
  {
    var after := Trigger(Repeated(wr, saved), level);
    if rest == [] then
      after
    else
      Rounds(Initialize(after, s, level, rest[0]), s, level, rest[1..], Saved(wr, saved))
  }

  function Repeated(wr: Writing, saved: Option<string>): (r: Writing)
    requires Sane(wr)
    ensures Sane(r)
  {
    if saved.Some? then Stream(wr, saved.value) else wr
  }

  function Saved(wr: Writing, saved: Option<string>): Option<string>
    requires Sane(wr)
  {
    if wr.proceed && saved.None? then Some(wr.world.loggers[wr.current.value].stream) else saved
  }

  /** A whole log statement: construct the writer, stream the pieces, destroy the writer. */
  function Statement(w: World, s: Settings, level: Level, ids: seq<string>, pieces: seq<string>): World
    requires ids != []
  {
    Rounds(Stream(Initialize(w, s, level, ids[0]), Spaced(s, pieces)), s, level,
           if s.multiLogger then ids[1..] else [], None)
  }

  // ---------------------------------------------------------------- locks

  function Locks(w: World, id: string): int {
    if id in w.loggers then w.loggers[id].locks else 0
  }

  /** Locks the writer itself holds on a logger. */
  function Held(wr: Writing, id: string): int {
    if wr.current == Some(id) then 1 else 0
  }

  /** No logger is lost, no lock changes apart from those the writer holds, no configuration changes. */
  ghost predicate Balanced(w: World, wr: Writing) {
    && w.loggers.Keys <= wr.world.loggers.Keys
    && (forall id :: Locks(wr.world, id) == Locks(w, id) + Held(wr, id))
    && (forall id | id in w.loggers :: wr.world.loggers[id].enabled == w.loggers[id].enabled)
  }

  function Idle(w: World): Writing {
    Writing(w, None, false)
  }

  lemma InitializeBalances(w: World, s: Settings, level: Level, id: string)
    ensures Sane(Initialize(w, s, level, id)) && Balanced(w, Initialize(w, s, level, id))
  {
  }

  lemma StreamBalances(w: World, wr: Writing, text: string)
    requires Sane(wr) && Balanced(w, wr)
    ensures Sane(Stream(wr, text)) && Balanced(w, Stream(wr, text))
  {
  }

  lemma {:induction false} RoundsBalance(
      w: World, wr: Writing, s: Settings, level: Level, rest: seq<string>, saved: Option<string>)
    requires Sane(wr) && Balanced(w, wr)
    ensures Balanced(w, Idle(Rounds(wr, s, level, rest, saved)))
    decreases rest
  {
    var after := Trigger(Repeated(wr, saved), level);
    assert Balanced(w, Idle(after));
    if rest != [] {
      InitializeBalances(after, s, level, rest[0]);
      var next := Initialize(after, s, level, rest[0]);
      BalancedTransitive(w, after, next);
      RoundsBalance(w, next, s, level, rest[1..], Saved(wr, saved));
    }
  }

  lemma BalancedTransitive(w: World, v: World, wr: Writing)
    requires Balanced(w, Idle(v)) && Balanced(v, wr)
    ensures Balanced(w, wr)
  {
  }

  /** Main result: whatever mix of missing, disabled and enabled loggers a statement names, and whatever
      their streams hold, every lock is as often held after the statement as before it; and while the
      message is being streamed the writer holds exactly the lock of its first logger, if that exists. */
  lemma LocksAreBalanced(w: World, s: Settings, level: Level, ids: seq<string>, pieces: seq<string>)
    requires ids != []
    ensures Balanced(w, Idle(Statement(w, s, level, ids, pieces)))
    ensures Balanced(w, Stream(Initialize(w, s, level, ids[0]), Spaced(s, pieces)))
  {
    hide Initialize, Spaced, Rounds;
    InitializeBalances(w, s, level, ids[0]);
    StreamBalances(w, Initialize(w, s, level, ids[0]), Spaced(s, pieces));
    hide Stream, Balanced, Sane;
    var wr := Stream(Initialize(w, s, level, ids[0]), Spaced(s, pieces));
    RoundsBalance(w, wr, s, level, if s.multiLogger then ids[1..] else [], None);
  }

  // ---------------------------------------------------------------- what is dispatched

  /** The registry as a configuration: which logger enables which levels. */
  type Registry = map<string, set<Level>>

  function Enabling(w: World): Registry {
    map id | id in w.loggers :: w.loggers[id].enabled
  }

  /** A statement finds the logger: it is registered, or may be registered on the way. */
  predicate Known(r: Registry, s: Settings, id: string) {
    id in r || (s.createAutomatically && ValidId(id))
  }

  /** The registry after a statement named `id`: an unknown logger leads to the default logger. */
  function Resolve(r: Registry, s: Settings, id: string): Registry {
    var found := if Known(r, s, id) then id else DEFAULT_LOGGER_ID;
    if found in r then r else r[found := s.defaults]
  }

  /** What naming `id` should dispatch when the statement's text is `text`. */
  function Line(r: Registry, s: Settings, level: Level, id: string, text: string): seq<Record> {
    if Known(r, s, id) then
      if Passes(s, Resolve(r, s, id)[id], level) then [Record(id, level, text)] else []
    else if Passes(s, Resolve(r, s, id)[DEFAULT_LOGGER_ID], Debug) then
      [Record(DEFAULT_LOGGER_ID, Debug, Spaced(s, Notice(id)))]
    else
      []
  }

  function Lines(r: Registry, s: Settings, level: Level, ids: seq<string>, text: string): seq<Record>
    decreases ids
  {
    if ids == [] then
      []
    else
      Line(r, s, level, ids[0], text) + Lines(Resolve(r, s, ids[0]), s, level, ids[1..], text)
  }

  /** The logger exists for a statement and lets its level through. */
  predicate Accepts(r: Registry, s: Settings, level: Level, id: string) {
    Known(r, s, id) && Passes(s, Resolve(r, s, id)[id], level)
  }

  /** The first logger takes the text, so every logger of the statement hears what that one accepted. */
  function Heard(w: World, s: Settings, level: Level, ids: seq<string>, pieces: seq<string>): string
    requires ids != []
  {
    if Accepts(Enabling(w), s, level, ids[0]) then Spaced(s, pieces) else ""
  }

  /** Every stream is empty, except that of the logger `but`. */
  predicate Quiet(w: World, but: Option<string>) {
    forall id | id in w.loggers && Some(id) != but :: w.loggers[id].stream == ""
  }

  /** The writer's own stream may hold text only before the first dispatch. */
  predicate Ready(wr: Writing, saved: Option<string>) {
    Sane(wr) && Quiet(wr.world, if wr.proceed && saved.None? then wr.current else None)
  }

  /** The text all remaining dispatches carry. */
  function Carried(wr: Writing, saved: Option<string>): string
    requires Sane(wr)
  {
    if Saved(wr, saved).Some? then Saved(wr, saved).value else ""
  }

  function Own(wr: Writing, level: Level, text: string): seq<Record> {
    if wr.proceed && wr.current.Some? then [Record(wr.current.value, level, text)] else []
  }

  lemma WarnDispatches(w: World, s: Settings, id: string)
    requires Quiet(w, None)
    ensures var r := Enabling(Lookup(w, s, DEFAULT_LOGGER_ID, true));
            && DEFAULT_LOGGER_ID in r && Quiet(Warn(w, s, id), None) && Enabling(Warn(w, s, id)) == r
            && r == (if DEFAULT_LOGGER_ID in w.loggers then Enabling(w) else Enabling(w)[DEFAULT_LOGGER_ID := s.defaults])
            && Warn(w, s, id).log == w.log + if Passes(s, r[DEFAULT_LOGGER_ID], Debug)
                                             then [Record(DEFAULT_LOGGER_ID, Debug, Spaced(s, Notice(id)))] else []
  {
    var notice := Spaced(s, Notice(id));
    assert "" + notice == notice;
    assert ValidId(DEFAULT_LOGGER_ID);
    hide Spaced, Notice, ValidId, Passes;
    assert w.log + [] == w.log;
  }

  lemma InitializeDispatches(w: World, s: Settings, level: Level, id: string, text: string)
    requires Quiet(w, None)
    ensures var wr := Initialize(w, s, level, id);
            && Sane(wr) && Quiet(wr.world, None)
            && Enabling(wr.world) == Resolve(Enabling(w), s, id)
            && wr.world.log + Own(wr, level, text) == w.log + Line(Enabling(w), s, level, id, text)
  {
    hide Warn, Spaced, Notice, ValidId, Passes;
    if !Known(Enabling(w), s, id) {
      WarnDispatches(w, s, id);
    }
    var wr := Initialize(w, s, level, id);
    assert wr.world.log + [] == wr.world.log && w.log + [] == w.log;
  }

  /** One pass of the loop, up to the next logger. */
  lemma RoundDispatches(wr: Writing, level: Level, saved: Option<string>)
    requires Ready(wr, saved)
    ensures var after := Trigger(Repeated(wr, saved), level);
            && Quiet(after, None) && Enabling(after) == Enabling(wr.world)
            && after.log == wr.world.log + Own(wr, level, Carried(wr, saved))
  {
    if wr.proceed && saved.Some? {
      assert "" + saved.value == saved.value;
    }
    assert wr.world.log + [] == wr.world.log;
  }

  lemma CarriedStays(wr: Writing, next: Writing, saved: Option<string>)
    requires Sane(wr) && Sane(next) && Quiet(next.world, None)
    ensures Ready(next, Saved(wr, saved)) && Carried(next, Saved(wr, saved)) == Carried(wr, saved)
  {
  }

  lemma {:induction false} RoundsDispatch(
      wr: Writing, s: Settings, level: Level, rest: seq<string>, saved: Option<string>)
    requires Ready(wr, saved)
    ensures var done, text := Rounds(wr, s, level, rest, saved), Carried(wr, saved);
            && Quiet(done, None)
            && done.log == wr.world.log + Own(wr, level, text) + Lines(Enabling(wr.world), s, level, rest, text)
    decreases rest
  {
    hide Trigger, Repeated, Saved, Carried, Own, Enabling, Quiet, Initialize, Resolve, Line;
    var text, after := Carried(wr, saved), Trigger(Repeated(wr, saved), level);
    RoundDispatches(wr, level, saved);
    if rest != [] {
      InitializeDispatches(after, s, level, rest[0], text);
      var next := Initialize(after, s, level, rest[0]);
      CarriedStays(wr, next, saved);
      RoundsDispatch(next, s, level, rest[1..], Saved(wr, saved));
      var tail := Lines(Enabling(next.world), s, level, rest[1..], text);
      assert after.log + Line(Enabling(after), s, level, rest[0], text) + tail
          == after.log + (Line(Enabling(after), s, level, rest[0], text) + tail);
    } else {
      assert after.log + [] == after.log;
    }
  }

  /** Streaming the pieces fills the stream of the first logger if it accepts them, and nothing else. */
  lemma StreamDispatches(start: Writing, text: string)
    requires Sane(start) && Quiet(start.world, None)
    ensures var wr := Stream(start, text);
            && Sane(wr) && Ready(wr, None) && Enabling(wr.world) == Enabling(start.world)
            && wr == start.(world := wr.world) && wr.world.log == start.world.log
            && Carried(wr, None) == if start.proceed then text else ""
  {
    assert "" + text == text;
  }

  /** Main result: when no message is half written, a statement dispatches, in the order of its loggers, one
      record for each enabled one and one notice for each unknown one, all with the same text; and it leaves
      every stream empty. */
  lemma StatementDispatches(w: World, s: Settings, level: Level, ids: seq<string>, pieces: seq<string>)
    requires ids != [] && Quiet(w, None)
    ensures var done := Statement(w, s, level, ids, pieces);
            && Quiet(done, None)
            && done.log == w.log + Lines(Enabling(w), s, level, if s.multiLogger then ids else ids[..1],
                                         Heard(w, s, level, ids, pieces))
  {
    hide Stream, Initialize, Rounds, Carried, Enabling, Quiet, Resolve, Line, Spaced, Sane, Ready, Accepts;
    var text, start := Heard(w, s, level, ids, pieces), Initialize(w, s, level, ids[0]);
    var rest := if s.multiLogger then ids[1..] else [];
    var named := if s.multiLogger then ids else ids[..1];
    assert named[0] == ids[0] && named[1..] == rest;
    InitializeDispatches(w, s, level, ids[0], text);
    FirstAccepts(w, s, level, ids[0]);
    StreamDispatches(start, Spaced(s, pieces));
    var wr := Stream(start, Spaced(s, pieces));
    RoundsDispatch(wr, s, level, rest, None);
    var tail := Lines(Enabling(wr.world), s, level, rest, text);
    assert w.log + Line(Enabling(w), s, level, ids[0], text) + tail
        == w.log + (Line(Enabling(w), s, level, ids[0], text) + tail);
  }

  lemma FirstAccepts(w: World, s: Settings, level: Level, id: string)
    ensures Initialize(w, s, level, id).proceed <==> Accepts(Enabling(w), s, level, id)
  {
  }

  /** The loggers of a statement that let it through, in its order. */
  function Accepting(r: Registry, s: Settings, level: Level, ids: seq<string>): seq<string> {
    if ids == [] then
      []
    else
      (if Accepts(r, s, level, ids[0]) then [ids[0]] else []) + Accepting(r, s, level, ids[1..])
  }

  predicate AllKnown(r: Registry, s: Settings, ids: seq<string>) {
    forall id | id in ids :: Known(r, s, id)
  }

  /** When no named logger is missing, there are no notices: each logger that lets the statement through is
      dispatched to once for each time it is named, and creating loggers on the way changes nothing. */
  lemma {:induction false} KnownLoggersHear(r: Registry, s: Settings, level: Level, ids: seq<string>, text: string)
    requires AllKnown(r, s, ids)
    ensures var lines, hearing := Lines(r, s, level, ids, text), Accepting(r, s, level, ids);
            && |lines| == |hearing|
            && forall i | 0 <= i < |lines| :: lines[i] == Record(hearing[i], level, text)
    decreases ids
  {
    hide Passes, ValidId;
    if ids != [] {
      var next := Resolve(r, s, ids[0]);
      assert ids[0] in ids;
      forall id | id in ids[1..]
        ensures Known(next, s, id)
      {
        assert id in ids;
      }
      KnownLoggersHear(next, s, level, ids[1..], text);
      AcceptingStays(r, s, level, ids[0], ids[1..]);
    }
  }

  lemma {:induction false} AcceptingStays(r: Registry, s: Settings, level: Level, id: string, ids: seq<string>)
    requires Known(r, s, id)
    ensures Accepting(Resolve(r, s, id), s, level, ids) == Accepting(r, s, level, ids)
    decreases ids
  {
    if ids != [] {
      AcceptingStays(r, s, level, id, ids[1..]);
    }
  }

  /** Exactly when every dispatch of a statement to known loggers carries the streamed text: the first named
      logger lets it through, or the text is empty, or no named logger lets it through. */
  lemma TextIsHeardExactly(w: World, s: Settings, level: Level, ids: seq<string>, pieces: seq<string>)
    requires ids != [] && Quiet(w, None) && s.multiLogger && AllKnown(Enabling(w), s, ids)
    ensures var done, text := Statement(w, s, level, ids, pieces), Spaced(s, pieces);
            && |done.log| == |w.log| + |Accepting(Enabling(w), s, level, ids)|
            && ((forall i | |w.log| <= i < |done.log| :: done.log[i].text == text)
                <==> (Accepts(Enabling(w), s, level, ids[0]) || text == ""
                      || Accepting(Enabling(w), s, level, ids) == []))
  {
    hide Statement, Enabling, Quiet, Accepting, Accepts, Spaced, Lines;
    var heard, done := Heard(w, s, level, ids, pieces), Statement(w, s, level, ids, pieces);
    StatementDispatches(w, s, level, ids, pieces);
    KnownLoggersHear(Enabling(w), s, level, ids, heard);
    var lines := Lines(Enabling(w), s, level, ids, heard);
    forall i | |w.log| <= i < |done.log|
      ensures done.log[i].text == heard
    {
      assert done.log[i] == lines[i - |w.log|];
    }
    if lines != [] {
      assert done.log[|w.log|].text == heard;
    }
  }

  /** A concrete case: the first of two loggers is disabled, so the second, which is enabled, is sent nothing. */
  lemma DisabledFirstLosesTheText(s: Settings)
    requires s.multiLogger && !s.hierarchical && !s.autoSpacing
    ensures var w := World(map["a" := LoggerState({}, "", 0), "b" := LoggerState({Info}, "", 0)], []);
            Statement(w, s, Info, ["a", "b"], ["lost"]).log == [Record("b", Info, "")]
  {
    var w := World(map["a" := LoggerState({}, "", 0), "b" := LoggerState({Info}, "", 0)], []);
    var ids, r: Registry := ["a", "b"], map["a" := {}, "b" := {Info}];
    assert Enabling(w) == r && Quiet(w, None) && "b" != "a";
    StatementDispatches(w, s, Info, ids, ["lost"]);
    assert Heard(w, s, Info, ids, ["lost"]) == "";
    hide Statement, Enabling, Quiet, Heard, Spaced;
    assert Line(r, s, Info, "a", "") == [] && Line(r, s, Info, "b", "") == [Record("b", Info, "")];
    assert Resolve(r, s, "a") == r;
    hide Line, Resolve;
    assert ids[1..] == ["b"] && ids[1..][1..] == [];
    assert Lines(r, s, Info, ids[1..], "") == [Record("b", Info, "")] + Lines(Resolve(r, s, "b"), s, Info, [], "");
  }
}
