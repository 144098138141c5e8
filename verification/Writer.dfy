/** The writer that sends one message to several loggers, as it works on the loggers themselves:
    include/easylogging++/easylogging++.cc, lines 1891-1913 and 2534-2647. */
module Writer {
  import opened Wrappers
  import opened Configurations
  import opened Dispatch

  class Logger {
    const id: string
    const enabled: set<Level>
    var stream: string
    var locks: int

    constructor (id: string, enabled: set<Level>)
      ensures this.id == id && this.enabled == enabled && stream == "" && locks == 0
    {
      this.id, this.enabled, stream, locks := id, enabled, "", 0;
    }

    ghost function State(): LoggerState
      reads this
    {
      LoggerState(enabled, stream, locks)
    }
  }

  /** The global storage: its flags, the registered loggers, and what the dispatch callbacks were given. */
  class Storage {
    const settings: Settings
    var loggers: map<string, Logger>
    var log: seq<Record>

    /** Loggers are registered under their own ids, so no logger is registered twice. */
    ghost predicate Valid()
      reads this
    {
      forall id | id in loggers :: loggers[id].id == id
    }

    ghost function View(): World
      reads this, loggers.Values
    {
      World(map id | id in loggers :: loggers[id].State(), log)
    }

    /** Loggers stay registered; only new ones are added. */
    twostate predicate Grown()
      reads this
    {
      && old(loggers.Keys) <= loggers.Keys
      && forall id | id in loggers :: if id in old(loggers) then loggers[id] == old(loggers)[id] else fresh(loggers[id])
    }

    lemma IsRegistered(id: string)
      ensures id in loggers <==> id in View().loggers
    {
    }

    /** The view after one logger changed. */
    twostate lemma OnlyChanged(l: Logger)
      requires old(Valid()) && loggers == old(loggers) && l.id in loggers && loggers[l.id] == l
      requires forall id | id in loggers && id != l.id ::
                 old(allocated(loggers[id])) && loggers[id].State() == old(loggers[id].State())
      ensures View() == World(old(View()).loggers[l.id := l.State()], log)
    {
    }

    /** `RegisteredLoggers::get(id, forceCreation)` */
    method Get(id: string, forceCreation: bool) returns (logger: Logger?)
      requires Valid()
      modifies this`loggers
      ensures Valid() && Grown() && View() == Lookup(old(View()), settings, id, forceCreation)
      ensures logger == if id in loggers then loggers[id] else null
    {
      logger := if id in loggers then loggers[id] else null;
      if logger == null && forceCreation {
        if !ValidId(id) {
          return null;
        }
        logger := new Logger(id, settings.defaults);
        loggers := loggers[id := logger];
      }
    }

    /** The default logger is registered again if it is missing. */
    method RestoreDefault()
      requires Valid()
      modifies this`loggers
      ensures Valid() && Grown() && View() == Lookup(old(View()), settings, DEFAULT_LOGGER_ID, true)
      ensures DEFAULT_LOGGER_ID in loggers
    {
      hide Lookup, View;
      DefaultIsKnown(View(), settings);
      IsRegistered(DEFAULT_LOGGER_ID);
      var found := Get(DEFAULT_LOGGER_ID, false);
      if found == null {
        found := Get(DEFAULT_LOGGER_ID, true);
      }
      IsRegistered(DEFAULT_LOGGER_ID);
    }
  }

  class Writer {
    const elpp: Storage
    const level: Level
    var loggerIds: seq<string>
    var logger: Logger?
    var proceed: bool

    ghost predicate Valid()
      reads this, elpp
    {
      && elpp.Valid()
      && (logger != null ==> logger.id in elpp.loggers && elpp.loggers[logger.id] == logger)
      && (proceed ==> logger != null)
    }

    ghost function Now(): (wr: Writing)
      reads this, elpp, elpp.loggers.Values
      ensures Valid() ==> Sane(wr)
    {
      Writing(elpp.View(), if logger == null then None else Some(logger.id), proceed)
    }

    constructor (elpp: Storage, level: Level)
      ensures this.elpp == elpp && this.level == level && loggerIds == [] && logger == null && !proceed
    {
      this.elpp, this.level, loggerIds, logger, proceed := elpp, level, [], null, false;
    }

    /** `construct(count, loggerIds, ...)` */
    method Construct(ids: seq<string>)
      requires ids != [] && elpp.Valid()
      modifies this, elpp, elpp.loggers.Values
      ensures Valid() && elpp.Grown() && loggerIds == if elpp.settings.multiLogger then ids else []
      ensures Now() == Initialize(old(elpp.View()), elpp.settings, level, ids[0])
      decreases if ids[0] in elpp.loggers then 0 else 1, 3
    {
      loggerIds := if elpp.settings.multiLogger then ids else [];
      InitializeLogger(ids[0]);
    }

    /** The notice about a missing logger, once the default logger is there: a statement of its own through a
        second writer. */
    method SendNotice(id: string)
      requires elpp.Valid() && DEFAULT_LOGGER_ID in elpp.loggers
      modifies elpp, elpp.loggers.Values
      ensures elpp.Valid() && elpp.Grown()
      ensures elpp.View() == Noticed(old(elpp.View()), elpp.settings, id)
      decreases 1, 0
    {
      hide Initialize, Rounds, Stream, Trigger, Storage.View, Sane, Now, Spaced, Notice;
      InitializeBalances(elpp.View(), elpp.settings, Debug, DEFAULT_LOGGER_ID);
      var notice := new Writer(elpp, Debug);
      notice.Construct([DEFAULT_LOGGER_ID]);
      notice.WriteNotice(id);
      assert Later(notice.loggerIds, 0) == [];
      RoundsOfOne(notice.Now(), elpp.settings, Debug);
      notice.ProcessDispatch();
    }

    /** The default logger is registered again if need be, and sent the notice. */
    method Notify(id: string)
      requires elpp.Valid()
      modifies elpp, elpp.loggers.Values
      ensures elpp.Valid() && elpp.Grown() && elpp.View() == Warn(old(elpp.View()), elpp.settings, id)
      decreases 1, 1
    {
      hide Warn, Lookup, Storage.View, Noticed;
      ghost var known := elpp.View();
      elpp.RestoreDefault();
      NoticeWarns(known, elpp.View(), elpp.settings, id);
      SendNotice(id);
    }

    /** `initializeLogger(loggerId)` */
    method InitializeLogger(id: string)
      requires elpp.Valid()
      modifies this`logger, this`proceed, elpp, elpp.loggers.Values
      ensures Valid() && elpp.Grown()
      ensures Now() == Initialize(old(elpp.View()), elpp.settings, level, id)
      decreases if id in elpp.loggers then 0 else 1, 2
    {
      hide Warn, Passes, Lookup, With, Storage.View, Sane;
      logger := elpp.Get(id, elpp.settings.createAutomatically);
      elpp.IsRegistered(id);
      if logger == null {
        Notify(id);
        proceed := false;
      } else {
        Acquire();
      }
    }

    /** The part of `initializeLogger` for a registered logger. */
    method Acquire()
      requires elpp.Valid() && logger != null && logger.id in elpp.loggers && elpp.loggers[logger.id] == logger
      modifies this`proceed, logger
      ensures Valid() && logger.locks == old(logger.locks) + 1
      ensures var l := old(elpp.View()).loggers[logger.id];
              Now() == Writing(With(old(elpp.View()), logger.id, l.(locks := l.locks + 1)), Some(logger.id),
                               Passes(elpp.settings, l.enabled, level))
    {
      hide Passes;
      logger.locks := logger.locks + 1;
      elpp.OnlyChanged(logger);
      proceed := Passes(elpp.settings, logger.enabled, level);
    }

    /** Text added to the stream of the current logger. */
    method Append(text: string)
      requires Valid() && proceed
      modifies logger
      ensures Valid() && Now() == Stream(old(Now()), text)
    {
      logger.stream := logger.stream + text;
      elpp.OnlyChanged(logger);
    }

    /** `operator<<` with one piece of the message */
    method Write(piece: string)
      requires Valid()
      modifies logger
      ensures Valid() && Now() == Stream(old(Now()), piece + if elpp.settings.autoSpacing then " " else "")
    {
      ghost var start := Now();
      if proceed {
        Append(piece);
        if elpp.settings.autoSpacing {
          Append(" ");
        }
      }
      StreamsAdd(start, piece, " ");
      assert piece + "" == piece;
    }

    method WriteNotice(id: string)
      requires Valid()
      modifies logger
      ensures Valid() && Now() == Stream(old(Now()), Spaced(elpp.settings, Notice(id)))
    {
      hide Stream, Sane, Storage.View, Now;
      ghost var start, gap := Now(), if elpp.settings.autoSpacing then " " else "";
      var pieces := Notice(id);
      Write(pieces[0]);
      Write(pieces[1]);
      Write(pieces[2]);
      StreamsAdd(start, pieces[0] + gap, pieces[1] + gap);
      StreamsAdd(start, (pieces[0] + gap) + (pieces[1] + gap), pieces[2] + gap);
      SpacedThree(elpp.settings, pieces[0], pieces[1], pieces[2]);
    }

    /** `triggerDispatch()`, for statements that do not abort the application */
    method TriggerDispatch()
      requires Valid()
      modifies this`proceed, elpp`log, logger
      ensures Valid() && !proceed && elpp.View() == Trigger(old(Now()), level)
    {
      if proceed {
        elpp.log := elpp.log + [Record(logger.id, level, logger.stream)];
      }
      if logger != null {
        logger.stream := "";
        logger.locks := logger.locks - 1;
        elpp.OnlyChanged(logger);
      }
      proceed := false;
    }

    /** The branch of `processDispatch()` for a logger that does not let the statement through. */
    method Skip()
      requires Valid() && !proceed
      modifies logger
      ensures Valid() && elpp.View() == Trigger(old(Now()), level)
    {
      if logger != null {
        logger.stream := "";
        logger.locks := logger.locks - 1;
        elpp.OnlyChanged(logger);
      }
    }

    /** The body of the loop in `processDispatch()`, up to the next logger. */
    method Round(firstDispatched: bool, logMessage: string) returns (first: bool, message: string)
      requires Valid()
      modifies this`proceed, elpp`log, logger
      ensures Valid() && elpp.View() == Trigger(Repeated(old(Now()), Message(firstDispatched, logMessage)), level)
      ensures Saved(old(Now()), Message(firstDispatched, logMessage)).Some? == first
      ensures firstDispatched ==> message == logMessage
      ensures first && |loggerIds| > 1 ==> Saved(old(Now()), Message(firstDispatched, logMessage)) == Some(message)
    {
      hide Trigger;
      first, message := firstDispatched, logMessage;
      if proceed {
        if first {
          Append(message);
        } else {
          first := true;
          if |loggerIds| > 1 {
            message := logger.stream;
          }
        }
        TriggerDispatch();
      } else {
        Skip();
      }
    }

    /** `processDispatch()`, which the destructor calls */
    method ProcessDispatch()
      requires Valid() && (!elpp.settings.multiLogger ==> loggerIds == [])
      modifies this`logger, this`proceed, elpp, elpp.loggers.Values
      ensures Valid() && elpp.Grown()
      ensures elpp.View() == Rounds(old(Now()), elpp.settings, level, Later(loggerIds, 0), None)
      decreases if |loggerIds| > 1 then 2 else 0, 4
    {
      hide Stream, Trigger, Initialize, Repeated, Saved, Sane, Storage.View, Now;
      if elpp.settings.multiLogger {
        var firstDispatched, logMessage, i := false, "", 0;
        while true
          invariant Valid() && elpp.Grown() && (i == 0 || i < |loggerIds|)
          invariant Rounds(Now(), elpp.settings, level, Later(loggerIds, i), Message(firstDispatched, logMessage))
                 == Rounds(old(Now()), elpp.settings, level, Later(loggerIds, 0), None)
          decreases |loggerIds| - i
        {
          firstDispatched, logMessage := Round(firstDispatched, logMessage);
          if i + 1 < |loggerIds| {
            InitializeLogger(loggerIds[i + 1]);
          }
          i := i + 1;
          if i >= |loggerIds| {
            break;
          }
        }
      } else {
        RoundsOfOne(Now(), elpp.settings, level);
        if proceed {
          TriggerDispatch();
        } else {
          Skip();
        }
      }
    }
  }

  /** The text of the first dispatch, once there was one. */
  function Message(firstDispatched: bool, logMessage: string): Option<string> {
    if firstDispatched then Some(logMessage) else None
  }

  lemma RoundsOfOne(wr: Writing, s: Settings, level: Level)
    requires Sane(wr)
    ensures Rounds(wr, s, level, [], None) == Trigger(wr, level)
  {
  }

  lemma DefaultIsKnown(w: World, s: Settings)
    ensures Lookup(w, s, DEFAULT_LOGGER_ID, false) == w
    ensures Lookup(Lookup(w, s, DEFAULT_LOGGER_ID, false), s, DEFAULT_LOGGER_ID, true)
         == Lookup(w, s, DEFAULT_LOGGER_ID, true)
    ensures DEFAULT_LOGGER_ID in w.loggers ==> Lookup(w, s, DEFAULT_LOGGER_ID, true) == w
    ensures DEFAULT_LOGGER_ID in Lookup(w, s, DEFAULT_LOGGER_ID, true).loggers
  {
    assert ValidId(DEFAULT_LOGGER_ID);
  }

  /** The ids the loop still has to come to. */
  function Later(ids: seq<string>, i: nat): seq<string> {
    if i + 1 <= |ids| then ids[i + 1..] else []
  }

  /** What the second writer's statement does. */
  function Noticed(w: World, s: Settings, id: string): World {
    InitializeBalances(w, s, Debug, DEFAULT_LOGGER_ID);
    Trigger(Stream(Initialize(w, s, Debug, DEFAULT_LOGGER_ID), Spaced(s, Notice(id))), Debug)
  }

  lemma NoticeWarns(known: World, ready: World, s: Settings, id: string)
    requires ready == Lookup(known, s, DEFAULT_LOGGER_ID, true)
    ensures Noticed(ready, s, id) == Warn(known, s, id)
  {
    hide Spaced, Notice;
  }

  lemma {:induction false} SpacedSnoc(s: Settings, pieces: seq<string>, piece: string)
    ensures Spaced(s, pieces + [piece]) == Spaced(s, pieces) + (piece + if s.autoSpacing then " " else "")
  {
    if pieces == [] {
      assert [piece][1..] == [] && pieces + [piece] == [piece];
    } else {
      SpacedSnoc(s, pieces[1..], piece);
      assert (pieces + [piece])[1..] == pieces[1..] + [piece];
    }
  }

  lemma StreamsAdd(wr: Writing, a: string, b: string)
    requires Sane(wr)
    ensures Sane(Stream(wr, a)) && Stream(Stream(wr, a), b) == Stream(wr, a + b)
  {
    if wr.proceed {
      assert wr.world.loggers[wr.current.value].stream + a + b == wr.world.loggers[wr.current.value].stream + (a + b);
    }
  }

  lemma StreamsNothing(wr: Writing)
    requires Sane(wr)
    ensures Stream(wr, "") == wr
  {
    if wr.proceed {
      var l := wr.world.loggers[wr.current.value];
      assert l.stream + "" == l.stream;
      assert wr.world.loggers == wr.world.loggers[wr.current.value := l];
    }
  }

  /** A log statement: `CLOG(level, ids...) << pieces...` */
  method Log(elpp: Storage, level: Level, ids: seq<string>, pieces: seq<string>)
    requires ids != [] && elpp.Valid()
    modifies elpp, elpp.loggers.Values
    ensures elpp.Valid() && elpp.Grown()
    ensures elpp.View() == Statement(old(elpp.View()), elpp.settings, level, ids, pieces)
  {
    hide Initialize, Rounds, Stream, Sane, Storage.View, Writer.Now;
    var writer := new Writer(elpp, level);
    writer.Construct(ids);
    ghost var start := writer.Now();
    StreamsNothing(start);
    for i := 0 to |pieces|
      invariant writer.Valid()
      invariant writer.Now() == Stream(start, Spaced(elpp.settings, pieces[..i]))
      modifies writer.logger
    {
      writer.Write(pieces[i]);
      SpacedSnoc(elpp.settings, pieces[..i], pieces[i]);
      assert pieces[..i + 1] == pieces[..i] + [pieces[i]];
      StreamsAdd(start, Spaced(elpp.settings, pieces[..i]), pieces[i] + if elpp.settings.autoSpacing then " " else "");
    }
    assert pieces[..|pieces|] == pieces;
    writer.ProcessDispatch();
  }
}
