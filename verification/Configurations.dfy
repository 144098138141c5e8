/** The configuration registry of easylogging++: include/easylogging++/easylogging++.cc, lines 317-387 and 541-582. */
module Configurations {
  import opened Wrappers

  datatype Level = Global | Trace | Debug | Fatal | Error | Warning | Verbose | Info | Unknown

  datatype ConfigurationType =
    | Enabled | ToFile | ToStandardOutput | Format | Filename
    | SubsecondPrecision | PerformanceTracking | MaxLogFileSize | LogFlushThreshold | UnknownType

  datatype Configuration = Configuration(level: Level, ctype: ConfigurationType, value: string)

  /** The levels `forEachLevel` visits from `kMinValid`, doubling the index up to `kMaxValid`. */
  const LEVELS := [Trace, Debug, Fatal, Error, Warning, Verbose, Info]

  /** `LevelHelper::castToInt` */
  function Cast(level: Level): nat {
    match level
    case Global => 1
    case Trace => 2
    case Debug => 4
    case Fatal => 8
    case Error => 16
    case Warning => 32
    case Verbose => 64
    case Info => 128
    case Unknown => 1010
  }

  /** Doubling from the lowest valid level to the highest visits every level but Global and Unknown, once. */
  lemma LevelsAreDoubled()
    ensures Cast(LEVELS[0]) == 2 && Cast(LEVELS[|LEVELS| - 1]) == 128
    ensures forall i | 0 < i < |LEVELS| :: Cast(LEVELS[i]) == 2 * Cast(LEVELS[i - 1])
    ensures forall level :: level in LEVELS <==> level != Global && level != Unknown
  {
    assert LEVELS[0] == Trace && LEVELS[1] == Debug && LEVELS[2] == Fatal && LEVELS[3] == Error;
    assert LEVELS[4] == Warning && LEVELS[5] == Verbose && LEVELS[6] == Info;
  }

  // ---------------------------------------------------------------- the registry as a value

  predicate Is(c: Configuration, level: Level, ctype: ConfigurationType) {
    c.level == level && c.ctype == ctype
  }

  /** Index of the first entry for the level and type, or the length of the list. */
  function Find(list: seq<Configuration>, level: Level, ctype: ConfigurationType): (i: nat)
    ensures i <= |list|
  {
    if list == [] || Is(list[0], level, ctype) then 0 else 1 + Find(list[1..], level, ctype)
  }

  lemma {:induction false} FindIsFirst(list: seq<Configuration>, level: Level, ctype: ConfigurationType)
    ensures var i := Find(list, level, ctype);
            && (i < |list| ==> Is(list[i], level, ctype))
            && forall j | 0 <= j < i :: !Is(list[j], level, ctype)
  {
    if list != [] && !Is(list[0], level, ctype) {
      FindIsFirst(list[1..], level, ctype);
    }
  }

  /** `get(level, type)` */
  function Get(list: seq<Configuration>, level: Level, ctype: ConfigurationType): Option<string> {
    var i := Find(list, level, ctype);
    if i < |list| then Some(list[i].value) else None
  }

  /** Overwrites the entry for the level and type in place, or appends one. */
  function Put(list: seq<Configuration>, level: Level, ctype: ConfigurationType, value: string): seq<Configuration> {
    var i := Find(list, level, ctype);
    if i < |list| then list[i := Configuration(level, ctype, value)] else list + [Configuration(level, ctype, value)]
  }

  function PutEach(list: seq<Configuration>, levels: seq<Level>, ctype: ConfigurationType, value: string)
    : seq<Configuration>
    decreases |levels|
  {
    if levels == [] then list else PutEach(Put(list, levels[0], ctype, value), levels[1..], ctype, value)
  }

  function Written(list: seq<Configuration>, level: Level, ctype: ConfigurationType, value: string)
    : seq<Configuration>
  {
    var one := Put(list, level, ctype, value);
    if level == Global then PutEach(one, LEVELS, ctype, value) else one
  }

  lemma PutEachStep(list: seq<Configuration>, levels: seq<Level>, i: nat, ctype: ConfigurationType, value: string)
    requires i <= |levels|
    ensures PutEach(list, levels[i..], ctype, value) ==
            if i == |levels| then list else PutEach(Put(list, levels[i], ctype, value), levels[i + 1..], ctype, value)
    ensures i < |levels| && levels[i] != Global ==>
              Set(list, levels[i], ctype, value) == Put(list, levels[i], ctype, value)
  {
    if i < |levels| {
      assert levels[i..][1..] == levels[i + 1..];
    }
  }

  /** `set(level, type, value)`; for the Global level the source writes every level twice. */
  function Set(list: seq<Configuration>, level: Level, ctype: ConfigurationType, value: string): seq<Configuration> {
    var one := Written(list, level, ctype, value);
    if level == Global then PutEach(one, LEVELS, ctype, value) else one
  }

  /** `setGlobally(type, value, true)` */
  function SetGlobally(list: seq<Configuration>, ctype: ConfigurationType, value: string): seq<Configuration> {
    PutEach(Set(list, Global, ctype, value), LEVELS, ctype, value)
  }

  lemma GloballyIsEach(list: seq<Configuration>, levels: seq<Level>, ctype: ConfigurationType, value: string)
    requires levels == LEVELS
    ensures SetGlobally(list, ctype, value) == PutEach(Set(list, Global, ctype, value), levels[0..], ctype, value)
  {
    hide Set, PutEach;
    assert levels[0..] == levels;
  }

  lemma LevelsAreNotGlobal(levels: seq<Level>)
    requires levels == LEVELS
    ensures forall i | 0 <= i < |levels| :: levels[i] != Global
  {
    assert Global !in levels;
  }

  /** `setFromBase(base)` for a base other than the registry itself. */
  function SetAll(list: seq<Configuration>, base: seq<Configuration>): seq<Configuration>
    decreases |base|
  {
    if base == [] then list else SetAll(Set(list, base[0].level, base[0].ctype, base[0].value), base[1..])
  }

  function SetToDefault(list: seq<Configuration>): seq<Configuration> {
    DefaultFormats(DefaultValues(list))
  }

  function DefaultValues(list: seq<Configuration>): seq<Configuration> {
    var l1 := SetGlobally(list, Enabled, "true");
    var l2 := SetGlobally(l1, Filename, "myeasylog.log");
    var l3 := SetGlobally(l2, ToFile, "true");
    var l4 := SetGlobally(l3, ToStandardOutput, "true");
    var l5 := SetGlobally(l4, SubsecondPrecision, "3");
    var l6 := SetGlobally(l5, PerformanceTracking, "true");
    var l7 := SetGlobally(l6, MaxLogFileSize, "0");
    SetGlobally(l7, LogFlushThreshold, "0")
  }

  function DefaultFormats(list: seq<Configuration>): seq<Configuration> {
    var l1 := SetGlobally(list, Format, "%datetime %level [%logger] %msg");
    var l2 := Set(l1, Debug, Format, "%datetime %level [%logger] [%user@%host] [%func] [%loc] %msg");
    var l3 := Set(l2, Error, Format, "%datetime %level [%logger] %msg");
    var l4 := Set(l3, Fatal, Format, "%datetime %level [%logger] %msg");
    var l5 := Set(l4, Verbose, Format, "%datetime %level-%vlevel [%logger] %msg");
    Set(l5, Trace, Format, "%datetime %level [%logger] [%func] [%loc] %msg")
  }

  // ---------------------------------------------------------------- the abstraction: a last-write-wins map

  /** A write at one level reaches another: itself, or every valid level when it is Global. */
  predicate Reaches(written: Level, level: Level) {
    level == written || (written == Global && level in LEVELS)
  }

  lemma PutIsWrite(list: seq<Configuration>, level: Level, ctype: ConfigurationType, value: string)
    ensures forall l, t :: Get(Put(list, level, ctype, value), l, t) ==
                           if l == level && t == ctype then Some(value) else Get(list, l, t)
  {
    forall l, t ensures Get(Put(list, level, ctype, value), l, t) ==
                        if l == level && t == ctype then Some(value) else Get(list, l, t)
    {
      PutAt(list, level, ctype, value, l, t);
    }
  }

  lemma PutAt(list: seq<Configuration>, level: Level, ctype: ConfigurationType, value: string,
                                 l: Level, t: ConfigurationType)
    ensures Get(Put(list, level, ctype, value), l, t) ==
            if l == level && t == ctype then Some(value) else Get(list, l, t)
  {
    FindAfterPut(list, level, ctype, value, l, t);
    PutShape(list, level, ctype, value);
    FindIsFirst(list, level, ctype);
    FindIsFirst(list, l, t);
    hide Find, Put;
  }

  lemma FindAfterPut(list: seq<Configuration>, level: Level, ctype: ConfigurationType, value: string,
                     l: Level, t: ConfigurationType)
    ensures Find(Put(list, level, ctype, value), l, t) ==
            if (l == level && t == ctype) || Find(list, l, t) < |list| then Find(list, l, t)
            else |Put(list, level, ctype, value)|
  {
    PutShape(list, level, ctype, value);
    FindIsFirst(list, level, ctype);
    FindIsFirst(list, l, t);
    FindIsFirst(Put(list, level, ctype, value), l, t);
    hide Find, Put, Is;
    var later, i, j := Put(list, level, ctype, value), Find(list, level, ctype), Find(list, l, t);
    if l == level && t == ctype {
      FindIs(later, l, t, i);
    } else {
      OthersAsBefore(list, later, i, l, t);
      if j < |list| {
        FindIs(later, l, t, j);
      }
    }
  }

  /** A write changes one entry, in place or at the end. */
  lemma PutShape(list: seq<Configuration>, level: Level, ctype: ConfigurationType, value: string)
    ensures var later, i := Put(list, level, ctype, value), Find(list, level, ctype);
            && |later| == (if i < |list| then |list| else |list| + 1)
            && later[i] == Configuration(level, ctype, value)
            && forall m | 0 <= m < |list| && m != i :: later[m] == list[m]
    ensures var later, i := Put(list, level, ctype, value), Find(list, level, ctype);
            && Is(later[i], level, ctype)
            && forall l, t | l != level || t != ctype :: !Is(later[i], l, t) && (i < |list| ==> !Is(list[i], l, t))
  {
    FindIsFirst(list, level, ctype);
    hide Find;
  }

  lemma OthersAsBefore(list: seq<Configuration>, later: seq<Configuration>, i: nat, l: Level, t: ConfigurationType)
    requires |list| <= |later| <= |list| + 1 && i < |later| && (|later| > |list| ==> i == |list|)
    requires forall m | 0 <= m < |list| && m != i :: later[m] == list[m]
    requires !Is(later[i], l, t) && (i < |list| ==> !Is(list[i], l, t))
    ensures forall m | 0 <= m < |list| :: Is(later[m], l, t) == Is(list[m], l, t)
    ensures |later| > |list| ==> !Is(later[|list|], l, t)
  {
  }

  lemma FindIs(list: seq<Configuration>, level: Level, ctype: ConfigurationType, i: nat)
    requires i < |list| && Is(list[i], level, ctype) && forall j | 0 <= j < i :: !Is(list[j], level, ctype)
    ensures Find(list, level, ctype) == i
  {
    FindIsFirst(list, level, ctype);
    hide Find;
  }

  lemma {:induction false} PutEachIsWrite(list: seq<Configuration>, levels: seq<Level>, ctype: ConfigurationType,
                                          value: string)
    ensures forall l, t :: Get(PutEach(list, levels, ctype, value), l, t) ==
                           if l in levels && t == ctype then Some(value) else Get(list, l, t)
    decreases |levels|
  {
    if levels != [] {
      PutIsWrite(list, levels[0], ctype, value);
      PutEachIsWrite(Put(list, levels[0], ctype, value), levels[1..], ctype, value);
    }
  }

  /** The vector behaves as a map in which a Global write means every level. */
  lemma SetIsWrite(list: seq<Configuration>, level: Level, ctype: ConfigurationType, value: string)
    ensures forall l, t :: Get(Set(list, level, ctype, value), l, t) ==
                           if Reaches(level, l) && t == ctype then Some(value) else Get(list, l, t)
  {
    var one := Put(list, level, ctype, value);
    PutIsWrite(list, level, ctype, value);
    PutEachIsWrite(one, LEVELS, ctype, value);
    PutEachIsWrite(PutEach(one, LEVELS, ctype, value), LEVELS, ctype, value);
  }

  /** The last entry of `base` that reaches the level. */
  function LastWrite(base: seq<Configuration>, level: Level, ctype: ConfigurationType): Option<string> {
    if base == [] then None
    else
      var last := base[|base| - 1];
      if Reaches(last.level, level) && last.ctype == ctype then Some(last.value)
      else LastWrite(base[..|base| - 1], level, ctype)
  }

  lemma {:induction false} LastWriteOfCons(base: seq<Configuration>, level: Level, ctype: ConfigurationType)
    requires base != []
    ensures LastWrite(base, level, ctype) ==
            if LastWrite(base[1..], level, ctype).Some? then LastWrite(base[1..], level, ctype)
            else if Reaches(base[0].level, level) && base[0].ctype == ctype then Some(base[0].value) else None
    decreases |base|
  {
    if |base| > 1 {
      var front := base[..|base| - 1];
      LastWriteOfCons(front, level, ctype);
      assert front[1..] == base[1..][..|base| - 2];
    }
  }

  /** Copying configurations overrides: the last entry of the base that reaches a level wins, and
      what the base does not reach stays. */
  lemma {:induction false} SetAllOverrides(list: seq<Configuration>, base: seq<Configuration>,
                                           level: Level, ctype: ConfigurationType)
    ensures Get(SetAll(list, base), level, ctype) ==
            if LastWrite(base, level, ctype).Some? then LastWrite(base, level, ctype) else Get(list, level, ctype)
    decreases |base|
  {
    if base != [] {
      SetIsWrite(list, base[0].level, base[0].ctype, base[0].value);
      SetAllOverrides(Set(list, base[0].level, base[0].ctype, base[0].value), base[1..], level, ctype);
      LastWriteOfCons(base, level, ctype);
    }
  }

  // ---------------------------------------------------------------- the defaults

  lemma SetGloballyAt(list: seq<Configuration>, ctype: ConfigurationType, value: string, level: Level, t: ConfigurationType)
    ensures Get(SetGlobally(list, ctype, value), level, t) ==
            if t == ctype && level != Unknown then Some(value) else Get(list, level, t)
  {
    var one := Set(list, Global, ctype, value);
    SetIsWrite(list, Global, ctype, value);
    PutEachIsWrite(one, LEVELS, ctype, value);
    LevelsAreDoubled();
    hide Set, PutEach, Get;
  }

  lemma SetAt(list: seq<Configuration>, at: Level, ctype: ConfigurationType, value: string, level: Level, t: ConfigurationType)
    requires at != Global
    ensures Get(Set(list, at, ctype, value), level, t) ==
            if t == ctype && level == at then Some(value) else Get(list, level, t)
  {
    SetIsWrite(list, at, ctype, value);
    hide Set, Get;
  }

  /** The default of every type, by level. */
  function DefaultOf(level: Level, t: ConfigurationType): string {
    match t
    case Enabled => "true"
    case ToFile => "true"
    case ToStandardOutput => "true"
    case PerformanceTracking => "true"
    case Filename => "myeasylog.log"
    case SubsecondPrecision => "3"
    case MaxLogFileSize => "0"
    case LogFlushThreshold => "0"
    case Format =>
      if level == Debug then "%datetime %level [%logger] [%user@%host] [%func] [%loc] %msg"
      else if level == Trace then "%datetime %level [%logger] [%func] [%loc] %msg"
      else if level == Verbose then "%datetime %level-%vlevel [%logger] %msg"
      else "%datetime %level [%logger] %msg"
    case UnknownType => ""
  }

  /** After `setToDefault`, whatever was registered before, every level has its default of every type. */
  lemma DefaultsAre(list: seq<Configuration>, level: Level, t: ConfigurationType)
    requires level != Unknown && t != UnknownType
    ensures Get(SetToDefault(list), level, t) == Some(DefaultOf(level, t))
  {
    hide DefaultFormats, DefaultValues, Get;
    ValuesAre(list, level, t);
    FormatsAre(DefaultValues(list), level, t);
  }

  lemma ValuesAre(list: seq<Configuration>, level: Level, t: ConfigurationType)
    requires level != Unknown
    ensures t != Format && t != UnknownType ==> Get(DefaultValues(list), level, t) == Some(DefaultOf(level, t))
  {
    hide SetGlobally, Get;
    SetGloballyAt(list, Enabled, "true", level, t);
    var l1 := SetGlobally(list, Enabled, "true");
    SetGloballyAt(l1, Filename, "myeasylog.log", level, t);
    var l2 := SetGlobally(l1, Filename, "myeasylog.log");
    SetGloballyAt(l2, ToFile, "true", level, t);
    var l3 := SetGlobally(l2, ToFile, "true");
    SetGloballyAt(l3, ToStandardOutput, "true", level, t);
    var l4 := SetGlobally(l3, ToStandardOutput, "true");
    SetGloballyAt(l4, SubsecondPrecision, "3", level, t);
    var l5 := SetGlobally(l4, SubsecondPrecision, "3");
    SetGloballyAt(l5, PerformanceTracking, "true", level, t);
    var l6 := SetGlobally(l5, PerformanceTracking, "true");
    SetGloballyAt(l6, MaxLogFileSize, "0", level, t);
    var l7 := SetGlobally(l6, MaxLogFileSize, "0");
    SetGloballyAt(l7, LogFlushThreshold, "0", level, t);
  }

  lemma FormatsAre(list: seq<Configuration>, level: Level, t: ConfigurationType)
    requires level != Unknown
    ensures Get(DefaultFormats(list), level, t) ==
            if t == Format then Some(DefaultOf(level, t)) else Get(list, level, t)
  {
    hide SetGlobally, Set, Get;
    SetGloballyAt(list, Format, "%datetime %level [%logger] %msg", level, t);
    var l1 := SetGlobally(list, Format, "%datetime %level [%logger] %msg");
    SetAt(l1, Debug, Format, "%datetime %level [%logger] [%user@%host] [%func] [%loc] %msg", level, t);
    var l2 := Set(l1, Debug, Format, "%datetime %level [%logger] [%user@%host] [%func] [%loc] %msg");
    SetAt(l2, Error, Format, "%datetime %level [%logger] %msg", level, t);
    var l3 := Set(l2, Error, Format, "%datetime %level [%logger] %msg");
    SetAt(l3, Fatal, Format, "%datetime %level [%logger] %msg", level, t);
    var l4 := Set(l3, Fatal, Format, "%datetime %level [%logger] %msg");
    SetAt(l4, Verbose, Format, "%datetime %level-%vlevel [%logger] %msg", level, t);
    var l5 := Set(l4, Verbose, Format, "%datetime %level-%vlevel [%logger] %msg");
    SetAt(l5, Trace, Format, "%datetime %level [%logger] [%func] [%loc] %msg", level, t);
  }

  // ---------------------------------------------------------------- what every registry keeps

  predicate Unique(list: seq<Configuration>) {
    forall i, j | 0 <= i < j < |list| :: !Is(list[j], list[i].level, list[i].ctype)
  }

  predicate HasGlobal(list: seq<Configuration>, ctype: ConfigurationType) {
    Find(list, Global, ctype) < |list|
  }

  /** The Global entry of the type comes before its other entries. */
  predicate GlobalFirst(list: seq<Configuration>, ctype: ConfigurationType) {
    forall i | 0 <= i < |list| && list[i].ctype == ctype :: Find(list, Global, ctype) <= i
  }

  /** Every valid level has its own entry of the type. */
  predicate Covered(list: seq<Configuration>, ctype: ConfigurationType) {
    forall level | level in LEVELS :: Get(list, level, ctype).Some?
  }

  lemma SetKeepsCovered(list: seq<Configuration>, level: Level, ctype: ConfigurationType, value: string, t: ConfigurationType)
    ensures Covered(list, t) || (level == Global && ctype == t) ==> Covered(Set(list, level, ctype, value), t)
  {
    SetIsWrite(list, level, ctype, value);
    hide Set, Get;
  }

  lemma PutKeepsUnique(list: seq<Configuration>, level: Level, ctype: ConfigurationType, value: string)
    requires Unique(list)
    ensures Unique(Put(list, level, ctype, value))
  {
    PutShape(list, level, ctype, value);
    FindIsFirst(list, level, ctype);
    hide Find, Put;
    var later, f := Put(list, level, ctype, value), Find(list, level, ctype);
    forall i, j | 0 <= i < j < |later| ensures !Is(later[j], later[i].level, later[i].ctype) {
      assert i < |list|;
      if j < |list| {
        assert !Is(list[j], list[i].level, list[i].ctype);
      } else {
        assert !Is(list[i], level, ctype);
      }
    }
  }

  lemma PutKeepsKinds(list: seq<Configuration>, level: Level, ctype: ConfigurationType, value: string)
    ensures var later := Put(list, level, ctype, value);
            && |list| <= |later| <= |list| + 1
            && (forall i | 0 <= i < |list| :: later[i].level == list[i].level && later[i].ctype == list[i].ctype)
            && (|later| > |list| ==> later[|list|].level == level && later[|list|].ctype == ctype)
  {
    FindIsFirst(list, level, ctype);
    hide Find;
  }

  lemma PutKeeps(list: seq<Configuration>, level: Level, ctype: ConfigurationType, value: string, t: ConfigurationType)
    requires Unique(list) && GlobalFirst(list, t)
    requires ctype == t ==> level == Global || HasGlobal(list, t)
    ensures var later := Put(list, level, ctype, value);
            && Unique(later) && GlobalFirst(later, t)
            && (HasGlobal(list, t) || (level == Global && ctype == t) ==> HasGlobal(later, t))
  {
    FindAfterPut(list, level, ctype, value, Global, t);
    PutKeepsKinds(list, level, ctype, value);
    PutKeepsUnique(list, level, ctype, value);
    hide Find, Put, Unique;
    var later := Put(list, level, ctype, value);
    forall i | 0 <= i < |later| && later[i].ctype == t ensures Find(later, Global, t) <= i {
      if i < |list| {
        assert list[i].ctype == later[i].ctype;
      }
    }
  }

  lemma {:induction false} PutEachKeeps(list: seq<Configuration>, levels: seq<Level>, ctype: ConfigurationType,
                                        value: string, t: ConfigurationType)
    requires Unique(list) && GlobalFirst(list, t) && HasGlobal(list, ctype)
    ensures var later := PutEach(list, levels, ctype, value);
            && Unique(later) && GlobalFirst(later, t) && HasGlobal(later, ctype)
            && (HasGlobal(list, t) ==> HasGlobal(later, t))
    decreases |levels|
  {
    if levels != [] {
      PutKeeps(list, levels[0], ctype, value, t);
      HasGlobalStays(list, levels[0], ctype, value);
      PutEachKeeps(Put(list, levels[0], ctype, value), levels[1..], ctype, value, t);
    }
  }

  lemma HasGlobalStays(list: seq<Configuration>, level: Level, ctype: ConfigurationType, value: string)
    requires HasGlobal(list, ctype)
    ensures HasGlobal(Put(list, level, ctype, value), ctype)
  {
    FindAfterPut(list, level, ctype, value, Global, ctype);
  }

  /** A registry whose type `t` is led by its Global entry stays so under any write that is Global,
      or of another type, or comes after the Global entry. */
  lemma SetKeeps(list: seq<Configuration>, level: Level, ctype: ConfigurationType, value: string, t: ConfigurationType)
    requires Unique(list) && GlobalFirst(list, t)
    requires ctype == t ==> level == Global || HasGlobal(list, t)
    ensures var later := Set(list, level, ctype, value);
            && Unique(later) && GlobalFirst(later, t)
            && (HasGlobal(list, t) || (level == Global && ctype == t) ==> HasGlobal(later, t))
            && (level == Global ==> HasGlobal(later, ctype))
            && (Covered(list, t) || (level == Global && ctype == t) ==> Covered(later, t))
  {
    SetKeepsCovered(list, level, ctype, value, t);
    hide Covered;
    var one := Put(list, level, ctype, value);
    PutKeeps(list, level, ctype, value, t);
    if level == Global {
      FindAfterPut(list, level, ctype, value, Global, ctype);
      hide PutEach, Find;
      PutEachKeeps(one, LEVELS, ctype, value, t);
      PutEachKeeps(PutEach(one, LEVELS, ctype, value), LEVELS, ctype, value, t);
    }
  }

  lemma SetGloballyKeeps(list: seq<Configuration>, ctype: ConfigurationType, value: string, t: ConfigurationType)
    requires Unique(list) && GlobalFirst(list, t)
    ensures var later := SetGlobally(list, ctype, value);
            && Unique(later) && GlobalFirst(later, t)
            && (HasGlobal(list, t) || ctype == t ==> HasGlobal(later, t))
            && (Covered(list, t) || ctype == t ==> Covered(later, t))
  {
    var global := Set(list, Global, ctype, value);
    SetKeeps(list, Global, ctype, value, t);
    PutEachKeeps(global, LEVELS, ctype, value, t);
    PutEachIsWrite(global, LEVELS, ctype, value);
    hide PutEach, Set, Get, Unique, GlobalFirst;
  }

  /** `setToDefault` on an empty repository gives every type a leading Global entry and every level one. */
  lemma DefaultsLead(t: ConfigurationType)
    requires t != UnknownType
    ensures var list := SetToDefault([]);
            Unique(list) && GlobalFirst(list, t) && HasGlobal(list, t) && Covered(list, t)
  {
    hide GlobalFirst, HasGlobal, Unique, Covered, DefaultValues, DefaultFormats;
    DefaultValuesLead(t);
    DefaultFormatsLead(DefaultValues([]), t);
  }

  lemma DefaultValuesLead(t: ConfigurationType)
    ensures var list := DefaultValues([]);
            && Unique(list) && GlobalFirst(list, t)
            && (t != Format && t != UnknownType ==> HasGlobal(list, t) && Covered(list, t))
  {
    hide GlobalFirst, HasGlobal, Unique, Covered, SetGlobally;
    EmptyLeads(t);
    SetGloballyKeeps([], Enabled, "true", t);
    var l1 := SetGlobally([], Enabled, "true");
    SetGloballyKeeps(l1, Filename, "myeasylog.log", t);
    var l2 := SetGlobally(l1, Filename, "myeasylog.log");
    SetGloballyKeeps(l2, ToFile, "true", t);
    var l3 := SetGlobally(l2, ToFile, "true");
    SetGloballyKeeps(l3, ToStandardOutput, "true", t);
    var l4 := SetGlobally(l3, ToStandardOutput, "true");
    SetGloballyKeeps(l4, SubsecondPrecision, "3", t);
    var l5 := SetGlobally(l4, SubsecondPrecision, "3");
    SetGloballyKeeps(l5, PerformanceTracking, "true", t);
    var l6 := SetGlobally(l5, PerformanceTracking, "true");
    SetGloballyKeeps(l6, MaxLogFileSize, "0", t);
    var l7 := SetGlobally(l6, MaxLogFileSize, "0");
    SetGloballyKeeps(l7, LogFlushThreshold, "0", t);
  }

  lemma DefaultFormatsLead(list: seq<Configuration>, t: ConfigurationType)
    requires Unique(list) && GlobalFirst(list, t)
    requires t != Format ==> HasGlobal(list, t) && Covered(list, t)
    ensures var later := DefaultFormats(list);
            Unique(later) && GlobalFirst(later, t) && HasGlobal(later, t) && Covered(later, t)
  {
    hide GlobalFirst, HasGlobal, Unique, Covered, SetGlobally, Set;
    SetGloballyKeeps(list, Format, "%datetime %level [%logger] %msg", t);
    var l1 := SetGlobally(list, Format, "%datetime %level [%logger] %msg");
    SetKeeps(l1, Debug, Format, "%datetime %level [%logger] [%user@%host] [%func] [%loc] %msg", t);
    var l2 := Set(l1, Debug, Format, "%datetime %level [%logger] [%user@%host] [%func] [%loc] %msg");
    SetKeeps(l2, Error, Format, "%datetime %level [%logger] %msg", t);
    var l3 := Set(l2, Error, Format, "%datetime %level [%logger] %msg");
    SetKeeps(l3, Fatal, Format, "%datetime %level [%logger] %msg", t);
    var l4 := Set(l3, Fatal, Format, "%datetime %level [%logger] %msg");
    SetKeeps(l4, Verbose, Format, "%datetime %level-%vlevel [%logger] %msg", t);
    var l5 := Set(l4, Verbose, Format, "%datetime %level-%vlevel [%logger] %msg");
    SetKeeps(l5, Trace, Format, "%datetime %level [%logger] [%func] [%loc] %msg", t);
  }

  lemma EmptyLeads(t: ConfigurationType)
    ensures Unique([]) && GlobalFirst([], t)
  {
  }

  /** Any writes after the defaults, copies of other registries included, keep what the defaults set up. */
  lemma {:induction false} WritesKeep(list: seq<Configuration>, writes: seq<Configuration>, t: ConfigurationType)
    requires Unique(list) && GlobalFirst(list, t) && HasGlobal(list, t) && Covered(list, t)
    ensures var later := SetAll(list, writes);
            Unique(later) && GlobalFirst(later, t) && HasGlobal(later, t) && Covered(later, t)
    decreases |writes|
  {
    if writes != [] {
      SetKeeps(list, writes[0].level, writes[0].ctype, writes[0].value, t);
      WritesKeep(Set(list, writes[0].level, writes[0].ctype, writes[0].value), writes[1..], t);
    }
  }

  // ---------------------------------------------------------------- copying from a base led by Global

  lemma {:induction false} LastWriteFrom(base: seq<Configuration>, level: Level, ctype: ConfigurationType, i: nat)
    requires i < |base| && Reaches(base[i].level, level) && base[i].ctype == ctype
    requires forall j | i < j < |base| :: !(Reaches(base[j].level, level) && base[j].ctype == ctype)
    ensures LastWrite(base, level, ctype) == Some(base[i].value)
    decreases |base|
  {
    if i < |base| - 1 {
      LastWriteFrom(base[..|base| - 1], level, ctype, i);
    }
  }

  lemma {:induction false} LastWriteNone(base: seq<Configuration>, level: Level, ctype: ConfigurationType)
    requires forall j | 0 <= j < |base| :: !(Reaches(base[j].level, level) && base[j].ctype == ctype)
    ensures LastWrite(base, level, ctype) == None
    decreases |base|
  {
    if base != [] {
      LastWriteNone(base[..|base| - 1], level, ctype);
    }
  }

  /** Of the base's own entry for a valid level and its Global entry, the later one is taken. */
  lemma CopyTakesLater(list: seq<Configuration>, base: seq<Configuration>, level: Level, ctype: ConfigurationType)
    requires Unique(base) && level in LEVELS
    ensures var own, global := Find(base, level, ctype), Find(base, Global, ctype);
            Get(SetAll(list, base), level, ctype) ==
            if own < |base| && !(own < global < |base|) then Some(base[own].value)
            else if global < |base| then Some(base[global].value)
            else Get(list, level, ctype)
  {
    SetAllOverrides(list, base, level, ctype);
    FindIsFirst(base, level, ctype);
    FindIsFirst(base, Global, ctype);
    hide Find, SetAll;
    var own, global := Find(base, level, ctype), Find(base, Global, ctype);
    if own < |base| && !(own < global < |base|) {
      LastWriteFrom(base, level, ctype, own);
    } else if global < |base| {
      LastWriteFrom(base, level, ctype, global);
    } else {
      LastWriteNone(base, level, ctype);
    }
  }

  /** From a base led by Global, a valid level takes the base's own entry if there is one, else the
      base's Global value if there is one, else it stays. */
  lemma CopyTakesOwnThenGlobal(list: seq<Configuration>, base: seq<Configuration>, level: Level, ctype: ConfigurationType)
    requires Unique(base) && GlobalFirst(base, ctype) && level in LEVELS
    ensures Get(SetAll(list, base), level, ctype) ==
            if Get(base, level, ctype).Some? then Get(base, level, ctype)
            else if Get(base, Global, ctype).Some? then Get(base, Global, ctype)
            else Get(list, level, ctype)
  {
    CopyTakesLater(list, base, level, ctype);
    FindIsFirst(base, level, ctype);
    hide Find, SetAll;
  }

  /** Without that, a level's own entry survives the copy exactly when the base has no Global entry
      after it, or one with the same value. */
  lemma CopyTakesOwnExactly(list: seq<Configuration>, base: seq<Configuration>, level: Level, ctype: ConfigurationType)
    requires Unique(base) && level in LEVELS && Get(base, level, ctype).Some?
    ensures Get(SetAll(list, base), level, ctype) == Get(base, level, ctype) <==>
            !(Find(base, level, ctype) < Find(base, Global, ctype) < |base|)
            || Get(base, Global, ctype) == Get(base, level, ctype)
  {
    CopyTakesLater(list, base, level, ctype);
    hide Find, SetAll;
  }

  /** Entries are never moved. */
  lemma {:induction false} EntriesStay(list: seq<Configuration>, levels: seq<Level>, ctype: ConfigurationType,
                                       value: string, l: Level, t: ConfigurationType)
    requires Unique(list) && Find(list, l, t) < |list|
    ensures var later := PutEach(list, levels, ctype, value);
            Unique(later) && |list| <= |later| && Find(later, l, t) == Find(list, l, t)
    decreases |levels|
  {
    if levels != [] {
      PutKeepsUnique(list, levels[0], ctype, value);
      PutShape(list, levels[0], ctype, value);
      FindAfterPut(list, levels[0], ctype, value, l, t);
      EntriesStay(Put(list, levels[0], ctype, value), levels[1..], ctype, value, l, t);
    }
  }

  lemma EntriesStayOnSet(list: seq<Configuration>, level: Level, ctype: ConfigurationType, value: string,
                         l: Level, t: ConfigurationType)
    requires Unique(list) && Find(list, l, t) < |list|
    ensures var later := Set(list, level, ctype, value);
            Unique(later) && |list| <= |later| && Find(later, l, t) == Find(list, l, t)
  {
    PutKeepsUnique(list, level, ctype, value);
    PutShape(list, level, ctype, value);
    FindAfterPut(list, level, ctype, value, l, t);
    var one := Put(list, level, ctype, value);
    hide Unique, Find, PutEach, Put;
    EntriesStay(one, LEVELS, ctype, value, l, t);
    EntriesStay(PutEach(one, LEVELS, ctype, value), LEVELS, ctype, value, l, t);
  }

  /** A concrete case, reached by three calls of `set`: the copy loses the level's own value. */
  lemma CopyLosesAnEarlierEntry()
    ensures var base := Set(Set(Set([], Info, Enabled, "true"), Global, Enabled, "false"), Info, Enabled, "true");
            Get(base, Info, Enabled) == Some("true") && Get(SetAll([], base), Info, Enabled) == Some("false")
  {
    var one := Set([], Info, Enabled, "true");
    assert one == [Configuration(Info, Enabled, "true")];
    assert Unique(one) && Find(one, Info, Enabled) == 0;
    hide Find, Set;
    var two := Set(one, Global, Enabled, "false");
    var base := Set(two, Info, Enabled, "true");
    EntriesStayOnSet(one, Global, Enabled, "false", Info, Enabled);
    EntriesStayOnSet(two, Info, Enabled, "true", Info, Enabled);
    SetIsWrite(one, Global, Enabled, "false");
    SetIsWrite(two, Info, Enabled, "true");
    FindIsFirst(base, Global, Enabled);
    FindIsFirst(base, Info, Enabled);
    assert Get(base, Global, Enabled) == Some("false");
    CopyTakesLater([], base, Info, Enabled);
  }

  // ---------------------------------------------------------------- the code that works in place

  /** A registered entry, whose value is set in place. */
  class Entry {
    const level: Level
    const ctype: ConfigurationType
    var value: string

    constructor (level: Level, ctype: ConfigurationType, value: string)
      ensures View() == Configuration(level, ctype, value)
    {
      this.level, this.ctype, this.value := level, ctype, value;
    }

    ghost function View(): Configuration
      reads this
    {
      Configuration(level, ctype, value)
    }

    method SetValue(value: string)
      modifies this
      ensures View() == old(View()).(value := value)
    {
      this.value := value;
    }
  }

  class Repository {
    var list: seq<Entry>

    constructor ()
      ensures Valid() && Contents() == []
    {
      list := [];
    }

    /** No entry is registered twice. */
    ghost predicate Valid()
      reads this
    {
      forall i, j | 0 <= i < j < |list| :: list[i] != list[j]
    }

    ghost function Contents(): (c: seq<Configuration>)
      reads this, list
      ensures |c| == |list| && forall i | 0 <= i < |c| :: c[i] == list[i].View()
    {
      seq(|list|, i requires 0 <= i < |list| reads this, list => list[i].View())
    }

    /** Entries are only added, and the registry makes them itself. */
    twostate predicate Grown()
      reads this
    {
      && |old(list)| <= |list|
      && forall i | 0 <= i < |list| :: if i < |old(list)| then list[i] == old(list)[i] else fresh(list[i])
    }

    /** `get(level, type)` */
    method Get(level: Level, ctype: ConfigurationType) returns (conf: Entry?)
      ensures var i := Find(Contents(), level, ctype);
              if i < |list| then conf == list[i] else conf == null
    {
      ghost var contents := Contents();
      FindIsFirst(contents, level, ctype);
      for i := 0 to |list|
        invariant forall j | 0 <= j < i :: !Is(contents[j], level, ctype)
      {
        if list[i].level == level && list[i].ctype == ctype {
          FindIs(contents, level, ctype, i);
          return list[i];
        }
      }
      conf := null;
    }

    /** The part of `unsafeSet` for the level itself. */
    method PutEntry(level: Level, ctype: ConfigurationType, value: string)
      requires Valid()
      modifies this, list
      ensures Valid() && Grown() && Contents() == Put(old(Contents()), level, ctype, value)
    {
      FindIsFirst(Contents(), level, ctype);
      hide Find;
      var conf := Get(level, ctype);
      if conf == null {
        conf := new Entry(level, ctype, value);
        list := list + [conf];
      } else {
        conf.SetValue(value);
      }
      assert Contents() == Put(old(Contents()), level, ctype, value);
    }

    method UnsafeSet(level: Level, ctype: ConfigurationType, value: string)
      requires Valid()
      modifies this, list
      ensures Valid() && Grown() && Contents() == Written(old(Contents()), level, ctype, value)
      decreases if level == Global then 2 else 0
    {
      hide Put, PutEach, Contents;
      PutEntry(level, ctype, value);
      if level == Global {
        UnsafeSetGlobally(ctype, value);
      }
    }

    /** `unsafeSetGlobally(type, value, false)` */
    method UnsafeSetGlobally(ctype: ConfigurationType, value: string)
      requires Valid()
      modifies this, list
      ensures Valid() && Grown() && Contents() == PutEach(old(Contents()), LEVELS, ctype, value)
      decreases 1
    {
      hide Put, PutEach, Contents;
      var levels := LEVELS;
      assert levels[0..] == levels;
      for i := 0 to |levels|
        invariant Valid() && Grown()
        invariant PutEach(Contents(), levels[i..], ctype, value) == PutEach(old(Contents()), levels, ctype, value)
      {
        PutEachStep(Contents(), levels, i, ctype, value);
        UnsafeSet(levels[i], ctype, value);
      }
      PutEachStep(Contents(), levels, |levels|, ctype, value);
    }

    method SetOne(level: Level, ctype: ConfigurationType, value: string)
      requires Valid()
      modifies this, list
      ensures Valid() && Grown() && Contents() == Set(old(Contents()), level, ctype, value)
    {
      hide Written, PutEach, Contents;
      UnsafeSet(level, ctype, value);
      if level == Global {
        UnsafeSetGlobally(ctype, value);
      }
    }

    /** `setGlobally(type, value, true)` */
    method SetEverywhere(ctype: ConfigurationType, value: string)
      requires Valid()
      modifies this, list
      ensures Valid() && Grown() && Contents() == SetGlobally(old(Contents()), ctype, value)
    {
      hide SetGlobally, Set, PutEach, Put, Contents;
      SetOne(Global, ctype, value);
      var levels := LEVELS;
      GloballyIsEach(old(Contents()), levels, ctype, value);
      LevelsAreNotGlobal(levels);
      for i := 0 to |levels|
        invariant Valid() && Grown()
        invariant PutEach(Contents(), levels[i..], ctype, value) == SetGlobally(old(Contents()), ctype, value)
      {
        PutEachStep(Contents(), levels, i, ctype, value);
        SetOne(levels[i], ctype, value);
      }
      PutEachStep(Contents(), levels, |levels|, ctype, value);
    }

    /** `setFromBase(base)`; a registry makes its own entries, so two registries share none. */
    method SetFromBase(base: Repository?)
      requires Valid() && (base != null && base != this ==> forall c | c in base.list :: c !in list)
      modifies this, list
      ensures Valid() && Grown()
      ensures Contents() == if base == null || base == this then old(Contents())
                            else SetAll(old(Contents()), old(base.Contents()))
    {
      hide Set, Contents;
      if base == null || base == this {
        return;
      }
      ghost var source := base.Contents();
      assert source[0..] == source;
      for i := 0 to |base.list|
        invariant base.list == old(base.list) && forall c | c in base.list :: c !in list && c.View() == old(c.View())
        invariant Valid() && Grown()
        invariant SetAll(Contents(), source[i..]) == SetAll(old(Contents()), source)
      {
        assert source[i..][1..] == source[i + 1..];
        SetOne(base.list[i].level, base.list[i].ctype, base.list[i].value);
      }
    }

    /** `setToDefault()` */
    method ResetToDefault()
      requires Valid()
      modifies this, list
      ensures Valid() && Grown() && Contents() == SetToDefault(old(Contents()))
    {
      hide DefaultValues, DefaultFormats, Contents;
      ResetValues();
      ResetFormats();
    }

    method ResetValues()
      requires Valid()
      modifies this, list
      ensures Valid() && Grown() && Contents() == DefaultValues(old(Contents()))
    {
      hide SetGlobally, Contents;
      SetEverywhere(Enabled, "true");
      SetEverywhere(Filename, "myeasylog.log");
      SetEverywhere(ToFile, "true");
      SetEverywhere(ToStandardOutput, "true");
      SetEverywhere(SubsecondPrecision, "3");
      SetEverywhere(PerformanceTracking, "true");
      SetEverywhere(MaxLogFileSize, "0");
      SetEverywhere(LogFlushThreshold, "0");
    }

    method ResetFormats()
      requires Valid()
      modifies this, list
      ensures Valid() && Grown() && Contents() == DefaultFormats(old(Contents()))
    {
      hide SetGlobally, Set, Contents;
      SetEverywhere(Format, "%datetime %level [%logger] %msg");
      SetOne(Debug, Format, "%datetime %level [%logger] [%user@%host] [%func] [%loc] %msg");
      SetOne(Error, Format, "%datetime %level [%logger] %msg");
      SetOne(Fatal, Format, "%datetime %level [%logger] %msg");
      SetOne(Verbose, Format, "%datetime %level-%vlevel [%logger] %msg");
      SetOne(Trace, Format, "%datetime %level [%logger] [%func] [%loc] %msg");
    }
  }
}
