/** The registry compiled into per-level maps: include/easylogging++/easylogging++.h, lines 1954-2009,
    and include/easylogging++/easylogging++.cc, lines 1675-1742. */
module TypedConfigurations {
  import opened Wrappers
  import opened Configurations
  import opened Decimals
  import opened Division

  /** `unsafeGetConfigByVal(level, confMap)`: the level, else Global, else a default value. */
  function Lookup<T>(confMap: map<Level, T>, level: Level, default: T): T {
    if level in confMap then confMap[level]
    else if Global in confMap then confMap[Global]
    else default
  }

  /** `setValue(level, value, confMap)` */
  function SetValue<T(==)>(confMap: map<Level, T>, level: Level, value: T): map<Level, T> {
    if confMap == map[] then map[Global := value]
    else if Global in confMap && confMap[Global] == value then confMap
    else confMap[level := value]
  }

  /** One call: the level reads the value afterwards unless it had another value of its own and Global has the
      new one already; then the old value stays. A non-Global call on a map that is not empty changes no
      other level. */
  lemma SetValueExactly<T>(confMap: map<Level, T>, level: Level, value: T, default: T)
    ensures var later := SetValue(confMap, level, value);
            && (Lookup(later, level, default) == value <==>
                  !(level in confMap && Global in confMap && confMap[Global] == value && confMap[level] != value))
            && (level in confMap && Global in confMap && confMap[Global] == value ==> later == confMap)
            && (confMap == map[] ==> later == map[Global := value])
            && (confMap != map[] && level != Global ==>
                  forall l | l != level :: Lookup(later, l, default) == Lookup(confMap, l, default))
  {
  }

  // ---------------------------------------------------------------- one type's entries

  /** The entries of one type, converted, in registry order. */
  function Entries<T>(list: seq<Configuration>, ctype: ConfigurationType, conv: string -> T): seq<(Level, T)> {
    if list == [] then []
    else
      var front, last := Entries(list[..|list| - 1], ctype, conv), list[|list| - 1];
      if last.ctype == ctype then front + [(last.level, conv(last.value))] else front
  }

  function Compile<T(==)>(entries: seq<(Level, T)>): map<Level, T> {
    if entries == [] then map[]
    else SetValue(Compile(entries[..|entries| - 1]), entries[|entries| - 1].0, entries[|entries| - 1].1)
  }

  predicate Distinct<T>(entries: seq<(Level, T)>) {
    forall i, j | 0 <= i < j < |entries| :: entries[i].0 != entries[j].0
  }

  predicate Listed<T>(entries: seq<(Level, T)>, level: Level) {
    exists i :: 0 <= i < |entries| && entries[i].0 == level
  }

  /** No Global entry, or one that agrees with the first entry; in particular when Global comes first. */
  predicate GlobalAgrees<T(==)>(entries: seq<(Level, T)>) {
    forall i | 0 <= i < |entries| && entries[i].0 == Global :: entries[i].1 == entries[0].1
  }

  predicate Faithful<T(==)>(entries: seq<(Level, T)>, default: T) {
    forall i | 0 <= i < |entries| :: Lookup(Compile(entries), entries[i].0, default) == entries[i].1
  }

  /** While the Global entry agrees, the first value sits in the Global slot and every level reads its own. */
  lemma {:induction false} AgreeingCompile<T>(entries: seq<(Level, T)>, default: T)
    requires entries != [] && Distinct(entries) && GlobalAgrees(entries)
    ensures var m := Compile(entries);
            && Global in m && m[Global] == entries[0].1
            && Faithful(entries, default)
            && (entries[0].0 != Global ==> entries[0].0 !in m)
            && forall level | level != Global && !Listed(entries, level) :: level !in m
  {
    var n := |entries| - 1;
    var m, front := Compile(entries), entries[..n];
    if n > 0 {
      AgreeingCompile(front, default);
      var m0, level := Compile(front), entries[n].0;
      forall l | l != Global && !Listed(entries, l) ensures l !in m {
        assert l != level;
        assert !Listed(front, l);
      }
      forall i | 0 <= i < |entries| ensures Lookup(m, entries[i].0, default) == entries[i].1 {
        if i < n {
          assert front[i] == entries[i] && Lookup(m0, front[i].0, default) == front[i].1;
        } else {
          assert !Listed(front, level);
        }
      }
    } else {
      assert front == [];
    }
  }

  /** Once a Global entry disagrees, the first entry's level reads the Global value instead of its own. */
  lemma {:induction false} DisagreeingCompile<T>(entries: seq<(Level, T)>, g: nat, default: T)
    requires Distinct(entries) && g < |entries| && entries[g].0 == Global && entries[g].1 != entries[0].1
    ensures var m := Compile(entries);
            Global in m && m[Global] == entries[g].1 && entries[0].0 !in m && entries[0].0 != Global
    decreases |entries|
  {
    var n := |entries| - 1;
    var front := entries[..n];
    if g < n {
      DisagreeingCompile(front, g, default);
    } else {
      assert GlobalAgrees(front);
      AgreeingCompile(front, default);
    }
  }

  /** Exactly when the compressed map answers every level with its registry value. */
  lemma CompressionIsFaithfulExactly<T>(entries: seq<(Level, T)>, default: T)
    requires Distinct(entries)
    ensures Faithful(entries, default) <==> GlobalAgrees(entries)
  {
    if entries != [] {
      if GlobalAgrees(entries) {
        AgreeingCompile(entries, default);
      } else {
        var g :| 0 <= g < |entries| && entries[g].0 == Global && entries[g].1 != entries[0].1;
        DisagreeingCompile(entries, g, default);
        assert Lookup(Compile(entries), entries[0].0, default) != entries[0].1;
      }
    }
  }

  // ---------------------------------------------------------------- from the registry

  ghost predicate Matches<T>(e: (Level, T), c: Configuration, ctype: ConfigurationType, conv: string -> T) {
    Is(c, e.0, ctype) && e.1 == conv(c.value)
  }

  ghost predicate ComesFrom<T>(e: (Level, T), list: seq<Configuration>, ctype: ConfigurationType, conv: string -> T) {
    exists k :: 0 <= k < |list| && Matches(e, list[k], ctype, conv)
  }

  ghost predicate GoesTo<T>(c: Configuration, entries: seq<(Level, T)>, ctype: ConfigurationType, conv: string -> T) {
    exists i :: 0 <= i < |entries| && Matches(entries[i], c, ctype, conv)
  }

  /** The entries of a type and the registry's entries of that type are the same ones. */
  lemma {:induction false} EntriesMatch<T>(list: seq<Configuration>, ctype: ConfigurationType, conv: string -> T)
    requires Unique(list)
    ensures var entries := Entries(list, ctype, conv);
            && Distinct(entries)
            && (forall i | 0 <= i < |entries| :: ComesFrom(entries[i], list, ctype, conv))
            && (forall k | 0 <= k < |list| && list[k].ctype == ctype :: GoesTo(list[k], entries, ctype, conv))
  {
    if list != [] {
      var n := |list| - 1;
      var front, last := list[..n], list[n];
      EntriesMatch(front, ctype, conv);
      var early, entries := Entries(front, ctype, conv), Entries(list, ctype, conv);
      forall i | 0 <= i < |entries| ensures ComesFrom(entries[i], list, ctype, conv) {
        if i < |early| {
          assert ComesFrom(early[i], front, ctype, conv);
          var k :| 0 <= k < |front| && Matches(early[i], front[k], ctype, conv);
          assert Matches(entries[i], list[k], ctype, conv);
        } else {
          assert Matches(entries[i], list[n], ctype, conv);
        }
      }
      forall k | 0 <= k < |list| && list[k].ctype == ctype ensures GoesTo(list[k], entries, ctype, conv) {
        if k < n {
          assert GoesTo(front[k], early, ctype, conv);
          var i :| 0 <= i < |early| && Matches(early[i], front[k], ctype, conv);
          assert Matches(entries[i], list[k], ctype, conv);
        } else {
          assert Matches(entries[|early|], list[n], ctype, conv);
        }
      }
      if last.ctype == ctype {
        forall i | 0 <= i < |early| ensures early[i].0 != last.level {
          assert ComesFrom(early[i], front, ctype, conv);
          var k :| 0 <= k < |front| && Matches(early[i], front[k], ctype, conv);
          assert !Is(list[n], list[k].level, list[k].ctype);
        }
      }
    }
  }

  /** For a registry with unique entries, compiling a type into a compressed map answers
      every level that has an entry with that entry's value if and only if the type has no Global
      entry, or one whose value is that of the type's first entry. */
  lemma EntriesAreFaithfulExactly<T>(list: seq<Configuration>, ctype: ConfigurationType,
                                                 conv: string -> T, default: T)
    requires Unique(list)
    ensures (forall k | 0 <= k < |list| && list[k].ctype == ctype ::
               Lookup(Compile(Entries(list, ctype, conv)), list[k].level, default) == conv(list[k].value))
            <==> GlobalAgrees(Entries(list, ctype, conv))
  {
    var entries := Entries(list, ctype, conv);
    EntriesMatch(list, ctype, conv);
    CompressionIsFaithfulExactly(entries, default);
    hide Entries, Compile, GlobalAgrees, Distinct, Unique, Lookup;
    if Faithful(entries, default) {
      forall k | 0 <= k < |list| && list[k].ctype == ctype
        ensures Lookup(Compile(entries), list[k].level, default) == conv(list[k].value)
      {
        assert GoesTo(list[k], entries, ctype, conv);
        var i :| 0 <= i < |entries| && Matches(entries[i], list[k], ctype, conv);
      }
    } else {
      var i :| 0 <= i < |entries| && Lookup(Compile(entries), entries[i].0, default) != entries[i].1;
      assert ComesFrom(entries[i], list, ctype, conv);
      var k :| 0 <= k < |list| && Matches(entries[i], list[k], ctype, conv);
      assert Lookup(Compile(entries), list[k].level, default) != conv(list[k].value);
    }
  }

  /** What the registry says for a level: its own entry, else the Global entry, else the default. */
  function ReadRegistry<T>(list: seq<Configuration>, level: Level, ctype: ConfigurationType, conv: string -> T, default: T)
    : T
  {
    if Get(list, level, ctype).Some? then conv(Get(list, level, ctype).value)
    else if Get(list, Global, ctype).Some? then conv(Get(list, Global, ctype).value)
    else default
  }

  /** The same, read from the type's entries. */
  ghost predicate Reads<T>(entries: seq<(Level, T)>, level: Level, default: T, value: T) {
    && (forall i | 0 <= i < |entries| && entries[i].0 == level :: value == entries[i].1)
    && (!Listed(entries, level) ==>
          && (forall i | 0 <= i < |entries| && entries[i].0 == Global :: value == entries[i].1)
          && (!Listed(entries, Global) ==> value == default))
  }

  lemma RegistryReads<T>(list: seq<Configuration>, level: Level, ctype: ConfigurationType, conv: string -> T, default: T)
    requires Unique(list)
    ensures Reads(Entries(list, ctype, conv), level, default, ReadRegistry(list, level, ctype, conv, default))
  {
    EntryOf(list, level, ctype, conv);
    EntryOf(list, Global, ctype, conv);
    hide Entries, Get, Listed;
  }

  /** A level is listed exactly when the registry has an entry for it, and with that entry's value. */
  lemma EntryOf<T>(list: seq<Configuration>, level: Level, ctype: ConfigurationType, conv: string -> T)
    requires Unique(list)
    ensures var entries, got := Entries(list, ctype, conv), Get(list, level, ctype);
            && (Listed(entries, level) <==> got.Some?)
            && forall i | 0 <= i < |entries| && entries[i].0 == level :: got.Some? && entries[i].1 == conv(got.value)
  {
    hide Find, Get, Entries, Unique;
    var entries := Entries(list, ctype, conv);
    forall i | 0 <= i < |entries| && entries[i].0 == level
      ensures Get(list, level, ctype).Some? && entries[i].1 == conv(Get(list, level, ctype).value)
    {
      EntryIsGot(list, level, ctype, conv, i);
    }
    if Get(list, level, ctype).Some? {
      GotIsListed(list, level, ctype, conv);
    }
  }

  lemma EntryIsGot<T>(list: seq<Configuration>, level: Level, ctype: ConfigurationType, conv: string -> T, i: nat)
    requires Unique(list) && i < |Entries(list, ctype, conv)| && Entries(list, ctype, conv)[i].0 == level
    ensures var got := Get(list, level, ctype);
            got.Some? && Entries(list, ctype, conv)[i].1 == conv(got.value)
  {
    hide Find, Entries, Distinct, GoesTo;
    var f := Find(list, level, ctype);
    EntriesMatch(list, ctype, conv);
    FindIsFirst(list, level, ctype);
    assert ComesFrom(Entries(list, ctype, conv)[i], list, ctype, conv);
    var k :| 0 <= k < |list| && Matches(Entries(list, ctype, conv)[i], list[k], ctype, conv);
  }

  lemma GotIsListed<T>(list: seq<Configuration>, level: Level, ctype: ConfigurationType, conv: string -> T)
    requires Unique(list) && Get(list, level, ctype).Some?
    ensures Listed(Entries(list, ctype, conv), level)
  {
    hide Find, Entries, Distinct, ComesFrom, Unique;
    var f := Find(list, level, ctype);
    EntriesMatch(list, ctype, conv);
    FindIsFirst(list, level, ctype);
    assert GoesTo(list[f], Entries(list, ctype, conv), ctype, conv);
    var i :| 0 <= i < |Entries(list, ctype, conv)| && Matches(Entries(list, ctype, conv)[i], list[f], ctype, conv);
  }

  /** The first entry's value, which sits in the Global slot, is what levels without an entry should read. */
  predicate FirstIsGlobal<T(==)>(entries: seq<(Level, T)>, default: T) {
    entries == [] || Listed(entries, Global) || entries[0].1 == default
  }

  ghost predicate ReadsEverywhere<T(!new)>(entries: seq<(Level, T)>, default: T) {
    forall level, value | Reads(entries, level, default, value) :: Lookup(Compile(entries), level, default) == value
  }

  lemma ReadsWhenAgreeing<T(!new)>(entries: seq<(Level, T)>, default: T)
    requires Distinct(entries) && GlobalAgrees(entries) && FirstIsGlobal(entries, default)
    ensures ReadsEverywhere(entries, default)
  {
    if entries != [] {
      AgreeingCompile(entries, default);
      hide Compile;
      forall level, value | Reads(entries, level, default, value)
        ensures Lookup(Compile(entries), level, default) == value
      {
        if Listed(entries, level) {
          var i :| 0 <= i < |entries| && entries[i].0 == level;
          assert value == entries[i].1;
        } else if Listed(entries, Global) {
          var i :| 0 <= i < |entries| && entries[i].0 == Global;
          assert value == entries[i].1;
        }
      }
    }
  }

  lemma ReadOf<T>(entries: seq<(Level, T)>, i: nat, default: T)
    requires Distinct(entries) && i < |entries|
    ensures Reads(entries, entries[i].0, default, entries[i].1)
  {
    assert Listed(entries, entries[i].0);
  }

  lemma AgreeingWhenReads<T(!new)>(entries: seq<(Level, T)>, default: T)
    requires Distinct(entries) && ReadsEverywhere(entries, default)
    ensures GlobalAgrees(entries) && FirstIsGlobal(entries, default)
  {
    forall i | 0 <= i < |entries| ensures Lookup(Compile(entries), entries[i].0, default) == entries[i].1 {
      ReadOf(entries, i, default);
    }
    CompressionIsFaithfulExactly(entries, default);
    if entries != [] && !Listed(entries, Global) {
      AgreeingCompile(entries, default);
      assert Reads(entries, Global, default, default);
    }
  }

  /** Main result: the compressed map answers every level as the registry does, the level's entry, else the
      Global one, else the default, if and only if the type's Global entry, if it has one, agrees with the
      type's first entry, and if it has none, the first entry agrees with the default. */
  lemma CompiledRegistryIsFaithfulExactly<T(!new)>(list: seq<Configuration>, ctype: ConfigurationType,
                                                   conv: string -> T, default: T)
    requires Unique(list)
    ensures (forall level :: Lookup(Compile(Entries(list, ctype, conv)), level, default)
                             == ReadRegistry(list, level, ctype, conv, default))
            <==> (GlobalAgrees(Entries(list, ctype, conv)) && FirstIsGlobal(Entries(list, ctype, conv), default))
  {
    var entries := Entries(list, ctype, conv);
    EntriesMatch(list, ctype, conv);
    hide Entries, Compile, ReadRegistry, Lookup, GlobalAgrees, FirstIsGlobal, Distinct, ReadsEverywhere;
    EverywhereIsEveryLevel(list, ctype, conv, default);
    if GlobalAgrees(entries) && FirstIsGlobal(entries, default) {
      ReadsWhenAgreeing(entries, default);
    }
    if ReadsEverywhere(entries, default) {
      AgreeingWhenReads(entries, default);
    }
  }

  lemma EverywhereIsEveryLevel<T(!new)>(list: seq<Configuration>, ctype: ConfigurationType, conv: string -> T, default: T)
    requires Unique(list)
    ensures ReadsEverywhere(Entries(list, ctype, conv), default) <==>
            forall level :: Lookup(Compile(Entries(list, ctype, conv)), level, default)
                            == ReadRegistry(list, level, ctype, conv, default)
  {
    hide Entries, Compile, ReadRegistry, Lookup, Reads;
    var entries := Entries(list, ctype, conv);
    forall level ensures Reads(entries, level, default, ReadRegistry(list, level, ctype, conv, default)) {
      RegistryReads(list, level, ctype, conv, default);
    }
    ReadsOneValue(entries, default);
    if ReadsEverywhere(entries, default) {
      forall level ensures Lookup(Compile(entries), level, default) == ReadRegistry(list, level, ctype, conv, default) {
        assert Reads(entries, level, default, ReadRegistry(list, level, ctype, conv, default));
      }
    }
    if forall level :: Lookup(Compile(entries), level, default) == ReadRegistry(list, level, ctype, conv, default) {
      forall level, value | Reads(entries, level, default, value)
        ensures Lookup(Compile(entries), level, default) == value
      {
        assert Reads(entries, level, default, ReadRegistry(list, level, ctype, conv, default));
      }
    }
  }

  /** The entries determine what is read. */
  lemma ReadsOneValue<T(!new)>(entries: seq<(Level, T)>, default: T)
    ensures forall level, v, w | Reads(entries, level, default, v) && Reads(entries, level, default, w) :: v == w
  {
  }

  /** A concrete case: no Global entry, and a level without an entry reads another level's value. */
  lemma MissingGlobalLeaks()
    ensures var list := [Configuration(Info, Enabled, "true")];
            && Lookup(Compile(Entries(list, Enabled, GetBool)), Level.Warning, false) == true
            && ReadRegistry(list, Level.Warning, Enabled, GetBool, false) == false
  {
    var list := [Configuration(Info, Enabled, "true")];
    hide GetBool;
    BooleansAreRead();
    assert list[..0] == [];
    assert Entries(list, Enabled, GetBool) == [(Info, true)];
    assert [(Info, true)][..0] == [];
    assert list[1..] == [];
  }

  /** A concrete case: Global comes second, so the level before it reads the Global value. */
  lemma GlobalSecondHidesTheFirst()
    ensures var list := [Configuration(Info, Enabled, "true"), Configuration(Global, Enabled, "false")];
            && Get(list, Info, Enabled) == Some("true")
            && Lookup(Compile(Entries(list, Enabled, GetBool)), Info, true) == false
  {
    var list := [Configuration(Info, Enabled, "true"), Configuration(Global, Enabled, "false")];
    var entries := [(Info, true), (Global, false)];
    BooleansAreRead();
    assert Entries(list, Enabled, GetBool) == entries by {
      hide GetBool;
      assert list[..1] == [list[0]] && list[..1][..0] == [];
      assert Entries(list[..1], Enabled, GetBool) == [(Info, true)];
    }
    assert entries[1].0 == Global && entries[0].0 != Global;
    hide Entries, Compile, GetBool;
    DisagreeingCompile(entries, 1, true);
  }

  lemma BooleansAreRead()
    ensures GetBool("true") && !GetBool("false")
  {
    TrueTexts("", "true", "");
    TrueTexts("", "false", "");
    assert "" + "true" + "" == "true" && "" + "false" + "" == "false";
    assert "false"[0] == 'f';
  }

  /** After the defaults and any writes, the compressed map answers every valid level as the registry does. */
  lemma CompiledDefaultsAreFaithful<T>(writes: seq<Configuration>, level: Level, ctype: ConfigurationType,
                                           conv: string -> T, default: T)
    requires level in LEVELS && ctype != UnknownType
    ensures var list := SetAll(SetToDefault([]), writes);
            && Get(list, level, ctype).Some?
            && Lookup(Compile(Entries(list, ctype, conv)), level, default) == conv(Get(list, level, ctype).value)
  {
    var start, list := SetToDefault([]), SetAll(SetToDefault([]), writes);
    DefaultsLead(ctype);
    WritesKeep(start, writes, ctype);
    hide SetToDefault, SetAll, Find;
    GlobalFirstAgrees(list, ctype, conv);
    EntriesAreFaithfulExactly(list, ctype, conv, default);
    FindIsFirst(list, level, ctype);
  }

  /** What a logger with the defaults does: every level is enabled and written to standard output, files are not
      limited and not flushed. */
  lemma DefaultsCompiled(level: Level)
    requires level in LEVELS
    ensures var list := SetToDefault([]);
            && Lookup(Compile(Entries(list, Enabled, GetBool)), level, false)
            && Lookup(Compile(Entries(list, ToStandardOutput, GetBool)), level, false)
            && Lookup(Compile(Entries(list, MaxLogFileSize, GetULong)), level, 1) == 0
            && Lookup(Compile(Entries(list, LogFlushThreshold, GetULong)), level, 1) == 0
  {
    hide SetToDefault, Compile, Entries, Lookup, Get, GetBool, GetULong;
    LevelsAreDoubled();
    assert SetAll(SetToDefault([]), []) == SetToDefault([]);
    BooleansAreRead();
    ZeroIsRead();
    CompiledDefaultsAreFaithful([], level, Enabled, GetBool, false);
    CompiledDefaultsAreFaithful([], level, ToStandardOutput, GetBool, false);
    CompiledDefaultsAreFaithful([], level, MaxLogFileSize, GetULong, 1);
    CompiledDefaultsAreFaithful([], level, LogFlushThreshold, GetULong, 1);
    DefaultsAre([], level, Enabled);
    DefaultsAre([], level, ToStandardOutput);
    DefaultsAre([], level, MaxLogFileSize);
    DefaultsAre([], level, LogFlushThreshold);
  }

  lemma ZeroIsRead()
    ensures GetULong("0") == 0
  {
    DigitsAreUsual(0);
    assert Denotes("0", 0);
    DigitsAreBare("0");
    NumbersAreRead("", "0", "", 0);
    assert "" + "0" + "" == "0";
  }

  /** A leading Global entry is the type's first entry. */
  lemma GlobalFirstAgrees<T>(list: seq<Configuration>, ctype: ConfigurationType, conv: string -> T)
    requires Unique(list) && GlobalFirst(list, ctype)
    ensures GlobalAgrees(Entries(list, ctype, conv))
  {
    var entries := Entries(list, ctype, conv);
    EntriesMatch(list, ctype, conv);
    if entries != [] {
      assert ComesFrom(entries[0], list, ctype, conv);
      var k :| 0 <= k < |list| && Matches(entries[0], list[k], ctype, conv);
      var g := Find(list, Global, ctype);
      FindIsFirst(list, Global, ctype);
      hide Find;
      FirstEntry(list, ctype, conv, g);
    }
  }

  lemma {:induction false} FirstEntry<T>(list: seq<Configuration>, ctype: ConfigurationType, conv: string -> T, g: nat)
    requires g < |list| && list[g].ctype == ctype && forall j | 0 <= j < g :: list[j].ctype != ctype
    ensures Entries(list, ctype, conv) != []
    ensures Entries(list, ctype, conv)[0] == (list[g].level, conv(list[g].value))
    decreases |list|
  {
    var front := list[..|list| - 1];
    if g < |front| {
      FirstEntry(front, ctype, conv, g);
    } else {
      NoEntries(front, ctype, conv);
    }
  }

  lemma {:induction false} NoEntries<T>(list: seq<Configuration>, ctype: ConfigurationType, conv: string -> T)
    requires forall j | 0 <= j < |list| :: list[j].ctype != ctype
    ensures Entries(list, ctype, conv) == []
  {
    if list != [] {
      NoEntries(list[..|list| - 1], ctype, conv);
    }
  }

  // ---------------------------------------------------------------- the values

  predicate IsSpace(c: char) {
    c in " \t\n\r" || c == '\U{0b}' || c == '\U{0c}'
  }

  /** The characters `isspace` accepts in the C locale. */
  lemma SpaceCodes(c: char)
    ensures IsSpace(c) <==> c as int == 32 || 9 <= c as int <= 13
  {
    assert " \t\n\r"[0] == ' ' && " \t\n\r"[1] == '\t' && " \t\n\r"[2] == '\n' && " \t\n\r"[3] == '\r';
  }

  function TrimLeft(s: string): string {
    if s != "" && IsSpace(s[0]) then TrimLeft(s[1..]) else s
  }

  function TrimRight(s: string): string {
    if s != "" && IsSpace(s[|s| - 1]) then TrimRight(s[..|s| - 1]) else s
  }

  function Trim(s: string): string {
    TrimLeft(TrimRight(s))
  }

  function GetBool(value: string): bool {
    Trim(value) in ["TRUE", "true", "1"]
  }

  predicate AllDigits(s: string) {
    forall i | 0 <= i < |s| :: IsDigit(s[i])
  }

  /** Anything but decimal digits counts as 0. */
  function GetULong(value: string): nat {
    var digits := Trim(value);
    if digits != "" && AllDigits(digits) then Value(digits) else 0
  }

  predicate Blank(s: string) {
    forall i | 0 <= i < |s| :: IsSpace(s[i])
  }

  /** A text that does not start or end with a space. */
  predicate Bare(s: string) {
    s != "" && !IsSpace(s[0]) && !IsSpace(s[|s| - 1])
  }

  lemma {:induction false} TrimLeftStrips(before: string, rest: string)
    requires Blank(before) && rest != "" && !IsSpace(rest[0])
    ensures TrimLeft(before + rest) == rest
  {
    hide IsSpace;
    if before == "" {
      assert before + rest == rest;
    } else {
      assert IsSpace(before[0]) && (before + rest)[0] == before[0];
      assert (before + rest)[1..] == before[1..] + rest;
      TrimLeftStrips(before[1..], rest);
    }
  }

  lemma {:induction false} TrimRightStrips(rest: string, after: string)
    requires Blank(after) && rest != "" && !IsSpace(rest[|rest| - 1])
    ensures TrimRight(rest + after) == rest
    decreases |after|
  {
    hide IsSpace;
    if after == "" {
      assert rest + after == rest;
    } else {
      var n := |after| - 1;
      assert IsSpace(after[n]) && (rest + after)[|rest| + n] == after[n];
      assert (rest + after)[..|rest| + n] == rest + after[..n];
      TrimRightStrips(rest, after[..n]);
    }
  }

  /** Spaces around a text are stripped, and nothing else. */
  lemma TrimStrips(before: string, text: string, after: string)
    requires Blank(before) && Bare(text) && Blank(after)
    ensures Trim(before + text + after) == text
  {
    hide IsSpace;
    var rest := before + text;
    assert rest[|rest| - 1] == text[|text| - 1];
    TrimRightStrips(rest, after);
    TrimLeftStrips(before, text);
  }

  /** Exactly three texts are true, whatever spaces surround them. */
  lemma TrueTexts(before: string, text: string, after: string)
    requires Blank(before) && Bare(text) && Blank(after)
    ensures GetBool(before + text + after) <==> (text == "TRUE" || text == "true" || text == "1")
  {
    TrimStrips(before, text, after);
    hide Trim;
  }

  /** A number's digits, leading zeros and surrounding spaces allowed, are read as that number, and any other
      text as 0. */
  lemma NumbersAreRead(before: string, text: string, after: string, v: nat)
    requires Blank(before) && Bare(text) && Blank(after)
    ensures Denotes(text, v) ==> GetULong(before + text + after) == v
    ensures !AllDigits(text) ==> GetULong(before + text + after) == 0
  {
    TrimStrips(before, text, after);
    hide Trim;
  }

  /** In particular the digits that printing a number writes are read back as it. */
  lemma PrintedNumbersAreRead(before: string, n: nat, width: nat, after: string)
    requires Blank(before) && Blank(after) && 0 < n < Power10(width)
    ensures GetULong(before + Tail(n, width) + after) == n
  {
    assert width > 0;
    TailMeaning(n, width);
    TailLength(n, width);
    UniqueRemainder(n, Power10(width), 0, n);
    DigitsAreBare(Tail(n, width));
    hide Tail, Power10, GetULong, Value;
    NumbersAreRead(before, Tail(n, width), after, n);
  }

  lemma DigitsAreBare(text: string)
    requires text != "" && AllDigits(text)
    ensures Bare(text)
  {
    assert IsDigit(text[0]) && IsDigit(text[|text| - 1]);
    assert forall c | IsDigit(c) :: !IsSpace(c);
  }

  // ---------------------------------------------------------------- the code that works in place

  class TypedConfigurations {
    var enabledMap: map<Level, bool>
    var toStandardOutputMap: map<Level, bool>
    var performanceTrackingMap: map<Level, bool>
    var maxLogFileSizeMap: map<Level, nat>
    var logFlushThresholdMap: map<Level, nat>

    /** `build(configurations)` on fresh maps. */
    constructor (configurations: Repository)
      ensures enabledMap == Compile(Entries(configurations.Contents(), Enabled, GetBool))
      ensures toStandardOutputMap == Compile(Entries(configurations.Contents(), ToStandardOutput, GetBool))
      ensures maxLogFileSizeMap == Compile(Entries(configurations.Contents(), MaxLogFileSize, GetULong))
      ensures logFlushThresholdMap == Compile(Entries(configurations.Contents(), LogFlushThreshold, GetULong))
      ensures performanceTrackingMap == OnlyGlobal(Entries(configurations.Contents(), PerformanceTracking, GetBool))
    {
      enabledMap, toStandardOutputMap, performanceTrackingMap := map[], map[], map[];
      maxLogFileSizeMap, logFlushThresholdMap := map[], map[];
      new;
      hide SetValue, GetBool, GetULong, Repository.Contents;
      ghost var list := configurations.Contents();
      for i := 0 to |configurations.list|
        invariant enabledMap == Compile(Entries(list[..i], Enabled, GetBool))
        invariant toStandardOutputMap == Compile(Entries(list[..i], ToStandardOutput, GetBool))
        invariant maxLogFileSizeMap == Compile(Entries(list[..i], MaxLogFileSize, GetULong))
        invariant logFlushThresholdMap == Compile(Entries(list[..i], LogFlushThreshold, GetULong))
        invariant performanceTrackingMap == OnlyGlobal(Entries(list[..i], PerformanceTracking, GetBool))
        invariant configurations.Contents() == list
      {
        var conf := configurations.list[i];
        Snoc(list, i, Enabled, GetBool);
        Snoc(list, i, ToStandardOutput, GetBool);
        Snoc(list, i, PerformanceTracking, GetBool);
        Snoc(list, i, MaxLogFileSize, GetULong);
        Snoc(list, i, LogFlushThreshold, GetULong);
        hide Entries, Compile, OnlyGlobal;
        if conf.ctype == Enabled {
          enabledMap := SetValue(enabledMap, conf.level, GetBool(conf.value));
        } else if conf.ctype == ToStandardOutput {
          toStandardOutputMap := SetValue(toStandardOutputMap, conf.level, GetBool(conf.value));
        } else if conf.ctype == PerformanceTracking {
          performanceTrackingMap := SetValue(performanceTrackingMap, Global, GetBool(conf.value));
        } else if conf.ctype == MaxLogFileSize {
          maxLogFileSizeMap := SetValue(maxLogFileSizeMap, conf.level, GetULong(conf.value));
        } else if conf.ctype == LogFlushThreshold {
          logFlushThresholdMap := SetValue(logFlushThresholdMap, conf.level, GetULong(conf.value));
        }
      }
      assert list[..|list|] == list;
    }

    /** `enabled(level)` */
    method IsEnabled(level: Level) returns (r: bool)
      ensures r == Lookup(enabledMap, level, false)
    {
      if level in enabledMap {
        return enabledMap[level];
      }
      if Global in enabledMap {
        return enabledMap[Global];
      }
      r := false;
    }
  }

  /** Performance tracking is always stored for the Global level. */
  function OnlyGlobal<T(==)>(entries: seq<(Level, T)>): map<Level, T> {
    if entries == [] then map[]
    else SetValue(OnlyGlobal(entries[..|entries| - 1]), Global, entries[|entries| - 1].1)
  }

  /** So the last entry counts, at every level. */
  lemma {:induction false} LastEntryCounts<T>(entries: seq<(Level, T)>, level: Level, default: T)
    requires entries != []
    ensures OnlyGlobal(entries) == map[Global := entries[|entries| - 1].1]
    ensures Lookup(OnlyGlobal(entries), level, default) == entries[|entries| - 1].1
  {
    if |entries| > 1 {
      LastEntryCounts(entries[..|entries| - 1], level, default);
    }
  }

  /** One more registry entry is one more write to its own type's map, and none to the others. */
  lemma Snoc<T>(list: seq<Configuration>, i: nat, ctype: ConfigurationType, conv: string -> T)
    requires i < |list|
    ensures var before, after := Entries(list[..i], ctype, conv), Entries(list[..i + 1], ctype, conv);
            if list[i].ctype == ctype
            then && Compile(after) == SetValue(Compile(before), list[i].level, conv(list[i].value))
                 && OnlyGlobal(after) == SetValue(OnlyGlobal(before), Global, conv(list[i].value))
            else after == before
  {
    assert list[..i + 1][..i] == list[..i];
    var before, after := Entries(list[..i], ctype, conv), Entries(list[..i + 1], ctype, conv);
    if list[i].ctype == ctype {
      assert after[..|after| - 1] == before;
    }
  }
}
