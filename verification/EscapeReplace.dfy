/** Replacing the first unescaped format specifier: include/easylogging++/easylogging++.cc, lines 929-941. */
module EscapeReplace {

  /** `kFormatSpecifierChar` */
  const MARK := '%'

  predicate OccursAt(str: string, what: string, i: int) {
    0 <= i <= |str| - |what| && str[i..i + |what|] == what
  }

  /** `str.find(what, from)`, with -1 for `npos`. */
  function Find(str: string, what: string, from: nat): (f: int)
    ensures f == -1 || (from <= f && OccursAt(str, what, f))
    decreases |str| - from
  {
    if from + |what| > |str| then -1
    else if OccursAt(str, what, from) then from
    else Find(str, what, from + 1)
  }

  predicate Escaped(str: string, f: int) {
    0 < f <= |str| && str[f - 1] == MARK
  }

  /** What the function is for: each escaped occurrence before the first unescaped one loses its extra
      mark, that one is replaced, and the rest stays. */
  function Replaced(str: string, what: string, with: string): string
    requires what != ""
    decreases |str|
  {
    var f := Find(str, what, 0);
    if f < 0 then str
    else if Escaped(str, f) then str[..f - 1] + what + Replaced(str[f + |what|..], what, with)
    else str[..f] + with + str[f + |what|..]
  }

  /** What the loop does from search position `start` on. */
  function Loop(str: string, start: nat, what: string, with: string): string
    decreases |str|
  {
    var f := Find(str, what, start);
    if f < 0 then str
    else if Escaped(str, f) then Loop(str[..f - 1] + str[f..], f + 2, what, with)
    else str[..f] + with + str[f + |what|..]
  }

  /** A specifier such as `%level`: the mark comes first and nowhere else. */
  predicate Specifier(what: string) {
    what != "" && what[0] == MARK && forall i | 0 < i < |what| :: what[i] != MARK
  }

  lemma {:induction false} FindFirst(str: string, what: string, from: nat, f: nat)
    requires from <= f && OccursAt(str, what, f) && forall i | from <= i < f :: !OccursAt(str, what, i)
    ensures Find(str, what, from) == f
    decreases f - from
  {
    if from < f {
      FindFirst(str, what, from + 1, f);
    }
  }

  lemma {:induction false} FindNone(str: string, what: string, from: nat)
    requires forall i | from <= i :: !OccursAt(str, what, i)
    ensures Find(str, what, from) == -1
    decreases |str| - from
  {
    if from + |what| <= |str| {
      FindNone(str, what, from + 1);
    }
  }

  lemma {:induction false} FindIsFirst(str: string, what: string, from: nat)
    ensures forall i | from <= i && (Find(str, what, from) < 0 || i < Find(str, what, from)) :: !OccursAt(str, what, i)
    decreases |str| - from
  {
    if from + |what| <= |str| && !OccursAt(str, what, from) {
      FindIsFirst(str, what, from + 1);
    }
  }

  /** Nothing has been done yet, or the last thing done was to keep an escaped occurrence, whose first
      three characters the search skips. */
  predicate Resumes(done: string, start: nat, what: string) {
    if done == "" then start == 0
    else |what| <= |done| && done[|done| - |what|..] == what && start == |done| - |what| + 3 <= |done|
  }

  /** The search resumes inside the kept occurrence and finds what a search of the rest finds. */
  lemma FindPastDone(done: string, rest: string, start: nat, what: string)
    requires Specifier(what) && Resumes(done, start, what)
    ensures Find(done + rest, what, start) ==
            if Find(rest, what, 0) < 0 then -1 else |done| + Find(rest, what, 0)
  {
    var str, f := done + rest, Find(rest, what, 0);
    FindIsFirst(rest, what, 0);
    hide Find;
    forall i | start <= i && (f < 0 || i < |done| + f) ensures !OccursAt(str, what, i) {
      if i < |done| {
        NoMarkInside(done, rest, start, what, i);
      } else {
        ShiftedOccurrence(done, rest, what, i - |done|);
      }
    }
    if f < 0 {
      FindNone(str, what, start);
    } else {
      ShiftedOccurrence(done, rest, what, f);
      FindFirst(str, what, start, |done| + f);
    }
  }

  lemma ShiftedOccurrence(done: string, rest: string, what: string, i: nat)
    ensures OccursAt(done + rest, what, |done| + i) == OccursAt(rest, what, i)
  {
    if i + |what| <= |rest| {
      assert (done + rest)[|done| + i..|done| + i + |what|] == rest[i..i + |what|];
    }
  }

  lemma NoMarkInside(done: string, rest: string, start: nat, what: string, i: nat)
    requires Specifier(what) && Resumes(done, start, what) && start <= i < |done|
    ensures !OccursAt(done + rest, what, i)
  {
    var str := done + rest;
    assert str[i] == done[i] == done[|done| - |what|..][i - (|done| - |what|)];
  }

  /** Keeping one escaped occurrence on both sides. */
  lemma {:induction false} KeepsAlike(done: string, rest: string, start: nat, what: string, with: string, f: nat)
    requires Specifier(what) && Resumes(done, start, what) && |what| >= 3
    requires f == Find(rest, what, 0) && |done| + f == Find(done + rest, what, start)
    requires 0 < f && f + |what| <= |rest| && OccursAt(rest, what, f)
    requires Escaped(rest, f) && Escaped(done + rest, |done| + f)
    ensures Loop(done + rest, start, what, with) == done + Replaced(rest, what, with)
    decreases |rest|, 0
  {
    hide *;
    var kept, tail := done + rest[..f - 1] + what, rest[f + |what|..];
    LoopStep(done + rest, start, what, with);
    KeepOne(done, rest, what, f);
    LoopIsReplaced(kept, tail, |done| + f + 2, what, with);
    ReplacedStep(rest, what, with);
    Regroup(done, rest[..f - 1], what, Replaced(tail, what, with));
  }

  lemma {:induction false} LoopIsReplaced(done: string, rest: string, start: nat, what: string, with: string)
    requires Specifier(what) && Resumes(done, start, what) && |what| >= 3
    ensures Loop(done + rest, start, what, with) == done + Replaced(rest, what, with)
    decreases |rest|, 1
  {
    FindInside(rest, what);
    hide *;
    var f := Find(rest, what, 0);
    FindPastDone(done, rest, start, what);
    if f < 0 {
      LoopStep(done + rest, start, what, with);
      ReplacedStep(rest, what, with);
    } else {
      SamePrevious(done, rest, start, what, f);
      if Escaped(rest, f) {
        KeepsAlike(done, rest, start, what, with, f);
      } else {
        ReplacesAlike(done, rest, start, what, with, f);
      }
    }
  }

  /** Replacing the unescaped occurrence on both sides. */
  lemma ReplacesAlike(done: string, rest: string, start: nat, what: string, with: string, f: nat)
    requires what != "" && f == Find(rest, what, 0) && |done| + f == Find(done + rest, what, start)
    requires OccursAt(rest, what, f) && !Escaped(rest, f) && !Escaped(done + rest, |done| + f)
    ensures Loop(done + rest, start, what, with) == done + Replaced(rest, what, with)
  {
    ReplaceOne(done, rest, what, f, with);
    hide *;
    LoopStep(done + rest, start, what, with);
    ReplacedStep(rest, what, with);
  }

  lemma FindInside(str: string, what: string)
    requires what != ""
    ensures var f := Find(str, what, 0);
            -1 <= f && (f >= 0 ==> f < |str|)
    ensures var f := Find(str, what, 0);
            f >= 0 ==> f + |what| <= |str| && OccursAt(str, what, f) && (Escaped(str, f) ==> 0 < f)
  {
  }

  lemma {:induction false} LoopStep(str: string, start: nat, what: string, with: string)
    ensures var f := Find(str, what, start);
            Loop(str, start, what, with) ==
            if f < 0 then str
            else if Escaped(str, f) then Loop(str[..f - 1] + str[f..], f + 2, what, with)
            else str[..f] + with + str[f + |what|..]
  {
    hide Find, Escaped, OccursAt;
  }

  lemma {:induction false} ReplacedStep(str: string, what: string, with: string)
    requires what != ""
    ensures var f := Find(str, what, 0);
            Replaced(str, what, with) ==
            if f < 0 then str
            else if Escaped(str, f) then str[..f - 1] + what + Replaced(str[f + |what|..], what, with)
            else str[..f] + with + str[f + |what|..]
  {
    hide Find, Escaped, OccursAt;
  }

  lemma Regroup(a: string, b: string, c: string, d: string)
    ensures a + b + c + d == a + (b + c + d)
  {
  }

  lemma SamePrevious(done: string, rest: string, start: nat, what: string, f: nat)
    requires Specifier(what) && Resumes(done, start, what) && f < |rest|
    ensures Escaped(done + rest, |done| + f) == Escaped(rest, f)
  {
    if f == 0 && done != "" {
      assert (done + rest)[|done| - 1] == done[|done| - |what|..][|what| - 1] != MARK;
    }
  }

  lemma KeepOne(done: string, rest: string, what: string, f: nat)
    requires OccursAt(rest, what, f) && f > 0 && |what| >= 3
    ensures Resumes(done + rest[..f - 1] + what, |done| + f + 2, what)
    ensures var kept, tail := done + rest[..f - 1] + what, rest[f + |what|..];
            && (done + rest)[..|done| + f - 1] + (done + rest)[|done| + f..] == kept + tail
            && |kept| >= |what| && kept[|kept| - |what|..] == what
  {
    assert rest[f..] == what + rest[f + |what|..];
    assert (done + rest)[|done| + f..] == rest[f..];
  }

  lemma ReplaceOne(done: string, rest: string, what: string, f: nat, with: string)
    requires OccursAt(rest, what, f)
    ensures (done + rest)[..|done| + f] + with + (done + rest)[|done| + f + |what|..] ==
            done + (rest[..f] + with + rest[f + |what|..])
  {
  }

  /** The meaning on familiar texts: a text without marks is left alone, a specifier behind one is replaced, and
      one behind an extra mark loses that mark and is kept. */
  lemma FamiliarTexts(before: string, what: string, after: string, with: string)
    requires Specifier(what) && |what| >= 2 && MARK !in before
    ensures Replaced(before, what, with) == before
    ensures Replaced(before + what + after, what, with) == before + with + after
    ensures Replaced(before + [MARK] + what + after, what, with) == before + what + Replaced(after, what, with)
  {
    hide Replaced, Find;
    Unmarked(before, what, before);
    FindNone(before, what, 0);
    ReplacedStep(before, what, with);
    var plain, escaped := before + what + after, before + [MARK] + what + after;
    Unmarked(before, what, plain);
    assert plain[|before|..|before| + |what|] == what;
    FindFirst(plain, what, 0, |before|);
    ReplacedStep(plain, what, with);
    assert plain[..|before|] == before && plain[|before| + |what|..] == after;
    var f := |before| + 1;
    Unmarked(before, what, escaped);
    assert escaped[f..f + |what|] == what;
    assert escaped[|before| + 1] == what[0] == MARK != what[1];
    assert !OccursAt(escaped, what, |before|) by {
      assert escaped[|before|..|before| + |what|][1] == escaped[|before| + 1];
    }
    FindFirst(escaped, what, 0, f);
    ReplacedStep(escaped, what, with);
    assert escaped[..f - 1] == before && escaped[f + |what|..] == after;
  }

  /** A specifier never occurs at a place without a mark. */
  lemma Unmarked(before: string, what: string, str: string)
    requires Specifier(what) && MARK !in before && before <= str
    ensures forall i | 0 <= i < |before| :: !OccursAt(str, what, i)
    ensures str == before ==> forall i | 0 <= i :: !OccursAt(str, what, i)
  {
    forall i | 0 <= i < |before| ensures !OccursAt(str, what, i) {
      assert before[i] in before && str[i] == before[i];
      assert i + |what| <= |str| ==> str[i..i + |what|][0] == str[i];
    }
  }

  ghost predicate ReplacesRight(what: string) {
    what != "" && forall str, with :: Loop(str, 0, what, with) == Replaced(str, what, with)
  }

  /** The first mark has no mark before it, so a lone mark is never escaped. */
  lemma LoneMark(str: string, with: string)
    ensures Loop(str, 0, [MARK], with) == Replaced(str, [MARK], with)
  {
    var what, f := [MARK], Find(str, [MARK], 0);
    FindIsFirst(str, what, 0);
    if f > 0 {
      assert !OccursAt(str, what, f - 1);
      assert str[f - 1..f] == [str[f - 1]];
    }
  }

  /** Two characters are too short: of two adjacent occurrences the second is skipped. */
  lemma TwoCharacters(c: char)
    requires c != MARK
    ensures Loop([MARK, MARK, c, MARK, c], 0, [MARK, c], "") != Replaced([MARK, MARK, c, MARK, c], [MARK, c], "")
  {
    var what, str := [MARK, c], [MARK, MARK, c, MARK, c];
    assert str[0..2] == [MARK, MARK] && str[1..3] == what;
    FindFirst(str, what, 0, 1);
    assert str[..0] + str[1..] == [MARK, c, MARK, c];
    FindNone([MARK, c, MARK, c], what, 3);
    assert Loop(str, 0, what, "") == [MARK, c, MARK, c];
    assert str[3..] == what;
    FindFirst(what, what, 0, 0);
    assert Replaced(what, what, "") == "";
    assert Replaced(str, what, "") == what;
  }

  /** The loop means what it is for, for every string, exactly when the specifier is not two characters long. */
  lemma ReplacesRightExactly(what: string)
    requires Specifier(what)
    ensures ReplacesRight(what) <==> |what| != 2
  {
    if |what| == 2 {
      assert what == [MARK, what[1]];
      TwoCharacters(what[1]);
    } else {
      forall str, with ensures Loop(str, 0, what, with) == Replaced(str, what, with) {
        if |what| == 1 {
          assert what == [MARK];
          LoneMark(str, with);
        } else {
          assert "" + str == str;
          LoopIsReplaced("", str, 0, what, with);
        }
      }
    }
  }

  /** `replaceFirstWithEscape(str, replaceWhat, replaceWith)`; the new contents of `str` are returned. */
  method ReplaceFirstWithEscape(text: string, replaceWhat: string, replaceWith: string) returns (str: string)
    ensures str == Loop(text, 0, replaceWhat, replaceWith)
    ensures Specifier(replaceWhat) && |replaceWhat| != 2 ==> str == Replaced(text, replaceWhat, replaceWith)
  {
    if Specifier(replaceWhat) {
      ReplacesRightExactly(replaceWhat);
    }
    hide Find, Specifier, ReplacesRight;
    str := text;
    var start := 0;
    var foundAt := Find(str, replaceWhat, start);
    while foundAt != -1
      invariant foundAt == Find(str, replaceWhat, start)
      invariant Loop(text, 0, replaceWhat, replaceWith) == Loop(str, start, replaceWhat, replaceWith)
      decreases |str|
    {
      if foundAt > 0 && str[foundAt - 1] == MARK {
        str := str[..foundAt - 1] + str[foundAt..];
        foundAt := foundAt + 1;
      } else {
        str := str[..foundAt] + replaceWith + str[foundAt + |replaceWhat|..];
        return;
      }
      start := foundAt + 1;
      foundAt := Find(str, replaceWhat, start);
    }
  }
}
