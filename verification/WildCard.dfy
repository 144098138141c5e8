/** The wildcard matcher: include/easylogging++/easylogging++.cc, lines 863-885. */
module WildCard {

  // ---------------------------------------------------------------- what matching means

  function Flatten(parts: seq<string>): string {
    if parts == [] then "" else parts[0] + Flatten(parts[1..])
  }

  /** `*` takes any piece, `?` one character, and every other pattern character itself. */
  predicate Takes(c: char, piece: string) {
    if c == '*' then true else if c == '?' then |piece| == 1 else piece == [c]
  }

  ghost predicate Splits(str: string, pattern: string, parts: seq<string>) {
    && |parts| == |pattern|
    && Flatten(parts) == str
    && forall i | 0 <= i < |parts| :: Takes(pattern[i], parts[i])
  }

  ghost predicate Matches(str: string, pattern: string) {
    exists parts :: Splits(str, pattern, parts)
  }

  // ---------------------------------------------------------------- how matching backtracks

  function Match(str: string, pattern: string): bool
    decreases |str| + |pattern|
  {
    if pattern == "" then str == ""
    else if pattern[0] == '*' then Match(str, pattern[1..]) || (str != "" && Match(str[1..], pattern))
    else str != "" && (pattern[0] == '?' || str[0] == pattern[0]) && Match(str[1..], pattern[1..])
  }

  lemma {:induction false} MatchIsSound(str: string, pattern: string) returns (parts: seq<string>)
    requires Match(str, pattern)
    ensures Splits(str, pattern, parts)
    decreases |str| + |pattern|
  {
    if pattern == "" {
      parts := [];
    } else if pattern[0] == '*' && !Match(str, pattern[1..]) {
      parts := MatchIsSound(str[1..], pattern);
      var longer := [[str[0]] + parts[0]] + parts[1..];
      assert longer[1..] == parts[1..];
      assert Flatten(longer) == [str[0]] + parts[0] + Flatten(parts[1..]) == [str[0]] + Flatten(parts) == str;
      parts := longer;
    } else {
      var piece := if pattern[0] == '*' then "" else [str[0]];
      var rest := MatchIsSound(str[|piece|..], pattern[1..]);
      parts := [piece] + rest;
      assert parts[1..] == rest;
      assert piece + str[|piece|..] == str;
    }
  }

  lemma {:induction false} MatchIsComplete(str: string, pattern: string, parts: seq<string>)
    requires Splits(str, pattern, parts)
    ensures Match(str, pattern)
    decreases |str| + |pattern|
  {
    if pattern != "" {
      var piece, rest := parts[0], Flatten(parts[1..]);
      assert str == piece + rest;
      if pattern[0] == '*' && piece != "" {
        var shorter := [piece[1..]] + parts[1..];
        assert shorter[1..] == parts[1..];
        assert str[1..] == piece[1..] + rest == Flatten(shorter);
        MatchIsComplete(str[1..], pattern, shorter);
      } else {
        assert str[|piece|..] == rest;
        MatchIsComplete(rest, pattern[1..], parts[1..]);
        assert pattern[0] == '*' ==> rest == str;
      }
    }
  }

  /** The matcher is sound and complete. */
  lemma MatchIsExact(str: string, pattern: string)
    ensures Match(str, pattern) <==> Matches(str, pattern)
  {
    if Match(str, pattern) {
      var parts := MatchIsSound(str, pattern);
    }
    if Matches(str, pattern) {
      var parts :| Splits(str, pattern, parts);
      MatchIsComplete(str, pattern, parts);
    }
  }

  // ---------------------------------------------------------------- familiar patterns

  predicate Plain(pattern: string) {
    '*' !in pattern && '?' !in pattern
  }

  /** A pattern without wildcards matches itself only, and with a star behind it what starts with it. */
  lemma {:induction false} PlainPatterns(str: string, pattern: string)
    requires Plain(pattern)
    ensures Matches(str, pattern) <==> str == pattern
    ensures Matches(str, pattern + "*") <==> pattern <= str
    decreases pattern
  {
    MatchIsExact(str, pattern);
    MatchIsExact(str, pattern + "*");
    hide Matches;
    if pattern == "" {
      assert "" + "*" == "*";
      StarMatches(str);
    } else {
      assert pattern[0] in pattern;
      assert (pattern + "*")[1..] == pattern[1..] + "*";
      if str != "" {
        PlainPatterns(str[1..], pattern[1..]);
        MatchIsExact(str[1..], pattern[1..]);
        MatchIsExact(str[1..], pattern[1..] + "*");
      }
    }
  }

  lemma {:induction false} StarMatches(str: string)
    ensures Match(str, "*")
  {
    assert "*"[1..] == "";
    if str != "" {
      StarMatches(str[1..]);
    }
  }

  /** A pattern of question marks matches the strings of its length. */
  lemma {:induction false} QuestionMarks(str: string, pattern: string)
    requires forall i | 0 <= i < |pattern| :: pattern[i] == '?'
    ensures Matches(str, pattern) <==> |str| == |pattern|
    decreases pattern
  {
    MatchIsExact(str, pattern);
    hide Matches;
    if pattern != "" && str != "" {
      QuestionMarks(str[1..], pattern[1..]);
      MatchIsExact(str[1..], pattern[1..]);
    }
  }

  // ---------------------------------------------------------------- the code that works in place

  /** The characters of a C string never include the terminator. */
  predicate CString(s: string) {
    '\0' !in s
  }

  /** `*ptr` at an index of a C string: the terminator at its end. */
  function At(s: string, i: nat): char
    requires i <= |s|
  {
    if i < |s| then s[i] else '\0'
  }

  /** `wildCardMatch(str, pattern)`: advances both pointers, and calls itself at a star. */
  method WildCardMatch(str: string, pattern: string) returns (r: bool)
    requires CString(str) && CString(pattern)
    ensures r <==> Matches(str, pattern)
    decreases |str| + |pattern|
  {
    MatchIsExact(str, pattern);
    hide Matches;
    var s, p := 0, 0;
    while At(pattern, p) != '\0'
      invariant s <= |str| && p <= |pattern|
      invariant Match(str, pattern) == Match(str[s..], pattern[p..])
      decreases |pattern| - p
    {
      ghost var restS, restP := str[s..], pattern[p..];
      assert restP[0] == pattern[p] && restP[1..] == pattern[p + 1..];
      if s < |str| {
        assert restS[0] == str[s] && restS[1..] == str[s + 1..];
      }
      if pattern[p] == '?' {
        if At(str, s) == '\0' {
          return false;
        }
        s, p := s + 1, p + 1;
      } else if pattern[p] == '*' {
        MatchIsExact(str[s..], pattern[p + 1..]);
        r := WildCardMatch(str[s..], pattern[p + 1..]);
        if r {
          return true;
        }
        if At(str, s) != '\0' {
          MatchIsExact(str[s + 1..], pattern[p..]);
          r := WildCardMatch(str[s + 1..], pattern[p..]);
          if r {
            return true;
          }
        }
        return false;
      } else {
        if At(str, s) != pattern[p] {
          return false;
        }
        s, p := s + 1, p + 1;
      }
    }
    r := At(str, s) == '\0' && At(pattern, p) == '\0';
  }
}
