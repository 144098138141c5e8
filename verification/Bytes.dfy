/** C++ `char`, `int` and `std::string`, as the wire code sees them. */
module Bytes {
  /** A `char` is signed on the platforms the event bus is built for. */
  type schar = x: int | -128 <= x < 128

  type int32 = x: int | -0x8000_0000 <= x < 0x8000_0000

  /** A `std::string`: any bytes, zero included. */
  type Str = seq<schar>

  /** A string literal of the source, all of whose characters are ASCII. */
  function Ascii(s: string): (r: Str)
    requires forall i | 0 <= i < |s| :: s[i] as int < 128
    ensures |r| == |s|
    ensures forall i | 0 <= i < |s| :: r[i] == s[i] as int
  {
    seq(|s|, i requires 0 <= i < |s| && s[i] as int < 128 => Code(s[i]))
  }

  function Code(c: char): schar
    requires c as int < 128
  {
    c as int
  }

  /** `s.find(p) != npos` */
  predicate Contains(s: Str, p: Str) {
    exists i | 0 <= i <= |s| :: OccursAt(s, p, i)
  }

  predicate OccursAt(s: Str, p: Str, i: int) {
    0 <= i <= |s| - |p| && s[i..i + |p|] == p
  }

  /** What a string contains, every string around it contains too. */
  lemma ContainsInside(before: Str, s: Str, after: Str, p: Str)
    requires Contains(s, p)
    ensures Contains(before + s + after, p)
  {
    var i :| 0 <= i <= |s| && OccursAt(s, p, i);
    var whole := before + s + after;
    assert whole[|before| + i..|before| + i + |p|] == s[i..i + |p|];
    assert OccursAt(whole, p, |before| + i);
  }
}
