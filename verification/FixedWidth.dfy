/** Printing a number into a bounded buffer: include/easylogging++/easylogging++.cc, lines 990-1009. */
module FixedWidth {
  import opened Decimals

  /** Room for digits in the local buffer of ten characters, before its terminator. */
  const ROOM := 8

  function Min(a: int, b: int): int {
    if a < b then a else b
  }

  function Width(len: int): nat {
    if len <= 0 then 0 else Min(len, ROOM)
  }

  function Digits(n: nat, width: nat): string {
    if n == 0 then "0" else Tail(n, width)
  }

  function Padded(digits: string, width: nat): string {
    if |digits| < width then Zeros(width - |digits|) + digits else digits
  }

  /** The text the function prints, before it is cut at the end of the target buffer. */
  function Text(n: nat, len: int, zeroPadded: bool): string {
    var digits := Digits(n, Width(len));
    if zeroPadded then Padded(digits, Width(len)) else digits
  }

  // ---------------------------------------------------------------- what the text means

  lemma DigitsMeaning(n: nat, width: nat)
    requires width > 0
    ensures 1 <= |Digits(n, width)| <= width && Denotes(Digits(n, width), n % Power10(width))
  {
    if n == 0 {
      assert "0"[..0] == "";
      assert Value("0") == 0 && IsDigit("0"[0]);
      RemainderOfZero(Power10(width));
    } else {
      TailMeaning(n, width);
      assert |Tail(n, width)| >= 1;
    }
  }

  /** Main result, for every width: the text's digits stand for the number modulo the power of ten, with the
      width cut to eight; padded they are exactly that many; unpadded they have no leading zero unless the
      number was too long and was cut, and a zero is a single digit; without a width only a zero is printed. */
  lemma TextMeaning(n: nat, len: int, zeroPadded: bool)
    ensures var text, width := Text(n, len, zeroPadded), Width(len);
            && Denotes(text, n % Power10(width))
            && if width == 0 then text == if n == 0 then "0" else ""
               else if zeroPadded then |text| == width
               else if n == 0 then text == "0"
               else if n < Power10(width) then 1 <= |text| && Power10(|text| - 1) <= n < Power10(|text|)
               else |text| == width
  {
    var width := Width(len);
    var digits := Digits(n, width);
    if width == 0 {
      NoWidth(n);
    } else {
      DigitsMeaning(n, width);
      if n > 0 {
        TailLength(n, width);
      }
      hide Denotes, Power10, Tail, Width;
      if zeroPadded && |digits| < width {
        ZerosMeaning(width - |digits|, digits, n % Power10(width));
      }
    }
  }

  lemma NoWidth(n: nat)
    ensures Digits(n, 0) == (if n == 0 then "0" else "") && Denotes(Digits(n, 0), n % Power10(0))
  {
    assert n % 1 == 0;
    assert "0"[..0] == "";
    assert Value("0") == 0 && IsDigit("0"[0]);
  }

  // ---------------------------------------------------------------- the code that works in place

  /** The buffer after `text` was written from `buf` on: cut at `bufLim`, terminated when there is room. */
  predicate Wrote(was: seq<char>, now: seq<char>, text: string, buf: nat, bufLim: nat, end: nat)
    requires |was| == |now|
  {
    && end == (if buf < bufLim then Min(buf + |text|, bufLim) else buf)
    && forall j | 0 <= j < |now| ::
         now[j] == if buf <= j < end then text[j - buf] else if j == end < bufLim then '\0' else was[j]
  }

  /** `addToBuff(str, buf, bufLim)` for the characters of `str`, which a terminator follows; the new
      buffer pointer is returned. */
  method AddToBuff(str: string, target: array<char>, buf: nat, bufLim: nat) returns (end: nat)
    requires '\0' !in str && bufLim <= target.Length
    modifies target
    ensures Wrote(old(target[..]), target[..], str, buf, bufLim, end)
    ensures buf <= bufLim ==> buf <= end <= bufLim
  {
    end := buf;
    var i := 0;
    while end < bufLim
      invariant i == end - buf <= |str| && (buf < bufLim ==> end <= bufLim) && (buf >= bufLim ==> end == buf)
      invariant forall j | 0 <= j < target.Length && !(buf <= j < end) :: target[j] == old(target[j])
      invariant forall j | buf <= j < end :: target[j] == str[j - buf]
    {
      target[end] := if i < |str| then str[i] else '\0';
      if target[end] == '\0' {
        break;
      }
      i := i + 1;
      end := end + 1;
    }
  }

  /** The first half of `convertAndAddToBuff`: the digits of `n`, at most `len` of them, right-aligned in
      the local buffer; `p` points at the first. */
  method WriteDigits(number: nat, length: int, localBuff: array<char>) returns (p: nat)
    requires localBuff.Length == ROOM + 2
    modifies localBuff
    ensures p <= ROOM && localBuff[p..ROOM] == Digits(number, Width(length)) && '\0' !in localBuff[p..ROOM]
  {
    var n: nat, len := number, length;
    p := ROOM;
    if n > 0 {
      while n > 0 && p > 0 && len > 0
        invariant p <= ROOM && ROOM - p <= Width(length) && len == length - (ROOM - p)
        invariant '\0' !in localBuff[p..ROOM]
        invariant Tail(number, Width(length)) == Tail(n, Width(length) - (ROOM - p)) + localBuff[p..ROOM]
      {
        ghost var done := localBuff[p..ROOM];
        p := p - 1;
        localBuff[p] := Digit(n % 10);
        assert localBuff[p..ROOM] == [Digit(n % 10)] + done;
        n, len := n / 10, len - 1;
      }
    } else {
      p := p - 1;
      localBuff[p] := '0';
    }
  }

  /** The second half: zeros in front of the digits, while there is room and `length` asks for more. */
  method PadWithZeros(localBuff: array<char>, start: nat, length: int) returns (p: nat)
    requires localBuff.Length == ROOM + 2 && start <= ROOM && '\0' !in localBuff[start..ROOM]
    modifies localBuff
    ensures p <= ROOM && localBuff[p..ROOM] == Padded(old(localBuff[start..ROOM]), Width(length))
    ensures '\0' !in localBuff[p..ROOM]
  {
    hide Zeros, Padded;
    ghost var digits, width := localBuff[start..ROOM], Width(length);
    PaddedShape(digits, width);
    p := start;
    var len := length - (ROOM - start);
    while p > 0 && len > 0
      invariant p <= start && len == length - (ROOM - p)
      invariant ROOM - p <= if |digits| < width then width else |digits|
      invariant localBuff[p..ROOM] == Zeros(start - p) + digits && '\0' !in localBuff[p..ROOM]
    {
      ghost var done := localBuff[p..ROOM];
      p := p - 1;
      localBuff[p] := '0';
      len := len - 1;
      assert localBuff[p..ROOM] == ['0'] + done;
      OneMoreZero(start - p - 1, digits);
    }
  }

  lemma PaddedShape(digits: string, width: nat)
    ensures Padded(digits, width) == if |digits| < width then Zeros(width - |digits|) + digits else digits
    ensures Zeros(0) + digits == digits
  {
  }

  lemma OneMoreZero(k: nat, digits: string)
    ensures Zeros(k + 1) + digits == ['0'] + (Zeros(k) + digits)
  {
  }

  /** `convertAndAddToBuff(n, len, buf, bufLim, zeroPadded)`: the buffer pointer it returns never passes
      the limit. */
  method ConvertAndAddToBuff(n: nat, len: int, target: array<char>, buf: nat, bufLim: nat, zeroPadded: bool)
    returns (end: nat)
    requires bufLim <= target.Length
    modifies target
    ensures Wrote(old(target[..]), target[..], Text(n, len, zeroPadded), buf, bufLim, end)
    ensures buf <= bufLim ==> buf <= end <= bufLim
  {
    var localBuff := new char[ROOM + 2](_ => '\0');
    var p := WriteDigits(n, len, localBuff);
    if zeroPadded {
      p := PadWithZeros(localBuff, p, len);
    }
    assert target[..] == old(target[..]);
    end := AddToBuff(localBuff[p..ROOM], target, buf, bufLim);
  }
}
