/** The wire codec of src/vertx/ClusteredMessage.h: a printer that writes through a cursor into a
    buffer of 2048 bytes, and a parser that advances a cursor. */
module Codec {
  import opened Bytes
  import opened Wrappers

  const BUFFER_SIZE := 2048

  /** `std::any`, as far as the bus looks into it: only a `std::string` is told apart. */
  datatype Any = Nothing | Text(text: Str) | Other(tag: int)

  /** The user's consumer and response handler carried by a request to a local consumer. */
  datatype LocalCall = LocalCall(func: nat, callback: nat)

  datatype Message = Message(
    messageSize: int32, protocolVersion: schar, systemCodecId: schar, send: bool,
    address: Str, replay: Str, port: int32, host: Str, headers: int32, body: Any,
    reply: Any, request: bool, local: Option<LocalCall>)

  /** The constructor with ten arguments; `_reply` stays empty and `local` is false. */
  function MakeMessage(messageSize: int32, protocolVersion: schar, systemCodecId: schar, send: bool, address: Str,
                       replay: Str, port: int32, host: Str, headers: int32, body: Any, request: bool): Message
  {
    Message(messageSize, protocolVersion, systemCodecId, send, address, replay, port, host, headers, body,
            Nothing, request, None)
  }

  // ---------------------------------------------------------------- integers

  const TWO8 := 0x100
  const TWO16 := 0x1_0000
  const TWO24 := 0x100_0000
  const TWO31 := 0x8000_0000
  const TWO32 := 0x1_0000_0000

  /** `(char) b` for `0 <= b < 256` */
  function ToChar(b: int): schar
    requires 0 <= b < TWO8
  {
    if b < 128 then b else b - TWO8
  }

  /** `c & 0xff` */
  function ToByte(c: schar): int {
    if c < 0 then c + TWO8 else c
  }

  /** `set_int`: the four bytes of the two's complement of `v`, highest first. */
  function IntBytes(v: int32): (r: Str)
    ensures |r| == 4
  {
    var u := if v < 0 then v + TWO32 else v;
    [ToChar(u / TWO24), ToChar(u / TWO16 % TWO8), ToChar(u / TWO8 % TWO8), ToChar(u % TWO8)]
  }

  /** `int_value` at the front of `b`. */
  function IntAt(b: Str): int32
    requires |b| >= 4
  {
    var u := ToByte(b[0]) * TWO24 + ToByte(b[1]) * TWO16 + ToByte(b[2]) * TWO8 + ToByte(b[3]);
    if u < TWO31 then u else u - TWO32
  }

  /** The number that four bytes stand for in base 256, highest first. */
  function Base256(b: Str): nat
    requires |b| >= 4
  {
    ((b[0] % TWO8 * TWO8 + b[1] % TWO8) * TWO8 + b[2] % TWO8) * TWO8 + b[3] % TWO8
  }

  /** The byte order on the wire: both directions stand for the same number modulo two to the 32nd, highest
      byte first. */
  lemma HighByteFirst(v: int32, b: Str)
    requires |b| >= 4
    ensures Base256(IntBytes(v)) == v % TWO32
    ensures IntAt(b) % TWO32 == Base256(b)
  {
    var u := if v < 0 then v + TWO32 else v;
    Bytes4(u);
    CharIsByte(u / TWO24);
    CharIsByte(u / TWO16 % TWO8);
    CharIsByte(u / TWO8 % TWO8);
    CharIsByte(u % TWO8);
    ByteIsRemainder(b[0]);
    ByteIsRemainder(b[1]);
    ByteIsRemainder(b[2]);
    ByteIsRemainder(b[3]);
  }

  lemma CharIsByte(b: int)
    requires 0 <= b < TWO8
    ensures ToChar(b) % TWO8 == b
  {
  }

  lemma ByteIsRemainder(c: schar)
    ensures ToByte(c) == c % TWO8
  {
  }

  /** Reading back a written integer, in front of anything. */
  lemma IntRoundTrip(v: int32, rest: Str)
    ensures IntAt(IntBytes(v) + rest) == v
  {
    var u := if v < 0 then v + TWO32 else v;
    var b := IntBytes(v) + rest;
    Bytes4(u);
    assert b[0] == IntBytes(v)[0] && b[1] == IntBytes(v)[1] && b[2] == IntBytes(v)[2] && b[3] == IntBytes(v)[3];
    assert ToByte(b[0]) == u / TWO24 && ToByte(b[1]) == u / TWO16 % TWO8;
    assert ToByte(b[2]) == u / TWO8 % TWO8 && ToByte(b[3]) == u % TWO8;
  }

  lemma Bytes4(u: int)
    requires 0 <= u < TWO32
    ensures u == u / TWO24 * TWO24 + u / TWO16 % TWO8 * TWO16 + u / TWO8 % TWO8 * TWO8 + u % TWO8
    ensures u / TWO24 < TWO8
  {
    var v := u / TWO8;
    var w := v / TWO8;
    assert w == u / TWO16 && w / TWO8 == u / TWO24;
    assert u == v * TWO8 + u % TWO8 && v == w * TWO8 + v % TWO8 && w == w / TWO8 * TWO8 + w % TWO8;
  }

  /** Writing back a read integer restores all four signed chars. */
  lemma IntBytesRoundTrip(b: Str)
    requires |b| == 4
    ensures IntBytes(IntAt(b)) == b
  {
    var b0, b1, b2, b3 := ToByte(b[0]), ToByte(b[1]), ToByte(b[2]), ToByte(b[3]);
    var u := b0 * TWO24 + b1 * TWO16 + b2 * TWO8 + b3;
    Digit(b0 * TWO16 + b1 * TWO8 + b2, b3);
    Digit(b0 * TWO8 + b1, b2);
    Digit(b0, b1);
    assert u / TWO8 == b0 * TWO16 + b1 * TWO8 + b2;
    assert u / TWO16 == u / TWO8 / TWO8;
    assert u / TWO24 == u / TWO16 / TWO8;
  }

  lemma Digit(high: nat, low: int)
    requires 0 <= low < TWO8
    ensures (high * TWO8 + low) / TWO8 == high && (high * TWO8 + low) % TWO8 == low
  {
  }

  // ---------------------------------------------------------------- the printer

  /** What `to_cstring` writes after the size and the three flags, field by field. */
  function Fields(m: Message): Str
    requires FitsBuffer(m)
  {
    IntBytes(|m.replay|) + (m.replay + FromAddress(m))
  }

  function FromAddress(m: Message): Str
    requires FitsBuffer(m)
  {
    IntBytes(|m.address|) + (m.address + FromPort(m))
  }

  function FromPort(m: Message): Str
    requires FitsBuffer(m)
  {
    IntBytes(m.port) + FromHost(m)
  }

  function FromHost(m: Message): Str
    requires FitsBuffer(m)
  {
    IntBytes(|m.host|) + (m.host + FromHeaders(m))
  }

  function FromHeaders(m: Message): Str
    requires FitsBuffer(m)
  {
    IntBytes(4) + Payload(m)
  }

  /** Only a string `_reply` is written. */
  function Payload(m: Message): Str
    requires FitsBuffer(m)
  {
    if m.reply.Text? then IntBytes(|m.reply.text|) + m.reply.text else []
  }

  function FrameLength(m: Message): nat {
    27 + |m.replay| + |m.address| + |m.host| + (if m.reply.Text? then 4 + |m.reply.text| else 0)
  }

  predicate FitsBuffer(m: Message) {
    FrameLength(m) <= BUFFER_SIZE
  }

  /** The frame `to_string` returns. */
  function Print(m: Message): (r: Str)
    requires FitsBuffer(m)
    ensures |r| == FrameLength(m)
  {
    IntBytes(FrameLength(m) - 4) + ([1, 9, 0] + Fields(m))
  }

  // ---------------------------------------------------------------- the parser

  /** `string_value` at the front of `b`, with the bytes after it. `None`: the read leaves `b`. */
  function StrAt(b: Str): (r: Option<(Str, Str)>)
    ensures r.Some? ==> |r.value.1| <= |b| && r.value.1 == b[|b| - |r.value.1|..]
  {
    if |b| < 4 then None
    else
      var size := IntAt(b);
      if size <= 0 then Some(([], b[4..]))
      else if 4 + size > |b| then None
      else Some((b[4..4 + size], b[4 + size..]))
  }

  /** `to_message(msg, false)` on the memory `b` that starts at `msg.c_str()`, with the bytes after
      the cursor. `None`: the parser reads past the end of `b`. */
  function Parse(b: Str): (r: Option<(Message, Str)>)
  {
    if |b| < 7 then None
    else
      var (address, b1) :- StrAt(b[7..]);
      var (replay, b2) :- StrAt(b1);
      if |b2| < 4 then None
      else
        var (host, b3) :- StrAt(b2[4..]);
        if |b3| < 4 then None
        else
          var (body, rest) :- StrAt(b3[4..]);
          Some((MakeMessage(IntAt(b), b[4], b[5], b[6] == 0, address, replay,
                            IntAt(b2), host, IntAt(b3), Text(body), false), rest))
  }

  // ---------------------------------------------------------------- round trip

  lemma StrRoundTrip(s: Str, next: Str, tail: Str)
    requires |s| < TWO31
    ensures StrAt(IntBytes(|s|) + (s + next) + tail) == Some((s, next + tail))
  {
    var b := IntBytes(|s|) + (s + next) + tail;
    assert b == IntBytes(|s|) + (s + next + tail);
    IntRoundTrip(|s|, s + next + tail);
    assert b[4..4 + |s|] == s;
    assert b[4 + |s|..] == next + tail;
  }

  lemma IntFieldRoundTrip(v: int32, next: Str, tail: Str)
    ensures IntAt(IntBytes(v) + next + tail) == v
    ensures (IntBytes(v) + next + tail)[4..] == next + tail
  {
    assert IntBytes(v) + next + tail == IntBytes(v) + (next + tail);
    IntRoundTrip(v, next + tail);
  }

  /** What one hop makes of a message: the parser fills `address` from the first string, which the
      printer wrote from `replay`. */
  function Hop(m: Message, body: Str): Message
    requires FitsBuffer(m)
  {
    MakeMessage(FrameLength(m) - 4, 1, 9, true, m.replay, m.address, m.port, m.host, 4, Text(body), false)
  }

  /** The parser's reads one by one. */
  lemma FieldsRoundTrip(m: Message, tail: Str)
    requires FitsBuffer(m)
    ensures StrAt(Fields(m) + tail) == Some((m.replay, FromAddress(m) + tail))
    ensures StrAt(FromAddress(m) + tail) == Some((m.address, FromPort(m) + tail))
    ensures |FromPort(m) + tail| >= 4
    ensures IntAt(FromPort(m) + tail) == m.port && (FromPort(m) + tail)[4..] == FromHost(m) + tail
    ensures StrAt(FromHost(m) + tail) == Some((m.host, FromHeaders(m) + tail))
    ensures |FromHeaders(m) + tail| >= 4
    ensures IntAt(FromHeaders(m) + tail) == 4 && (FromHeaders(m) + tail)[4..] == Payload(m) + tail
  {
    FieldShapes(m);
    assert |m.replay| < TWO31 && |m.address| < TWO31 && |m.host| < TWO31;
    hide *;
    StrRoundTrip(m.replay, FromAddress(m), tail);
    StrRoundTrip(m.address, FromPort(m), tail);
    IntFieldRoundTrip(m.port, FromHost(m), tail);
    StrRoundTrip(m.host, FromHeaders(m), tail);
    IntFieldRoundTrip(4, Payload(m), tail);
  }

  lemma StartRoundTrip(m: Message, tail: Str)
    requires FitsBuffer(m)
    ensures var b := Print(m) + tail;
            && |b| >= 7 && IntAt(b) == FrameLength(m) - 4
            && b[4] == 1 && b[5] == 9 && b[6] == 0 && b[7..] == Fields(m) + tail
  {
    var b, flags: Str, fields := Print(m) + tail, [1, 9, 0], Fields(m);
    assert b == IntBytes(FrameLength(m) - 4) + (flags + fields) + tail;
    hide *;
    IntFieldRoundTrip(FrameLength(m) - 4, flags + fields, tail);
    assert b[4..] == flags + fields + tail;
    assert b[4] == b[4..][0] && b[5] == b[4..][1] && b[6] == b[4..][2];
    assert b[7..] == b[4..][3..] == fields + tail;
  }

  /** What a hop leaves of a message, field by field. */
  ghost predicate Hopped(m: Message, r: Message)
    requires FitsBuffer(m)
  {
    && r.messageSize == |Print(m)| - 4 && r.protocolVersion == 1 && r.systemCodecId == 9 && r.send
    && r.address == m.replay && r.replay == m.address && r.port == m.port && r.host == m.host && r.headers == 4
    && r.reply == Nothing && !r.request && r.local == None
  }

  lemma HopIsHopped(m: Message, body: Str)
    requires FitsBuffer(m)
    ensures Hopped(m, Hop(m, body)) && Hop(m, body).body == Text(body)
  {
    hide Print;
  }

  /** Every parse, field by field: the size, three flags and then the strings and numbers in the order in which
      the parser reads them, the address first. */
  ghost predicate ReadsFields(b: Str, r: Message, b1: Str, b2: Str, b3: Str, rest: Str) {
    && |b| >= 7 && r.messageSize == IntAt(b) && r.protocolVersion == b[4] && r.systemCodecId == b[5]
    && (r.send <==> b[6] == 0)
    && StrAt(b[7..]) == Some((r.address, b1)) && StrAt(b1) == Some((r.replay, b2))
    && |b2| >= 4 && r.port == IntAt(b2) && StrAt(b2[4..]) == Some((r.host, b3))
    && |b3| >= 4 && r.headers == IntAt(b3) && r.body.Text? && StrAt(b3[4..]) == Some((r.body.text, rest))
    && r.reply == Nothing && !r.request && r.local == None
  }

  lemma ParsedFields(b: Str) returns (b1: Str, b2: Str, b3: Str)
    ensures Parse(b).Some? ==> ReadsFields(b, Parse(b).value.0, b1, b2, b3, Parse(b).value.1)
  {
    hide StrAt, IntAt;
    b1, b2, b3 := [], [], [];
    if Parse(b).Some? {
      b1 := StrAt(b[7..]).value.1;
      b2 := StrAt(b1).value.1;
      b3 := StrAt(b2[4..]).value.1;
    }
  }

  /** What is read as a string: nothing for a length of zero or less, and otherwise that many bytes. */
  lemma StringsAreCounted(b: Str)
    ensures StrAt(b).Some? <==> |b| >= 4 && IntAt(b) <= |b| - 4
    ensures StrAt(b).Some? ==>
              var (text, rest) := StrAt(b).value;
              |text| == (if IntAt(b) > 0 then IntAt(b) else 0) && b == b[..4] + text + rest
  {
    hide IntAt;
  }

  /** The frame byte by byte: the places of its fields. */
  lemma FrameLayout(m: Message)
    requires FitsBuffer(m)
    ensures var frame, r, a, h := Print(m), |m.replay|, |m.address|, |m.host|;
            && frame[..4] == IntBytes(|frame| - 4) && frame[4..7] == [1, 9, 0]
            && frame[7..11] == IntBytes(r) && frame[11..11 + r] == m.replay
            && frame[11 + r..15 + r] == IntBytes(a) && frame[15 + r..15 + r + a] == m.address
            && frame[15 + r + a..19 + r + a] == IntBytes(m.port)
            && frame[19 + r + a..23 + r + a] == IntBytes(h) && frame[23 + r + a..23 + r + a + h] == m.host
            && frame[23 + r + a + h..27 + r + a + h] == IntBytes(4)
            && frame[27 + r + a + h..] ==
               if m.reply.Text? then IntBytes(|m.reply.text|) + m.reply.text else []
  {
    hide *;
    AddressLayout(m);
    PlaceLayout(m, Print(m), 15 + |m.replay| + |m.address|);
  }

  lemma AddressLayout(m: Message)
    requires FitsBuffer(m)
    ensures var frame, r, a := Print(m), |m.replay|, |m.address|;
            && |frame| >= 15 + r + a
            && frame[..4] == IntBytes(|frame| - 4) && frame[4..7] == [1, 9, 0]
            && frame[7..11] == IntBytes(r) && frame[11..11 + r] == m.replay
            && frame[11 + r..15 + r] == IntBytes(a) && frame[15 + r..15 + r + a] == m.address
            && frame[15 + r + a..] == FromPort(m)
  {
    FieldShapes(m);
    var frame, r, a, flags: Str := Print(m), |m.replay|, |m.address|, [1, 9, 0];
    assert frame[0..] == IntBytes(|frame| - 4) + (flags + Fields(m));
    hide *;
    Slice(frame, 0, IntBytes(|frame| - 4), flags + Fields(m));
    Slice(frame, 4, flags, Fields(m));
    Slice(frame, 7, IntBytes(r), m.replay + FromAddress(m));
    Slice(frame, 11, m.replay, FromAddress(m));
    Slice(frame, 11 + r, IntBytes(a), m.address + FromPort(m));
    Slice(frame, 15 + r, m.address, FromPort(m));
  }

  lemma PlaceLayout(m: Message, frame: Str, at: nat)
    requires FitsBuffer(m) && at <= |frame| && frame[at..] == FromPort(m)
    ensures var h := |m.host|;
            && |frame| >= at + 12 + h
            && frame[at..at + 4] == IntBytes(m.port)
            && frame[at + 4..at + 8] == IntBytes(h) && frame[at + 8..at + 8 + h] == m.host
            && frame[at + 8 + h..at + 12 + h] == IntBytes(4)
            && frame[at + 12 + h..] == if m.reply.Text? then IntBytes(|m.reply.text|) + m.reply.text else []
  {
    FieldShapes(m);
    var h := |m.host|;
    hide *;
    Slice(frame, at, IntBytes(m.port), FromHost(m));
    Slice(frame, at + 4, IntBytes(h), m.host + FromHeaders(m));
    Slice(frame, at + 8, m.host, FromHeaders(m));
    Slice(frame, at + 8 + h, IntBytes(4), Payload(m));
  }

  lemma Slice(b: Str, at: nat, field: Str, rest: Str)
    requires at <= |b| && b[at..] == field + rest
    ensures at + |field| <= |b| && b[at..at + |field|] == field && b[at + |field|..] == rest
  {
    assert |b[at..]| == |field| + |rest|;
    assert b[at..at + |field|] == b[at..][..|field|];
    assert b[at + |field|..] == b[at..][|field|..];
  }

  /** Everything before the body is parsed back, whatever follows the frame. */
  lemma HeaderRoundTrip(m: Message, tail: Str)
    requires FitsBuffer(m)
    ensures var r, body := Parse(Print(m) + tail), StrAt(Payload(m) + tail);
            if body.None? then r.None? else r == Some((Hop(m, body.value.0), body.value.1))
    ensures var r := Parse(Print(m) + tail);
            r.Some? ==> Hopped(m, r.value.0)
  {
    hide *;
    FieldsRoundTrip(m, tail);
    StartRoundTrip(m, tail);
    ParseByReads(Print(m) + tail, m.replay, FromAddress(m) + tail, m.address, FromPort(m) + tail,
                 m.host, FromHeaders(m) + tail);
    var body := StrAt(Payload(m) + tail);
    if body.Some? {
      HopByFields(m, body.value.0);
      HopIsHopped(m, body.value.0);
    }
  }

  lemma HopByFields(m: Message, body: Str)
    requires FitsBuffer(m)
    ensures Hop(m, body) ==
            MakeMessage(FrameLength(m) - 4, 1, 9, true, m.replay, m.address, m.port, m.host, 4, Text(body), false)
  {
    hide Print;
  }

  /** The parser's result from its reads. */
  lemma ParseByReads(b: Str, address: Str, b1: Str, replay: Str, b2: Str, host: Str, b3: Str)
    requires |b| >= 7 && |b2| >= 4 && |b3| >= 4
    requires StrAt(b[7..]) == Some((address, b1)) && StrAt(b1) == Some((replay, b2)) && StrAt(b2[4..]) == Some((host, b3))
    ensures Parse(b) == match StrAt(b3[4..])
                        case None => None
                        case Some((body, rest)) =>
                          Some((MakeMessage(IntAt(b), b[4], b[5], b[6] == 0, address, replay, IntAt(b2), host,
                                            IntAt(b3), Text(body), false), rest))
  {
    hide IntAt, StrAt;
  }

  /** Main result for a message with a string reply: the frame is parsed back, whatever follows it,
      and the cursor stops at the end of the frame. */
  lemma RoundTrip(m: Message, suffix: Str)
    requires FitsBuffer(m) && m.reply.Text?
    ensures Parse(Print(m) + suffix) == Some((Hop(m, m.reply.text), suffix))
    ensures var r := Parse(Print(m) + suffix).value.0;
            && r.messageSize == |Print(m)| - 4 && r.protocolVersion == 1 && r.systemCodecId == 9 && r.send
            && r.address == m.replay && r.replay == m.address && r.port == m.port && r.host == m.host
            && r.headers == 4 && r.body == m.reply && !r.request
  {
    hide Print, Parse, Payload, StrAt, IntBytes;
    FieldShapes(m);
    HeaderRoundTrip(m, suffix);
    StrRoundTrip(m.reply.text, [], suffix);
    assert m.reply.text + [] == m.reply.text && [] + suffix == suffix;
  }

  /** A message without a string reply: the parser always reads a body, from memory past the frame,
      so it needs at least four bytes more; everything else is determined by the message. */
  lemma RoundTripWithoutReply(m: Message, junk: Str)
    requires FitsBuffer(m) && !m.reply.Text?
    ensures Parse(Print(m)).None?
    ensures var r := Parse(Print(m) + junk);
            r.Some? ==> |junk| >= 4 && r.value.0.body.Text? && r.value.0 == Hop(m, r.value.0.body.text)
  {
    HeaderRoundTrip(m, []);
    assert Print(m) + [] == Print(m);
    HeaderRoundTrip(m, junk);
    assert Payload(m) + junk == junk && Payload(m) + [] == [];
  }

  /** The body such a message is parsed with is whatever follows its frame, and not the body it has. */
  lemma BodyIsWhateverFollows(m: Message, body: Str)
    requires FitsBuffer(m) && !m.reply.Text? && |body| < TWO31
    ensures Parse(Print(m) + (IntBytes(|body|) + body)) == Some((Hop(m, body), []))
  {
    HeaderRoundTrip(m, IntBytes(|body|) + body);
    StrRoundTrip(body, [], []);
    hide Print, Parse, StrAt, IntBytes;
    assert IntBytes(|body|) + (body + []) + [] == IntBytes(|body|) + body;
    assert Payload(m) + (IntBytes(|body|) + body) == IntBytes(|body|) + body;
  }

  /** No frame with a string reply is a proper prefix of another, and the printer is injective on
      what it prints. */
  lemma FramesArePrefixFree(m: Message, n: Message, suffix: Str)
    requires FitsBuffer(m) && m.reply.Text? && FitsBuffer(n) && n.reply.Text?
    requires Print(m) + suffix == Print(n)
    ensures suffix == []
    ensures (m.replay, m.address, m.port, m.host, m.reply) == (n.replay, n.address, n.port, n.host, n.reply)
  {
    RoundTrip(m, suffix);
    RoundTrip(n, []);
    assert Print(n) + [] == Print(n);
  }

  /** The swap of one hop undoes itself on the second: when a server prints an answer with the parsed
      request's id and address, the requester parses them in its own order again, whatever memory follows
      either frame. */
  lemma TwoHopsRestoreTheAddresses(m: Message, junk: Str, answer: Message, junk': Str)
    requires FitsBuffer(m) && !m.reply.Text? && FitsBuffer(answer) && !answer.reply.Text?
    ensures var there, back := Parse(Print(m) + junk), Parse(Print(answer) + junk');
            there.Some? && back.Some? ==>
              answer.address == there.value.0.address && answer.replay == there.value.0.replay ==>
                back.value.0.address == m.address && back.value.0.replay == m.replay
  {
    RoundTripWithoutReply(m, junk);
    RoundTripWithoutReply(answer, junk');
    hide Print, Parse, FitsBuffer;
  }

  lemma ParseByPlace(b: Str, address: Str, b1: Str, replay: Str, b2: Str)
    requires |b| >= 7 && StrAt(b[7..]) == Some((address, b1)) && StrAt(b1) == Some((replay, b2)) && |b2| >= 4
    ensures var hostRead := StrAt(b2[4..]);
            Parse(b) ==
            if hostRead.None? || |hostRead.value.1| < 4 then None
            else match StrAt(hostRead.value.1[4..])
              case None => None
              case Some((body, rest)) =>
                Some((MakeMessage(IntAt(b), b[4], b[5], b[6] == 0, address, replay, IntAt(b2), hostRead.value.0,
                                  IntAt(hostRead.value.1), Text(body), false), rest))
  {
    hide StrAt, IntAt, MakeMessage;
  }

  /** Where the parser leaves the memory. */
  lemma ParseStops(b: Str, address: Str, b1: Str)
    requires |b| >= 7 && StrAt(b[7..]) == Some((address, b1))
    requires StrAt(b1).None? || |StrAt(b1).value.1| < 4
    ensures Parse(b).None?
  {
    hide StrAt, IntAt;
  }

  lemma ParseStopsAtOnce(b: Str)
    requires |b| < 7 || StrAt(b[7..]).None?
    ensures Parse(b).None?
  {
    hide StrAt, IntAt;
  }

  // ---------------------------------------------------------------- the code that works in place

  /** `set_int(value, startIdx, i_value)`; the new cursor is returned. */
  method SetInt(value: array<schar>, startIdx: nat, v: int32) returns (endIdx: nat)
    requires startIdx + 4 <= value.Length
    modifies value
    ensures endIdx == startIdx + 4
    ensures value[..endIdx] == old(value[..startIdx]) + IntBytes(v)
    ensures forall i | endIdx <= i < value.Length :: value[i] == old(value[i])
  {
    var u := if v < 0 then v + TWO32 else v;
    endIdx := startIdx;
    value[endIdx] := ToChar(u / TWO24);
    endIdx := endIdx + 1;
    value[endIdx] := ToChar(u / TWO16 % TWO8);
    endIdx := endIdx + 1;
    value[endIdx] := ToChar(u / TWO8 % TWO8);
    endIdx := endIdx + 1;
    value[endIdx] := ToChar(u % TWO8);
    endIdx := endIdx + 1;
  }

  /** A length by `set_int`, then `for (char c : s) result[index++] = c`. */
  method SetString(result: array<schar>, index: nat, s: Str) returns (end: nat)
    requires index + 4 + |s| <= result.Length && |s| < TWO31
    modifies result
    ensures end == index + 4 + |s|
    ensures result[..end] == old(result[..index]) + (IntBytes(|s|) + s)
    ensures forall i | end <= i < result.Length :: result[i] == old(result[i])
  {
    end := SetInt(result, index, |s|);
    for i := 0 to |s|
      invariant end == index + 4 + i
      invariant result[..end] == old(result[..index]) + (IntBytes(|s|) + s[..i])
      invariant forall j | end <= j < result.Length :: result[j] == old(result[j])
    {
      result[end] := s[i];
      end := end + 1;
    }
  }

  /** The part of `to_cstring` that writes the fields. */
  method SetFields(m: Message, result: array<schar>, index: nat) returns (end: nat)
    requires FitsBuffer(m) && index + FrameLength(m) - 7 <= result.Length
    modifies result
    ensures end == index + FrameLength(m) - 7
    ensures result[..end] == old(result[..index]) + Fields(m)
    ensures forall i | end <= i < result.Length :: result[i] == old(result[i])
  {
    FieldShapes(m);
    ghost var all := result[..index] + Fields(m);
    hide *;
    Regroup(result[..index], IntBytes(|m.replay|), m.replay, FromAddress(m));
    end := SetString(result, index, m.replay); // reply
    assert all == result[..end] + FromAddress(m);
    Regroup(result[..end], IntBytes(|m.address|), m.address, FromPort(m));
    end := SetString(result, end, m.address); // replay address
    assert all == result[..end] + FromPort(m);
    Regroup(result[..end], IntBytes(m.port), [], FromHost(m));
    end := SetInt(result, end, m.port);
    assert all == result[..end] + FromHost(m);
    Regroup(result[..end], IntBytes(|m.host|), m.host, FromHeaders(m));
    end := SetString(result, end, m.host);
    assert all == result[..end] + FromHeaders(m);
    Regroup(result[..end], IntBytes(4), [], Payload(m));
    end := SetInt(result, end, 4); // headers
    assert all == result[..end] + Payload(m);
    if m.reply.Text? {
      end := SetString(result, end, m.reply.text); // body
    }
  }

  /** `to_cstring(result, index)`: writes at the cursor, then the size at the start of the buffer. */
  method ToCString(m: Message, result: array<schar>, index: nat) returns (end: nat)
    requires FitsBuffer(m) && index + FrameLength(m) <= result.Length < TWO31
    modifies result
    ensures end == index + FrameLength(m)
    ensures result[..end] ==
            WithSize(old(result[..index]) + (IntBytes(m.messageSize) + ([1, 9, 0] + Fields(m))), end - 4)
    ensures forall i | end <= i < result.Length :: result[i] == old(result[i])
  {
    hide IntBytes, Fields;
    ghost var before := result[..index];
    end := SetInt(result, index, m.messageSize);
    ghost var head := result[..end];
    result[end], result[end + 1], result[end + 2] := 1, 9, 0; // protocol version, system codec string, send
    end := end + 3;
    assert result[..end] == head + [1, 9, 0];
    end := SetFields(m, result, end);
    ghost var all := result[..end];
    assert all == before + (IntBytes(m.messageSize) + ([1, 9, 0] + Fields(m)));
    assert forall i | 4 <= i < end :: result[i] == all[i];
    var _ := SetInt(result, 0, end - 4);
    assert result[4..end] == all[4..];
    assert result[..end] == result[..4] + result[4..end];
  }

  lemma FieldShapes(m: Message)
    requires FitsBuffer(m)
    ensures Fields(m) == IntBytes(|m.replay|) + (m.replay + FromAddress(m))
    ensures FromAddress(m) == IntBytes(|m.address|) + (m.address + FromPort(m))
    ensures FromPort(m) == IntBytes(m.port) + FromHost(m)
    ensures FromHost(m) == IntBytes(|m.host|) + (m.host + FromHeaders(m))
    ensures FromHeaders(m) == IntBytes(4) + Payload(m)
    ensures Payload(m) == if m.reply.Text? then IntBytes(|m.reply.text|) + m.reply.text else []
  {
  }

  lemma Regroup(a: Str, b: Str, c: Str, d: Str)
    ensures a + (b + (c + d)) == (a + (b + c)) + d
    ensures b + [] == b && [] + d == d
  {
  }

  function WithSize(frame: Str, size: int32): Str
    requires |frame| >= 4
  {
    IntBytes(size) + frame[4..]
  }

  /** `to_string(message)`: a zeroed string of 2048 bytes, printed into, cut at the cursor. */
  method ToString(m: Message) returns (frame: Str)
    requires FitsBuffer(m)
    ensures frame == Print(m)
  {
    var buffer := new schar[BUFFER_SIZE](_ => 0);
    var index := ToCString(m, buffer, 0);
    frame := buffer[..index];
    assert buffer[..0] == [];
  }

  /** `int_value(value, startIdx)` on the memory `value`. */
  method IntValue(value: array<schar>, startIdx: nat) returns (v: int32, endIdx: nat)
    requires startIdx + 4 <= value.Length
    ensures endIdx == startIdx + 4
    ensures v == IntAt(value[startIdx..])
  {
    var u := ToByte(value[startIdx]) * TWO24 + ToByte(value[startIdx + 1]) * TWO16
           + ToByte(value[startIdx + 2]) * TWO8 + ToByte(value[startIdx + 3]);
    v := if u < TWO31 then u else u - TWO32;
    endIdx := startIdx + 4;
  }

  /** `string_value(value, startIdx)`; `None` where the C++ reads outside `value`. */
  method StringValue(value: array<schar>, startIdx: nat) returns (s: Option<Str>, endIdx: nat)
    requires startIdx <= value.Length
    ensures endIdx <= value.Length
    ensures StrAt(value[startIdx..]) == if s.Some? then Some((s.value, value[endIdx..])) else None
  {
    endIdx := startIdx;
    if startIdx + 4 > value.Length {
      return None, endIdx;
    }
    var size;
    size, endIdx := IntValue(value, startIdx);
    var text := [];
    assert value[startIdx..][4..] == value[endIdx..];
    if size > 0 {
      if endIdx + size > value.Length {
        return None, endIdx;
      }
      var limit := endIdx + size;
      while endIdx < limit
        invariant startIdx + 4 <= endIdx <= limit <= value.Length
        invariant text == value[startIdx + 4..endIdx]
      {
        text := text + [value[endIdx]];
        endIdx := endIdx + 1;
      }
      assert value[startIdx..][4..4 + size] == text;
      assert value[startIdx..][4 + size..] == value[endIdx..];
    }
    s := Some(text);
  }

  /** The last four reads of `to_message`. */
  method ReadPlace(b: array<schar>, startIdx: nat)
    returns (ok: bool, port: int32, host: Str, headers: int32, body: Str, index: nat)
    requires startIdx + 4 <= b.Length
    ensures index <= b.Length && port == IntAt(b[startIdx..])
    ensures var hostRead := StrAt(b[startIdx..][4..]);
            if hostRead.None? || |hostRead.value.1| < 4 then !ok
            else
              && host == hostRead.value.0 && headers == IntAt(hostRead.value.1)
              && StrAt(hostRead.value.1[4..]) == if ok then Some((body, b[index..])) else None
  {
    hide *;
    ok, host, headers, body := false, [], 0, [];
    port, index := IntValue(b, startIdx);
    assert b[startIdx..][4..] == b[index..];
    var hostRead, bodyRead;
    hostRead, index := StringValue(b, index);
    if hostRead.None? || index + 4 > b.Length {
      return;
    }
    host := hostRead.value;
    ghost var b3 := b[index..];
    headers, index := IntValue(b, index);
    assert b3[4..] == b[index..];
    bodyRead, index := StringValue(b, index);
    if bodyRead.Some? {
      ok, body := true, bodyRead.value;
    }
  }

  /** `to_message(msg, false)` */
  method ToMessage(b: array<schar>) returns (m: Option<Message>, index: nat)
    ensures index <= b.Length
    ensures Parse(b[..]) == if m.Some? then Some((m.value, b[index..])) else None
  {
    hide *;
    m, index := None, 0;
    ghost var memory := b[..];
    if b.Length < 7 {
      ParseStopsAtOnce(memory);
      return;
    }
    var messageSize, address, replay;
    assert b[0..] == memory;
    messageSize, index := IntValue(b, index);
    var protocolVersion, systemCodecId, send := b[4], b[5], b[6] == 0;
    index := index + 3;
    assert b[7..] == memory[7..];
    address, index := StringValue(b, index);
    if address.None? {
      ParseStopsAtOnce(memory);
      return;
    }
    ghost var b1 := b[index..];
    replay, index := StringValue(b, index);
    if replay.None? || index + 4 > b.Length {
      ParseStops(memory, address.value, b1);
      return;
    }
    ghost var b2 := b[index..];
    var ok, port, host, headers, body;
    ok, port, host, headers, body, index := ReadPlace(b, index);
    ParseByPlace(memory, address.value, b1, replay.value, b2);
    if ok {
      m := Some(MakeMessage(messageSize, protocolVersion, systemCodecId, send, address.value, replay.value,
                            port, host, headers, Text(body), false));
    }
  }
}
