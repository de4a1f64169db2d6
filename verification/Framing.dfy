/** The wire format: a message is a header of two 32-bit little-endian words, `size` and
    `message_type`, followed by the payload; `size` counts the header. `Frames` and
    `Residue` are the meaning of a byte stream, `IsParse` is that meaning stated without an
    algorithm, and the lemmas say how the two behave when a stream is cut into pieces. */
module Framing {
  type byte = x: int | 0 <= x < 256

  const HEADER_SIZE := 8
  const INT32_LIMIT := 0x8000_0000

  /** Reads four bytes as a two's complement `int`. */
  function DecodeInt32(b: seq<byte>): (n: int)
    requires |b| == 4
    ensures -INT32_LIMIT <= n < INT32_LIMIT
  {
    var u: int := b[0] as int + 0x100 * (b[1] as int + 0x100 * (b[2] as int + 0x100 * b[3] as int));
    if u < INT32_LIMIT then u else u - 2 * INT32_LIMIT
  }

  function EncodeInt32(n: int): (b: seq<byte>)
    requires -INT32_LIMIT <= n < INT32_LIMIT
    ensures |b| == 4 && DecodeInt32(b) == n
  {
    var u := if n < 0 then n + 2 * INT32_LIMIT else n;
    var high := u / 0x100;
    var higher := high / 0x100;
    [u % 0x100, high % 0x100, higher % 0x100, higher / 0x100]
  }

  /** The `size` word of the header at the start of `s`. */
  function FrameSize(s: seq<byte>): int
    requires |s| >= 4
  {
    DecodeInt32(s[..4])
  }

  /** The `message_type` word, after its conversion from `uint` to the dispatcher's `int`. */
  function MessageType(s: seq<byte>): int
    requires |s| >= HEADER_SIZE
  {
    DecodeInt32(s[4..8])
  }

  /** `s` starts with a complete, well-formed message. */
  predicate HasFrame(s: seq<byte>) {
    |s| >= HEADER_SIZE && HEADER_SIZE <= FrameSize(s) <= |s|
  }

  /** `f` is exactly one message. */
  predicate IsFrame(f: seq<byte>) {
    |f| >= HEADER_SIZE && FrameSize(f) == |f|
  }

  /** The messages that a stream starting with `s` has completed so far. */
  function Frames(s: seq<byte>): seq<seq<byte>>
    decreases |s|
  {
    if HasFrame(s) then [s[..FrameSize(s)]] + Frames(s[FrameSize(s)..]) else []
  }

  /** What is left of `s` after those messages. */
  function Residue(s: seq<byte>): seq<byte>
    decreases |s|
  {
    if HasFrame(s) then Residue(s[FrameSize(s)..]) else s
  }

  function Concat(parts: seq<seq<byte>>): seq<byte> {
    if parts == [] then [] else parts[0] + Concat(parts[1..])
  }

  /** `fs` is a list of messages and `rest` a remainder that starts no complete message,
      which together spell `s`. */
  ghost predicate IsParse(s: seq<byte>, fs: seq<seq<byte>>, rest: seq<byte>) {
    && s == Concat(fs) + rest
    && (forall f <- fs :: IsFrame(f))
    && !HasFrame(rest)
  }

  /** A message at the front of a longer stream is seen whatever follows it. */
  lemma FrameInFront(f: seq<byte>, rest: seq<byte>)
    requires IsFrame(f)
    ensures HasFrame(f + rest) && FrameSize(f + rest) == |f|
    ensures (f + rest)[..|f|] == f && (f + rest)[|f|..] == rest
  {
    hide DecodeInt32;
    assert (f + rest)[..4] == f[..4];
  }

  lemma FirstFrame(s: seq<byte>)
    requires HasFrame(s)
    ensures IsFrame(s[..FrameSize(s)])
  {
    hide DecodeInt32;
    assert s[..FrameSize(s)][..4] == s[..4];
  }

  lemma ParsePrepend(f: seq<byte>, s: seq<byte>, fs: seq<seq<byte>>, rest: seq<byte>)
    requires IsFrame(f) && IsParse(s, fs, rest)
    ensures IsParse(f + s, [f] + fs, rest)
  {
    hide IsFrame, HasFrame;
    assert ([f] + fs)[1..] == fs;
    assert f + (Concat(fs) + rest) == f + Concat(fs) + rest;
  }

  /** `Frames` and `Residue` are a parse of the stream. */
  lemma {:induction false} FramesParse(s: seq<byte>)
    ensures IsParse(s, Frames(s), Residue(s))
    decreases |s|
  {
    hide DecodeInt32;
    if !HasFrame(s) {
    } else {
      var f, rest := s[..FrameSize(s)], s[FrameSize(s)..];
      FirstFrame(s);
      FramesParse(rest);
      ParsePrepend(f, rest, Frames(rest), Residue(rest));
      assert s == f + rest;
    }
  }

  /** They are the only one: every parse of the stream is this one. */
  lemma {:induction false} ParseUnique(s: seq<byte>, fs: seq<seq<byte>>, rest: seq<byte>)
    requires IsParse(s, fs, rest)
    ensures fs == Frames(s) && rest == Residue(s)
    decreases |fs|
  {
    hide DecodeInt32;
    if fs == [] {
      assert s == rest;
    } else {
      var tail := Concat(fs[1..]) + rest;
      assert s == fs[0] + tail;
      FrameInFront(fs[0], tail);
      ParseUnique(tail, fs[1..], rest);
    }
  }

  /** The law of the incremental parser: parsing `a + b` is parsing `a`, then parsing what
      was left of `a` with `b` behind it. */
  lemma {:induction false} FramesAppend(a: seq<byte>, b: seq<byte>)
    ensures Frames(a + b) == Frames(a) + Frames(Residue(a) + b)
    ensures Residue(a + b) == Residue(Residue(a) + b)
    decreases |a|
  {
    hide DecodeInt32;
    if !HasFrame(a) {
    } else {
      var n := FrameSize(a);
      assert (a + b)[..4] == a[..4];
      assert (a + b)[..n] == a[..n] && (a + b)[n..] == a[n..] + b;
      FramesAppend(a[n..], b);
    }
  }

  /** Nothing complete is left behind. */
  lemma {:induction false} ResidueHasNoFrame(s: seq<byte>)
    ensures !HasFrame(Residue(s)) && |Residue(s)| <= |s|
    ensures Frames(Residue(s)) == [] && Residue(Residue(s)) == Residue(s)
    decreases |s|
  {
    hide DecodeInt32;
    if !HasFrame(s) {
    } else {
      ResidueHasNoFrame(s[FrameSize(s)..]);
    }
  }

  /** Each message takes at least a header, so a buffer of n bytes holds at most n/8. */
  lemma {:induction false} FramesCount(s: seq<byte>)
    ensures HEADER_SIZE * |Frames(s)| + |Residue(s)| <= |s|
    decreases |s|
  {
    hide DecodeInt32;
    if !HasFrame(s) {
    } else {
      FramesCount(s[FrameSize(s)..]);
    }
  }

  datatype Message = Message(messageType: int, payload: seq<byte>)

  /** A message whose two header words fit the wire format. */
  predicate Encodable(m: Message) {
    && -INT32_LIMIT <= m.messageType < INT32_LIMIT
    && HEADER_SIZE + |m.payload| < INT32_LIMIT
  }

  function Encode(m: Message): seq<byte>
    requires Encodable(m)
  {
    EncodeInt32(HEADER_SIZE + |m.payload|) + EncodeInt32(m.messageType) + m.payload
  }

  function Decode(f: seq<byte>): Message
    requires IsFrame(f)
  {
    Message(MessageType(f), f[HEADER_SIZE..])
  }

  function EncodeAll(ms: seq<Message>): seq<seq<byte>>
    requires forall m <- ms :: Encodable(m)
  {
    seq(|ms|, i requires 0 <= i < |ms| => Encode(ms[i]))
  }

  lemma EncodeRoundTrip(m: Message)
    requires Encodable(m)
    ensures IsFrame(Encode(m)) && Decode(Encode(m)) == m
  {
    var size, kind := EncodeInt32(HEADER_SIZE + |m.payload|), EncodeInt32(m.messageType);
    assert Encode(m)[..4] == size && Encode(m)[4..8] == kind && Encode(m)[8..] == m.payload;
  }

  /** The number that these bytes spell, lowest byte first. */
  function Spelled(b: seq<byte>): int {
    if b == [] then 0 else b[0] as int + 0x100 * Spelled(b[1..])
  }

  /** The header on the wire: the size word, then the type word, each with its lowest byte
      first; a negative type is spelled as its two's complement. */
  lemma HeaderBytes(m: Message)
    requires Encodable(m)
    ensures var b := Encode(m);
            && |b| == 8 + |m.payload| && b[8..] == m.payload
            && Spelled(b[..4]) == |b| && Spelled(b[4..8]) == m.messageType % 0x1_0000_0000
  {
    var b, size, kind := Encode(m), EncodeInt32(HEADER_SIZE + |m.payload|), EncodeInt32(m.messageType);
    hide Spelled;
    WordBytes(HEADER_SIZE + |m.payload|);
    WordBytes(m.messageType);
    assert b[..4] == size && b[4..8] == kind;
  }

  lemma WordBytes(n: int)
    requires -INT32_LIMIT <= n < INT32_LIMIT
    ensures Spelled(EncodeInt32(n)) == n % 0x1_0000_0000
  {
    var b := EncodeInt32(n);
    hide EncodeInt32;
    FourSpelled(b);
  }

  lemma FourSpelled(b: seq<byte>)
    requires |b| == 4
    ensures 0 <= Spelled(b) < 0x1_0000_0000
    ensures DecodeInt32(b) == Spelled(b) - if Spelled(b) < 0x8000_0000 then 0 else 0x1_0000_0000
  {
    assert b[1..][1..] == b[2..] && b[2..][1..] == b[3..] && b[3..][1..] == [];
    assert Spelled(b[3..]) == b[3] as int;
    assert Spelled(b[2..]) == b[2] as int + 0x100 * Spelled(b[3..]);
    assert Spelled(b[1..]) == b[1] as int + 0x100 * Spelled(b[2..]);
  }

  lemma DecodeRoundTrip(f: seq<byte>)
    requires IsFrame(f) && |f| < INT32_LIMIT
    ensures Encodable(Decode(f)) && Encode(Decode(f)) == f
  {
    var m := Decode(f);
    DecodeInt32Injective(EncodeInt32(|f|), f[..4]);
    DecodeInt32Injective(EncodeInt32(m.messageType), f[4..8]);
    assert f == f[..4] + f[4..8] + f[8..];
  }

  lemma DecodeInt32Injective(a: seq<byte>, b: seq<byte>)
    requires |a| == |b| == 4 && DecodeInt32(a) == DecodeInt32(b)
    ensures a == b
  {
    Digits(a[0], b[0], a[1] as int + 0x100 * (a[2] as int + 0x100 * a[3] as int),
           b[1] as int + 0x100 * (b[2] as int + 0x100 * b[3] as int));
    Digits(a[1], b[1], a[2] as int + 0x100 * a[3] as int, b[2] as int + 0x100 * b[3] as int);
    Digits(a[2], b[2], a[3] as int, b[3] as int);
  }

  lemma Digits(x: byte, y: byte, p: int, q: int)
    requires x as int + 0x100 * p == y as int + 0x100 * q
    ensures x == y && p == q
  {
  }

  /** A list of messages sent back to back parses to exactly those messages, with nothing
      left over, and each decodes to the message that was encoded. */
  lemma StreamRoundTrip(ms: seq<Message>)
    requires forall m <- ms :: Encodable(m)
    ensures Frames(Concat(EncodeAll(ms))) == EncodeAll(ms)
    ensures Residue(Concat(EncodeAll(ms))) == []
    ensures forall i :: 0 <= i < |ms| ==> IsFrame(EncodeAll(ms)[i]) && Decode(EncodeAll(ms)[i]) == ms[i]
  {
    forall i | 0 <= i < |ms|
      ensures IsFrame(EncodeAll(ms)[i]) && Decode(EncodeAll(ms)[i]) == ms[i]
    {
      EncodeRoundTrip(ms[i]);
    }
    var s := Concat(EncodeAll(ms));
    assert s == s + [];
    ParseUnique(s, EncodeAll(ms), []);
  }
}
