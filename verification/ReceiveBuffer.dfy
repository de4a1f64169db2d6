/** The fixed receive buffer of a connection on values: what one receive does to its bytes.
    `ServiceSession` refines these functions in place; the I/O protocol runs them under
    every interleaving. */
module ReceiveBuffer {
  import opened Framing

  const MAX_RECEIVE_BUFFER_SIZE := 4096

  datatype Buffer = Buffer(bytes: seq<byte>, committed: int) {
    predicate Valid() {
      |bytes| == MAX_RECEIVE_BUFFER_SIZE && 0 <= committed <= MAX_RECEIVE_BUFFER_SIZE
    }

    function Received(): seq<byte>
      requires Valid()
    {
      bytes[..committed]
    }

    function Remain(): nat
      requires Valid()
    {
      MAX_RECEIVE_BUFFER_SIZE - committed
    }
  }

  function EmptyBuffer(): (b: Buffer)
    ensures b.Valid() && b.Received() == []
  {
    Buffer(seq(MAX_RECEIVE_BUFFER_SIZE, _ => 0), 0)
  }

  /** Drops the first `size` committed bytes and moves the others to the front. */
  function ProcessCompleted(b: Buffer, size: nat): (r: Buffer)
    requires b.Valid() && size <= b.committed
    ensures r.Valid() && r.Received() == b.Received()[size..]
  {
    Buffer(b.bytes[size..b.committed] + b.bytes[b.committed - size..], b.committed - size)
  }

  /** The framing loop: drops every complete message from the front. */
  function Consume(b: Buffer): (r: Buffer)
    requires b.Valid()
    ensures r.Valid() && r.Received() == Residue(b.Received())
    decreases b.committed
  {
    if HasFrame(b.Received()) then Consume(ProcessCompleted(b, FrameSize(b.Received()))) else b
  }

  /** The kernel stores received bytes at the address captured in the request. */
  function Store(b: Buffer, offset: nat, data: seq<byte>): (r: Buffer)
    requires b.Valid() && offset + |data| <= MAX_RECEIVE_BUFFER_SIZE
    ensures r.Valid() && r.committed == b.committed
  {
    b.(bytes := b.bytes[..offset] + data + b.bytes[offset + |data|..])
  }

  function Commit(b: Buffer, size: nat): (r: Buffer)
    requires b.Valid() && b.committed + size <= MAX_RECEIVE_BUFFER_SIZE
    ensures r.Valid()
  {
    b.(committed := b.committed + size)
  }

  /** One receive, from the bytes arriving behind the committed ones to the end of the
      framing loop. */
  function Receive(b: Buffer, data: seq<byte>): (r: Buffer)
    requires b.Valid() && |data| <= b.Remain()
    ensures r.Valid() && r.Received() == Residue(b.Received() + data)
  {
    var committed := Commit(Store(b, b.committed, data), |data|);
    assert committed.Received() == b.Received() + data;
    Consume(committed)
  }

  /** A split of a stream in which every piece fits the space left when it arrives. */
  ghost predicate FitsInTurn(b: Buffer, pieces: seq<seq<byte>>)
    requires b.Valid()
    decreases |pieces|
  {
    pieces == [] || (|pieces[0]| <= b.Remain() && FitsInTurn(Receive(b, pieces[0]), pieces[1..]))
  }

  /** The buffer after the pieces, and all messages taken out on the way. */
  ghost function ReceiveAll(b: Buffer, pieces: seq<seq<byte>>): (r: (Buffer, seq<seq<byte>>))
    requires b.Valid() && FitsInTurn(b, pieces)
    ensures r.0.Valid()
    decreases |pieces|
  {
    if pieces == [] then (b, [])
    else
      var (end, later) := ReceiveAll(Receive(b, pieces[0]), pieces[1..]);
      (end, Frames(b.Received() + pieces[0]) + later)
  }

  /** Chunking independence: however a stream is cut, the messages taken out are those of
      the whole stream and the buffer is left with its residue. Malformed streams included. */
  lemma {:induction false} ChunkingIndependence(b: Buffer, pieces: seq<seq<byte>>)
    requires b.Valid() && FitsInTurn(b, pieces)
    requires !HasFrame(b.Received())
    ensures ReceiveAll(b, pieces).1 == Frames(b.Received() + Concat(pieces))
    ensures ReceiveAll(b, pieces).0.Received() == Residue(b.Received() + Concat(pieces))
    decreases |pieces|
  {
    hide Receive, Residue, Frames, HasFrame, Buffer.Received;
    var held := b.Received();
    if pieces == [] {
      assert held + Concat(pieces) == held;
      NoFrameNoMessages(held);
    } else {
      var first, tail := held + pieces[0], Concat(pieces[1..]);
      ResidueHasNoFrame(first);
      ChunkingIndependence(Receive(b, pieces[0]), pieces[1..]);
      FramesAppend(first, tail);
      assert held + Concat(pieces) == first + tail;
    }
  }

  lemma NoFrameNoMessages(s: seq<byte>)
    requires !HasFrame(s)
    ensures Frames(s) == [] && Residue(s) == s
  {
  }

  /** Framing round trip: messages encoded back to back and received in any pieces come out
      one by one, in order and byte for byte, and leave the buffer empty. */
  lemma MessagesSurviveChunking(ms: seq<Message>, pieces: seq<seq<byte>>)
    requires forall m <- ms :: Encodable(m)
    requires Concat(pieces) == Concat(EncodeAll(ms))
    requires FitsInTurn(EmptyBuffer(), pieces)
    ensures var (end, messages) := ReceiveAll(EmptyBuffer(), pieces);
            && end.Received() == []
            && |messages| == |ms|
            && forall i :: 0 <= i < |ms| ==> IsFrame(messages[i]) && Decode(messages[i]) == ms[i]
  {
    assert EmptyBuffer().Received() + Concat(pieces) == Concat(EncodeAll(ms));
    ChunkingIndependence(EmptyBuffer(), pieces);
    StreamRoundTrip(ms);
  }

  /** What is left after a receive starts with a header whose length can never be met. */
  predicate BadHeader(s: seq<byte>) {
    |s| >= 4 && !(HEADER_SIZE <= FrameSize(s) <= MAX_RECEIVE_BUFFER_SIZE)
  }

  /** A buffer that has run full after the framing loop starts with a bad header. */
  lemma FullMeansBadHeader(b: Buffer)
    requires b.Valid() && !HasFrame(b.Received())
    ensures b.Remain() == 0 ==> BadHeader(b.Received())
  {
  }

  /** The length that the first bytes of `s` amount to, those still missing taken as zero. */
  function LengthSoFar(s: seq<byte>): int {
    FrameSize(s + [0, 0, 0, 0])
  }

  /** No message can ever start with `s`: its first two bytes are there, and the length they
      and the next two amount to is no length of a message that fits the buffer. A third or
      fourth byte, present or missing, can only make it larger than the buffer or negative. */
  predicate Doomed(s: seq<byte>) {
    |s| >= 2 && !(HEADER_SIZE <= LengthSoFar(s) <= MAX_RECEIVE_BUFFER_SIZE)
  }

  /** With a whole length word, a doomed stream is one with a bad header. */
  lemma DoomedIsBad(s: seq<byte>)
    requires |s| >= 4
    ensures Doomed(s) <==> BadHeader(s)
  {
    hide DecodeInt32;
    assert (s + [0, 0, 0, 0])[..4] == s[..4];
  }

  /** Once doomed, always doomed. */
  lemma StaysDoomed(s: seq<byte>, data: seq<byte>)
    requires Doomed(s)
    ensures Doomed(s + data)
  {
    var before, after := (s + [0, 0, 0, 0])[..4], (s + data + [0, 0, 0, 0])[..4];
    assert before[0] == after[0] && before[1] == after[1];
    assert |s| >= 3 ==> before[2] == after[2];
    assert |s| >= 4 ==> before[3] == after[3];
    assert |s| == 2 ==> before[2] == 0;
    assert |s| < 4 ==> before[3] == 0;
  }

  lemma DoomedHasNoFrame(s: seq<byte>)
    requires Doomed(s) && |s| <= MAX_RECEIVE_BUFFER_SIZE
    ensures !HasFrame(s)
  {
    if |s| >= 4 {
      DoomedIsBad(s);
    }
  }

  /** Bytes that complete a message: the rest of a length word that is good, then zeros. */
  lemma Completion(s: seq<byte>) returns (data: seq<byte>)
    requires !Doomed(s) && !HasFrame(s) && |s| <= MAX_RECEIVE_BUFFER_SIZE
    ensures |s + data| <= MAX_RECEIVE_BUFFER_SIZE && HasFrame(s + data)
  {
    var word := if |s| == 0 then [8, 0, 0, 0] else if |s| == 1 then [s[0], 8, 0, 0] else (s + [0, 0, 0, 0])[..4];
    if |s| >= 4 {
      DoomedIsBad(s);
      data := seq(FrameSize(s) - |s|, _ => 0);
      hide DecodeInt32;
      assert (s + data)[..4] == s[..4];
    } else {
      assert word[..|s|] == s;
      var size := DecodeInt32(word);
      assert HEADER_SIZE <= size <= MAX_RECEIVE_BUFFER_SIZE;
      data := word[|s|..] + seq(size - 4, _ => 0);
      hide DecodeInt32;
      assert s + data == word + seq(size - 4, _ => 0);
      assert (s + data)[..4] == word;
    }
  }

  /** Exactly when a connection can still deliver a message: some continuation that fits the
      buffer completes one, if and only if what it has received is not doomed. */
  lemma CanStillDeliver(b: Buffer)
    requires b.Valid() && !HasFrame(b.Received())
    ensures (exists data: seq<byte> :: |data| <= b.Remain() && Frames(b.Received() + data) != [])
            <==> !Doomed(b.Received())
  {
    var s := b.Received();
    if Doomed(s) {
      forall data: seq<byte> | |data| <= b.Remain()
        ensures Frames(s + data) == []
      {
        StaysDoomed(s, data);
        DoomedHasNoFrame(s + data);
      }
    } else {
      var data := Completion(s);
      assert Frames(s + data) != [];
    }
  }

  /** Wedged for good: behind doomed bytes, whatever arrives in however many pieces, no message
      is ever taken out again. */
  lemma {:induction false} WedgedForGood(b: Buffer, pieces: seq<seq<byte>>)
    requires b.Valid() && FitsInTurn(b, pieces) && Doomed(b.Received())
    ensures ReceiveAll(b, pieces).1 == []
    ensures ReceiveAll(b, pieces).0.Received() == b.Received() + Concat(pieces)
    decreases |pieces|
  {
    hide Receive, Doomed, HasFrame;
    if pieces == [] {
      assert b.Received() + Concat(pieces) == b.Received();
    } else {
      var first := b.Received() + pieces[0];
      StaysDoomed(b.Received(), pieces[0]);
      DoomedHasNoFrame(first);
      NoFrameNoMessages(first);
      WedgedForGood(Receive(b, pieces[0]), pieces[1..]);
      assert first + Concat(pieces[1..]) == b.Received() + Concat(pieces);
    }
  }

  /** No wedging: after every receive there is room for more bytes, unless the header now at
      the front is bad; and one receive takes out at most 512 messages. */
  lemma RoomAfterReceive(b: Buffer, data: seq<byte>)
    requires b.Valid() && |data| <= b.Remain()
    ensures Receive(b, data).Remain() == 0 ==> BadHeader(Residue(b.Received() + data))
    ensures |Frames(b.Received() + data)| <= 512
  {
    ResidueHasNoFrame(b.Received() + data);
    FramesCount(b.Received() + data);
    FullMeansBadHeader(Receive(b, data));
  }

  /** What is left of a prefix of encoded messages never starts with a bad header. */
  lemma PrefixHasGoodHeader(ms: seq<Message>, prefix: seq<byte>, rest: seq<byte>)
    requires forall m <- ms :: Encodable(m) && HEADER_SIZE + |m.payload| <= MAX_RECEIVE_BUFFER_SIZE
    requires prefix + rest == Concat(EncodeAll(ms))
    ensures !BadHeader(Residue(prefix))
  {
    hide DecodeInt32, EncodeInt32, Concat, Decode;
    var left := Residue(prefix);
    if |left| >= 4 {
      StreamRoundTrip(ms);
      FramesAppend(prefix, rest);
      assert HasFrame(left + rest);
      assert Frames(left + rest)[0] == EncodeAll(ms)[|Frames(prefix)|];
      assert (left + rest)[..4] == left[..4];
    }
  }

  /** No peer that sends messages of at most 4096 bytes can fill the buffer: at every point
      of its stream, however cut, there is room for the next bytes. */
  lemma MessagesNeverWedge(ms: seq<Message>, pieces: seq<seq<byte>>, rest: seq<byte>)
    requires forall m <- ms :: Encodable(m) && HEADER_SIZE + |m.payload| <= MAX_RECEIVE_BUFFER_SIZE
    requires Concat(pieces) + rest == Concat(EncodeAll(ms))
    requires FitsInTurn(EmptyBuffer(), pieces)
    ensures ReceiveAll(EmptyBuffer(), pieces).0.Remain() > 0
  {
    assert EmptyBuffer().Received() + Concat(pieces) == Concat(pieces);
    ChunkingIndependence(EmptyBuffer(), pieces);
    ResidueHasNoFrame(Concat(pieces));
    PrefixHasGoodHeader(ms, Concat(pieces), rest);
    FullMeansBadHeader(ReceiveAll(EmptyBuffer(), pieces).0);
  }
}
