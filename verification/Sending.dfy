/** The bounded buffer an outgoing message is written into, piece by piece. A piece that
    does not fit is dropped whole. */
module Sending {
  import opened Framing
  import opened ReceiveBuffer

  const MAX_MESSAGE_SIZE := 2048

  /** The bytes in the buffer after one more write. */
  function Written(contents: seq<byte>, piece: seq<byte>): (r: seq<byte>)
    ensures |contents| <= MAX_MESSAGE_SIZE ==> |r| <= MAX_MESSAGE_SIZE
  {
    if MAX_MESSAGE_SIZE < |contents| + |piece| then contents else contents + piece
  }

  function WrittenAll(contents: seq<byte>, pieces: seq<seq<byte>>): (r: seq<byte>)
    decreases |pieces|
    ensures |contents| <= MAX_MESSAGE_SIZE ==> |r| <= MAX_MESSAGE_SIZE
  {
    if pieces == [] then contents else WrittenAll(Written(contents, pieces[0]), pieces[1..])
  }

  class SendBuffer {
    const buffer: array<byte>
    var size: int

    ghost predicate Valid()
      reads this
    {
      buffer.Length == MAX_MESSAGE_SIZE && 0 <= size <= MAX_MESSAGE_SIZE
    }

    ghost function Contents(): seq<byte>
      requires Valid()
      reads this, buffer
    {
      buffer[..size]
    }

    constructor ()
      ensures Valid() && Contents() == [] && fresh(buffer) && buffer.Length == 2048
    {
      buffer := new byte[MAX_MESSAGE_SIZE](_ => 0);
      size := 0;
    }

    /** All or nothing. */
    method Write(piece: seq<byte>)
      requires Valid()
      modifies this, buffer
      ensures Valid() && Contents() == Written(old(Contents()), piece)
      ensures |old(Contents())| + |piece| <= 2048 ==> Contents() == old(Contents()) + piece
      ensures |old(Contents())| + |piece| > 2048 ==> Contents() == old(Contents())
    {
      if MAX_MESSAGE_SIZE < size + |piece| {
        return;
      }
      var i := 0;
      while i < |piece|
        invariant 0 <= i <= |piece| && size == old(size)
        invariant buffer[..size + i] == old(buffer[..size]) + piece[..i]
      {
        buffer[size + i] := piece[i];
        i := i + 1;
      }
      size := size + |piece|;
    }

    method GetBuffer() returns (bytes: seq<byte>)
      requires Valid()
      ensures bytes == Contents()
    {
      bytes := buffer[..size];
    }

    method Reset()
      requires Valid()
      modifies this`size
      ensures Valid() && Contents() == []
    {
      size := 0;
    }
  }

  /** Exactly when nothing is lost: a series of writes leaves all its bytes, in order, if and
      only if together they fit. */
  lemma {:induction false} NothingLostIff(contents: seq<byte>, pieces: seq<seq<byte>>)
    requires |contents| <= MAX_MESSAGE_SIZE
    ensures WrittenAll(contents, pieces) == contents + Concat(pieces)
            <==> |contents| + |Concat(pieces)| <= MAX_MESSAGE_SIZE
    ensures |WrittenAll(contents, pieces)| <= |contents| + |Concat(pieces)|
    decreases |pieces|
  {
    if pieces == [] {
      assert contents + Concat(pieces) == contents;
    } else {
      NothingLostIff(Written(contents, pieces[0]), pieces[1..]);
      assert contents + Concat(pieces) == (contents + pieces[0]) + Concat(pieces[1..]);
    }
  }

  /** The pieces with a mark. */
  function Marked(pieces: seq<seq<byte>>, marks: seq<bool>): seq<seq<byte>>
    requires |pieces| == |marks|
  {
    if pieces == [] then []
    else (if marks[0] then [pieces[0]] else []) + Marked(pieces[1..], marks[1..])
  }

  /** Each piece is marked exactly if it fits behind the marked ones before it. */
  ghost predicate MarksWhatFits(contents: seq<byte>, pieces: seq<seq<byte>>, marks: seq<bool>)
    requires |pieces| == |marks|
  {
    forall p :: 0 <= p < |pieces| ==>
      (marks[p] <==> |contents| + |Concat(Marked(pieces[..p], marks[..p]))| + |pieces[p]| <= 2048)
  }

  /** A series of writes leaves whole pieces only: exactly those that fit behind the ones kept
      before them, in order. */
  lemma {:induction false} WholePieces(contents: seq<byte>, pieces: seq<seq<byte>>) returns (kept: seq<bool>)
    requires |contents| <= 2048
    ensures |kept| == |pieces| && MarksWhatFits(contents, pieces, kept)
    ensures WrittenAll(contents, pieces) == contents + Concat(Marked(pieces, kept))
    decreases |pieces|
  {
    kept := [];
    if pieces == [] {
      assert contents + [] == contents;
    } else {
      var fits := |contents| + |pieces[0]| <= 2048;
      var later := WholePieces(Written(contents, pieces[0]), pieces[1..]);
      kept := [fits] + later;
      FirstMark(contents, pieces, fits, later);
    }
  }

  lemma FirstMark(contents: seq<byte>, pieces: seq<seq<byte>>, fits: bool, later: seq<bool>)
    requires pieces != [] && |later| == |pieces| - 1 && (fits <==> |contents| + |pieces[0]| <= 2048)
    requires MarksWhatFits(Written(contents, pieces[0]), pieces[1..], later)
    ensures MarksWhatFits(contents, pieces, [fits] + later)
    ensures contents + Concat(Marked(pieces, [fits] + later))
            == Written(contents, pieces[0]) + Concat(Marked(pieces[1..], later))
  {
    var marks := [fits] + later;
    assert marks[1..] == later;
    BehindFirst(contents, pieces, fits, later);
    forall p | 0 < p < |pieces|
      ensures marks[p] <==> |contents| + |Concat(Marked(pieces[..p], marks[..p]))| + |pieces[p]| <= 2048
    {
      assert pieces[..p][1..] == pieces[1..][..p - 1] && marks[..p] == [fits] + later[..p - 1];
      assert pieces[..p][0] == pieces[0] && pieces[1..][p - 1] == pieces[p] && later[p - 1] == marks[p];
      BehindFirst(contents, pieces[..p], fits, later[..p - 1]);
    }
  }

  lemma BehindFirst(contents: seq<byte>, pieces: seq<seq<byte>>, fits: bool, later: seq<bool>)
    requires pieces != [] && |later| == |pieces| - 1 && (fits <==> |contents| + |pieces[0]| <= 2048)
    ensures contents + Concat(Marked(pieces, [fits] + later))
            == Written(contents, pieces[0]) + Concat(Marked(pieces[1..], later))
  {
    var rest := Marked(pieces[1..], later);
    assert ([fits] + later)[1..] == later;
    if fits {
      assert ([pieces[0]] + rest)[1..] == rest;
      assert contents + (pieces[0] + Concat(rest)) == (contents + pieces[0]) + Concat(rest);
    } else {
      assert [] + rest == rest;
    }
  }

  /** A header and a payload written into a fresh buffer reach the peer's framing loop as one
      message, the one that was meant, provided they fit; a buffer of that size never does
      more than half fill the peer's receive buffer. */
  lemma SendThenReceive(m: Message)
    requires Encodable(m) && HEADER_SIZE + |m.payload| <= MAX_MESSAGE_SIZE
    ensures var wire := WrittenAll([], [EncodeInt32(HEADER_SIZE + |m.payload|),
                                        EncodeInt32(m.messageType), m.payload]);
            && |wire| <= EmptyBuffer().Remain()
            && Receive(EmptyBuffer(), wire).Received() == []
            && Frames(wire) == [wire] && IsFrame(wire) && Decode(wire) == m
  {
    var pieces: seq<seq<byte>> := [EncodeInt32(HEADER_SIZE + |m.payload|), EncodeInt32(m.messageType), m.payload];
    var wire := Encode(m);
    assert Concat(pieces[2..]) == m.payload + Concat(pieces[3..]);
    assert Concat(pieces[1..]) == pieces[1] + Concat(pieces[2..]);
    assert Concat(pieces) == wire;
    NothingLostIff([], pieces);
    EncodeRoundTrip(m);
    FrameInFront(wire, []);
    assert wire + [] == wire;
    assert EmptyBuffer().Received() + wire == wire;
  }
}
