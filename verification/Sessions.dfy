/** A connection: the receive buffer updated in place, the actor it feeds, and the
    completion handlers of its accept and receive operations. */
module Sessions {
  import opened Framing
  import opened ReceiveBuffer
  import opened Dispatching

  /** The part of the buffer that a receive request hands to the kernel. */
  datatype Span = Span(offset: int, length: int)

  /** What a completion handler asks the service for: the two I/O operations, the next accept,
      and taking back a session that is over. */
  datatype Request = Receive(span: Span) | Close | AcceptOne | SessionClosed

  /** Handing the first message of `s` to the dispatcher and dropping it from the stream
      leaves the deliveries that are made or still to come unchanged. */
  lemma DispatchedFront(handlers: map<int, HandlerId>, before: seq<Invocation>, s: seq<byte>)
    requires HasFrame(s)
    ensures MessageType(s) == MessageType(s[..FrameSize(s)])
    ensures before + Delivery(handlers, s[..FrameSize(s)]) + Deliveries(handlers, Frames(s[FrameSize(s)..]))
            == before + Deliveries(handlers, Frames(s))
  {
    hide Deliveries, Delivery, Frames, MessageType, FrameSize;
    var message, rest := s[..FrameSize(s)], s[FrameSize(s)..];
    TypeOfFront(s);
    FramesFront(s);
    DeliveriesFront(handlers, message, Frames(rest));
    Regroup(before, Delivery(handlers, message), Deliveries(handlers, Frames(rest)));
  }

  lemma TypeOfFront(s: seq<byte>)
    requires HasFrame(s)
    ensures MessageType(s) == MessageType(s[..FrameSize(s)])
  {
    hide DecodeInt32;
    assert s[4..8] == s[..FrameSize(s)][4..8];
  }

  lemma FramesFront(s: seq<byte>)
    requires HasFrame(s)
    ensures Frames(s) == [s[..FrameSize(s)]] + Frames(s[FrameSize(s)..])
  {
    hide DecodeInt32;
  }

  lemma DeliveriesFront(handlers: map<int, HandlerId>, message: seq<byte>, later: seq<seq<byte>>)
    ensures Deliveries(handlers, [message] + later) == Delivery(handlers, message) + Deliveries(handlers, later)
  {
    hide Delivery;
    assert ([message] + later)[1..] == later;
  }

  lemma Regroup(a: seq<Invocation>, b: seq<Invocation>, c: seq<Invocation>)
    ensures a + b + c == a + (b + c)
  {
  }

  lemma FramesReach(handlers: map<int, HandlerId>, s: seq<byte>, was: seq<Invocation>)
    ensures EachReachesItsHandler(handlers, Frames(s), was, was + Deliveries(handlers, Frames(s)))
  {
    hide Deliveries, Frames, Residue, EachReachesItsHandler;
    FramesParse(s);
    DeliveriesReach(handlers, Frames(s), was);
  }

  class ServiceSession {
    const buffer: array<byte>
    var committedSize: int
    var hasActor: bool
    const dispatcher: MessageDispatcher

    ghost predicate Valid()
      reads this, buffer
    {
      buffer.Length == MAX_RECEIVE_BUFFER_SIZE && 0 <= committedSize <= MAX_RECEIVE_BUFFER_SIZE
    }

    ghost function Contents(): (b: Buffer)
      requires Valid()
      reads this, buffer
      ensures b.Valid()
    {
      Buffer(buffer[..], committedSize)
    }

    constructor (dispatcher: MessageDispatcher)
      ensures Valid() && Contents() == EmptyBuffer() && !hasActor
      ensures buffer.Length == 4096 && committedSize == 0
      ensures this.dispatcher == dispatcher && fresh(buffer)
    {
      buffer := new byte[MAX_RECEIVE_BUFFER_SIZE](_ => 0);
      committedSize, hasActor := 0, false;
      this.dispatcher := dispatcher;
      new;
      assert buffer[..] == EmptyBuffer().bytes;
    }

    method Commit(size: nat)
      requires Valid() && committedSize + size <= MAX_RECEIVE_BUFFER_SIZE
      modifies this`committedSize
      ensures Valid() && Contents() == ReceiveBuffer.Commit(old(Contents()), size)
    {
      committedSize := committedSize + size;
    }

    /** Moves the bytes behind the first `size` to the front, within the buffer. */
    method ProcessCompleted(size: nat)
      requires Valid() && size <= committedSize
      modifies this`committedSize, buffer
      ensures Valid() && Contents() == ReceiveBuffer.ProcessCompleted(old(Contents()), size)
    {
      var kept := committedSize - size;
      if 0 < kept {
        MoveToFront(size, kept);
      }
      committedSize := kept;
    }

    /** `memmove` of `count` bytes from offset `size` to the front. */
    method MoveToFront(size: nat, count: nat)
      requires Valid() && size + count <= MAX_RECEIVE_BUFFER_SIZE
      modifies buffer
      ensures buffer[..] == old(buffer[size..size + count] + buffer[count..])
    {
      var i := 0;
      while i < count
        invariant 0 <= i <= count
        invariant forall j :: 0 <= j < i ==> buffer[j] == old(buffer[j + size])
        invariant forall j :: i <= j < buffer.Length ==> buffer[j] == old(buffer[j])
      {
        buffer[i] := buffer[i + size];
        i := i + 1;
      }
    }

    /** The span of a new receive request: all the room behind the committed bytes. */
    method RequestReceive() returns (span: Span)
      requires Valid()
      ensures span == Span(Contents().committed, Contents().Remain())
    {
      span := Span(committedSize, MAX_RECEIVE_BUFFER_SIZE - committedSize);
    }

    /** The framing loop. Every complete message goes to the dispatcher, in order; what is
        left is the residue; the next receive is requested for exactly the free room. */
    method OnReceived() returns (next: Span)
      requires Valid()
      modifies this`committedSize, buffer, dispatcher
      ensures Valid() && Contents() == Consume(old(Contents()))
      ensures Contents().Received() == Residue(old(Contents().Received()))
      ensures dispatcher.handlers == old(dispatcher.handlers)
      ensures dispatcher.invocations == old(dispatcher.invocations)
                                        + Deliveries(dispatcher.handlers, Frames(old(Contents().Received())))
      ensures EachReachesItsHandler(dispatcher.handlers, Frames(old(Contents().Received())),
                                    old(dispatcher.invocations), dispatcher.invocations)
      ensures next == Span(Contents().committed, Contents().Remain())
    {
      ghost var handlers := dispatcher.handlers;
      FramesReach(handlers, Contents().Received(), dispatcher.invocations);
      while true
        invariant Valid()
        invariant Consume(Contents()) == Consume(old(Contents()))
        invariant dispatcher.handlers == handlers
        invariant dispatcher.invocations + Deliveries(handlers, Frames(Contents().Received()))
                  == old(dispatcher.invocations) + Deliveries(handlers, Frames(old(Contents().Received())))
        decreases committedSize
      {
        if committedSize < HEADER_SIZE {
          break;
        }
        var received := buffer[..committedSize];
        var size := FrameSize(received);
        if size < HEADER_SIZE {
          break;
        }
        if |received| < size {
          break;
        }
        var message := received[..size];
        ghost var before := dispatcher.invocations;
        var _ := dispatcher.Dispatch(MessageType(received), message);
        DispatchedFront(handlers, before, received);
        assert received == Contents().Received();
        ProcessCompleted(size);
      }
      next := RequestReceive();
    }

    /** Completion of a receive with the kernel's result: an error asks for a close if there
        is an actor and never receives again; otherwise the bytes are committed and parsed. */
    method HandleReceiveCompletion(result: int) returns (requests: seq<Request>)
      requires Valid() && result <= Contents().Remain()
      modifies this`committedSize, buffer, dispatcher
      ensures Valid() && dispatcher.handlers == old(dispatcher.handlers)
      ensures result < 0 ==> requests == (if hasActor then [Close] else [])
                             && Contents() == old(Contents())
                             && dispatcher.invocations == old(dispatcher.invocations)
      ensures result >= 0 ==>
                var seen := ReceiveBuffer.Commit(old(Contents()), result);
                && Contents() == Consume(seen)
                && requests == [Receive(Span(Contents().committed, Contents().Remain()))]
                && dispatcher.invocations == old(dispatcher.invocations)
                                             + Deliveries(dispatcher.handlers, Frames(seen.Received()))
                && EachReachesItsHandler(dispatcher.handlers, Frames(seen.Received()),
                                         old(dispatcher.invocations), dispatcher.invocations)
    {
      if result < 0 {
        return if hasActor then [Close] else [];
      }
      Commit(result);
      var span := OnReceived();
      return [Receive(span)];
    }

    /** A new connection: an actor is made unless one is there, receiving starts, and another
        session is to listen. */
    method OnAccepted() returns (requests: seq<Request>)
      requires Valid()
      modifies this`hasActor
      ensures Valid() && hasActor && Contents() == old(Contents())
      ensures requests == [Receive(Span(Contents().committed, Contents().Remain())), AcceptOne]
    {
      if !hasActor {
        hasActor := true;
      }
      var first := RequestReceive();
      requests := [Receive(first), AcceptOne];
    }

    /** The connection is over: the actor is dropped, the buffer is empty again, and the
        session goes back to the service. */
    method OnClosed() returns (requests: seq<Request>)
      requires Valid()
      modifies this`hasActor, this`committedSize
      ensures Valid() && !hasActor
      ensures Contents() == old(Contents()).(committed := 0) && Contents().Received() == []
      ensures requests == [SessionClosed]
    {
      if hasActor {
        hasActor := false;
      }
      committedSize := 0;
      requests := [SessionClosed];
    }
  }
}
