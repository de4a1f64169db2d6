/** What a close of a session that still receives can do: the session is accepted again, has two
    receives at once, and a message is lost while another is dispatched twice. One thread and
    one session are enough. */
module IOClosing {
  import opened Sums
  import opened Framing
  import opened ReceiveBuffer
  import opened IOProtocol
  import opened IOFlow
  import opened IOTokens

  /** The state of a service with one thread and one session; slots from `slots` on are free. */
  ghost predicate Shows(s: State, w: Worker, session: Session, idle: seq<nat>, slots: nat) {
    && s.workers == [w] && s.sessions == [session] && s.idle == idle
    && forall id <- s.acquired :: id.slot < slots
  }

  lemma {:induction false} RunMore(s: State, schedule: seq<Move>, move: Move)
    ensures Run(s, schedule + [move]) == Step(Run(s, schedule), move)
    decreases |schedule|
  {
    hide Step;
    if schedule == [] {
      assert [move][1..] == [] && Run(Step(s, move), []) == Step(s, move);
    } else {
      assert (schedule + [move])[1..] == schedule[1..] + [move];
      RunMore(Step(s, schedule[0]), schedule[1..], move);
    }
  }

  /** One more step of the run. */
  lemma Then(start: State, before: seq<Move>, move: Move, w: Worker, session: Session, idle: seq<nat>, slots: nat)
    returns (after: seq<Move>)
    requires Shows(Step(Run(start, before), move), w, session, idle, slots)
    ensures Shows(Run(start, after), w, session, idle, slots)
  {
    RunMore(start, before, move);
    after := before + [move];
  }

  function Next(): Move {
    Work(0, Proceed(None, []))
  }

  /** From an acquired operation to the request queue. */
  lemma Routed(start: State, before: seq<Move>, w: Worker, session: Session, idle: seq<nat>, slots: nat,
               op: Operation, rest: seq<Action>) returns (after: seq<Move>)
    requires Shows(Run(start, before), w.(todo := [Route(op)] + rest), session, idle, slots)
    ensures Shows(Run(start, after), w.(todo := rest, requests := w.requests + [op]), session, idle, slots)
  {
    hide Run;
    after := Then(start, before, Next(), w.(todo := [Enqueue(op, 0)] + rest), session, idle, slots);
    after := Then(start, after, Next(), w.(todo := rest, requests := w.requests + [op]), session, idle, slots);
  }

  /** The receive that a session requests. */
  function ReceiveOf(session: Session, slot: nat): Operation {
    NewOperation(slot, 0, Recv(session.buffer.committed, MAX_RECEIVE_BUFFER_SIZE - session.buffer.committed))
  }

  lemma ReceiveRequested(start: State, before: seq<Move>, w: Worker, session: Session, idle: seq<nat>, slots: nat,
                         rest: seq<Action>) returns (after: seq<Move>)
    requires Shows(Run(start, before), w.(todo := [RequestReceive(0)] + rest), session, idle, slots)
    ensures Shows(Run(start, after), w.(todo := rest, requests := w.requests + [ReceiveOf(session, slots)]),
                  session, idle, slots + 1)
  {
    hide Run;
    var op := ReceiveOf(session, slots);
    after := Then(start, before, Work(0, Proceed(Some(slots), [])),
                  w.(todo := [Route(op)] + rest), session, idle, slots + 1);
    after := Routed(start, after, w, session, idle, slots + 1, op, rest);
  }

  /** The idle session starts to listen. */
  lemma Listens(start: State, before: seq<Move>, w: Worker, session: Session, slots: nat, rest: seq<Action>)
    returns (after: seq<Move>)
    requires Shows(Run(start, before), w.(todo := [AcceptOne] + rest), session, [0], slots)
    ensures Shows(Run(start, after), w.(todo := rest, requests := w.requests + [NewOperation(slots, 0, Accept)]),
                  session, [], slots + 1)
  {
    hide Run;
    var op := NewOperation(slots, 0, Accept);
    assert [0][1..] == [];
    after := Then(start, before, Next(), w.(todo := [RequestAccept(0)] + rest), session, [], slots);
    after := Then(start, after, Work(0, Proceed(Some(slots), [])),
                  w.(todo := [Route(op)] + rest), session, [], slots + 1);
    after := Routed(start, after, w, session, [], slots + 1, op, rest);
  }

  /** A flush of one request, with nothing prepared. */
  lemma FlushedOne(start: State, before: seq<Move>, w: Worker, session: Session, slots: nat, op: Operation)
    returns (after: seq<Move>)
    requires w.phase == Flushing && w.todo == [] && w.requests == [op] && w.prepared == [] && op.body != Close
    requires Shows(Run(start, before), w, session, [], slots)
    ensures Shows(Run(start, after), w.(phase := Tasking, requests := [], submitted := w.submitted + [op]),
                  session, [], slots)
  {
    hide Run;
    assert [op][1..] == [] && [] + [op] == [op];
    after := Then(start, before, Work(0, Flush), w.(requests := [], prepared := [op]), session, [], slots);
    after := Then(start, after, Work(0, Flush),
                  w.(phase := Tasking, requests := [], submitted := w.submitted + [op]), session, [], slots);
  }

  /** A worker between two iterations, with these operations in its ring. */
  function Between(submitted: seq<Operation>): Worker {
    IdleWorker().(submitted := submitted)
  }

  /** From a queued accept to a completed one. */
  lemma AcceptCompletes(start: State, before: seq<Move>, session: Session, slots: nat,
                        submitted: seq<Operation>, accept: Operation) returns (after: seq<Move>)
    requires accept.body == Accept && accept.session == 0
    requires Shows(Run(start, before), Between(submitted).(requests := [accept]), session, [], slots)
    ensures Shows(Run(start, after), Between(submitted).(completed := [Completion(accept, 0, [])]), session, [], slots)
  {
    hide Run;
    var w := Between(submitted).(requests := [accept]);
    after := Then(start, before, Work(0, TimeOut), w.(phase := Flushing), session, [], slots);
    after := FlushedOne(start, after, w.(phase := Flushing), session, slots, accept);
    var all := submitted + [accept];
    after := Then(start, after, Work(0, EndIteration), Between(all), session, [], slots);
    assert all[..|submitted|] + all[|submitted| + 1..] == submitted;
    assert [] + [Completion(accept, 0, [])] == [Completion(accept, 0, [])];
    after := Then(start, after, Deliver(0, |submitted|, 0, []),
                  Between(submitted).(completed := [Completion(accept, 0, [])]), session, [], slots);
  }

  /** From a completed accept to a queued receive. */
  lemma ReceiveQueued(start: State, before: seq<Move>, session: Session, slots: nat,
                      submitted: seq<Operation>, accept: Operation) returns (after: seq<Move>)
    requires accept.body == Accept && accept.session == 0
    requires Shows(Run(start, before),
                   Between(submitted).(completed := [Completion(accept, 0, [])]), session, [], slots)
    ensures Shows(Run(start, after),
                  Between(submitted).(phase := Flushing, held := Some(accept), requests := [ReceiveOf(session, slots)]),
                  session.(hasActor := true), [], slots + 1)
  {
    hide Run;
    var c, connected := Completion(accept, 0, []), session.(hasActor := true);
    var w := Between(submitted).(phase := Flushing, held := Some(accept));
    assert [c][..0] + [c][1..] == [];
    after := Then(start, before, Work(0, Reap(0)), w.(todo := [Handle(c)]), session, [], slots);
    assert [RequestReceive(0), AcceptOne] + [Handle(c)][1..] == [RequestReceive(0)] + [AcceptOne];
    after := Then(start, after, Next(), w.(todo := [RequestReceive(0)] + [AcceptOne]), connected, [], slots);
    after := ReceiveRequested(start, after, w, connected, [], slots, [AcceptOne]);
    assert [AcceptOne][1..] == [] && [] + [ReceiveOf(connected, slots)] == [ReceiveOf(session, slots)];
    after := Then(start, after, Next(), w.(requests := [ReceiveOf(session, slots)]), connected, [], slots + 1);
  }

  /** The receive that the session requests with slot `slot` when its buffer is empty. */
  function FirstReceive(slot: nat): Operation {
    ReceiveOf(FreshSession(), slot)
  }

  function Connected(): Session {
    FreshSession().(hasActor := true)
  }

  /** Connected, with its receive in the ring. */
  lemma Receives() returns (schedule: seq<Move>)
    ensures Shows(Run(Initial(1, 1, 1), schedule),
                  Between([FirstReceive(1)]).(phase := Tasking, held := Some(NewOperation(0, 0, Accept))),
                  Connected(), [], 2)
  {
    var start, accept := Initial(1, 1, 1), NewOperation(0, 0, Accept);
    assert UpTo(1) == [0] && seq(1, _ => AcceptOne) == [AcceptOne] + [];
    assert [] + [accept] == [accept] && [] + [FirstReceive(1)] == [FirstReceive(1)];
    assert Run(start, []) == start;
    schedule := Listens(start, [], IdleWorker(), FreshSession(), 0, []);
    hide Run, Shows;
    schedule := AcceptCompletes(start, schedule, FreshSession(), 1, [], accept);
    schedule := ReceiveQueued(start, schedule, FreshSession(), 1, [], accept);
    schedule := FlushedOne(start, schedule,
                           Between([]).(phase := Flushing, held := Some(accept), requests := [FirstReceive(1)]),
                           Connected(), 2, FirstReceive(1));
  }

  /** Closed in this state, the session is idle again. */
  lemma ClosedEarly() returns (schedule: seq<Move>)
    ensures Shows(Run(Initial(1, 1, 1), schedule),
                  Between([FirstReceive(1)]).(phase := Tasking, held := Some(NewOperation(0, 0, Accept)),
                                              todo := [AcceptOne]),
                  FreshSession(), [0], 2)
  {
    var start, held := Initial(1, 1, 1), Some(NewOperation(0, 0, Accept));
    var w := Between([FirstReceive(1)]).(phase := Tasking, held := held);
    schedule := Receives();
    hide Run, FirstReceive;
    assert [] + [0] == [0];
    schedule := Then(start, schedule, Work(0, SessionClosed(0)), w.(todo := [AcceptOne]), FreshSession(), [0], 2);
  }

  /** And it listens again. */
  lemma ListensAgain() returns (schedule: seq<Move>)
    ensures Shows(Run(Initial(1, 1, 1), schedule),
                  Between([FirstReceive(1)]).(requests := [NewOperation(2, 0, Accept)]), FreshSession(), [], 3)
  {
    var start, held, again := Initial(1, 1, 1), Some(NewOperation(0, 0, Accept)), NewOperation(2, 0, Accept);
    var w := Between([FirstReceive(1)]).(phase := Tasking, held := held);
    schedule := ClosedEarly();
    hide Run, Shows, FirstReceive;
    schedule := ListensOn(start, schedule, w, FreshSession(), 2);
    schedule := Ends(start, schedule, w.(requests := [again]), FreshSession(), 3);
  }

  lemma ListensOn(start: State, before: seq<Move>, w: Worker, session: Session, slots: nat) returns (after: seq<Move>)
    requires w.requests == [] && w.todo == []
    requires Shows(Run(start, before), w.(todo := [AcceptOne]), session, [0], slots)
    ensures Shows(Run(start, after), w.(requests := [NewOperation(slots, 0, Accept)]), session, [], slots + 1)
  {
    hide Run, Shows;
    assert [AcceptOne] == [AcceptOne] + [] && [] + [NewOperation(slots, 0, Accept)] == [NewOperation(slots, 0, Accept)];
    after := Listens(start, before, w, session, slots, []);
  }

  /** The end of an iteration. */
  lemma Ends(start: State, before: seq<Move>, w: Worker, session: Session, slots: nat) returns (after: seq<Move>)
    requires w.phase == Tasking && w.todo == [] && Shows(Run(start, before), w, session, [], slots)
    ensures Shows(Run(start, after), w.(phase := Waiting, held := None), session, [], slots)
  {
    hide Run;
    after := Then(start, before, Work(0, EndIteration), w.(phase := Waiting, held := None), session, [], slots);
  }

  /** Accepted again, it has two receives for the same bytes of its buffer. */
  lemma SecondReceive() returns (schedule: seq<Move>)
    ensures Shows(Run(Initial(1, 1, 1), schedule),
                  Between([FirstReceive(1)]).(phase := Flushing, held := Some(NewOperation(2, 0, Accept)),
                                              requests := [FirstReceive(3)]),
                  Connected(), [], 4)
  {
    var start, accept := Initial(1, 1, 1), NewOperation(2, 0, Accept);
    schedule := ListensAgain();
    hide Run, Shows;
    schedule := AcceptCompletes(start, schedule, FreshSession(), 3, [FirstReceive(1)], accept);
    schedule := ReceiveQueued(start, schedule, FreshSession(), 3, [FirstReceive(1)], accept);
  }

  /** A run in which a connected session is closed while its receive is in the ring ends with
      two receives of this session. */
  lemma TwoReceives() returns (schedule: seq<Move>)
    ensures Total(Run(Initial(1, 1, 1), schedule), ReceiveMeasure(0)) == 2
  {
    schedule := SecondReceive();
    hide Run;
    var s, m := Run(Initial(1, 1, 1), schedule), ReceiveMeasure(0);
    NatSumOne(s.workers[0], LoadOf(m));
    NatSumOne(FirstReceive(1), m.op);
    NatSumOne(FirstReceive(3), m.op);
  }

  // ---- The message that is lost ------------------------------------------------------------

  lemma BothInTheRing() returns (schedule: seq<Move>)
    ensures Shows(Run(Initial(1, 1, 1), schedule), Between([FirstReceive(1), FirstReceive(3)]), Connected(), [], 4)
  {
    var start, held := Initial(1, 1, 1), Some(NewOperation(2, 0, Accept));
    var w := Between([FirstReceive(1)]).(phase := Flushing, held := held, requests := [FirstReceive(3)]);
    var both := [FirstReceive(1), FirstReceive(3)];
    assert [FirstReceive(1)] + [FirstReceive(3)] == both;
    schedule := SecondReceive();
    hide Run, Shows;
    schedule := FlushedOne(start, schedule, w, Connected(), 4, FirstReceive(3));
    schedule := Ends(start, schedule, w.(phase := Tasking, requests := [], submitted := both), Connected(), 4);
  }

  /** The buffer once both have landed at its beginning. */
  function Overwritten(x: seq<byte>, y: seq<byte>): Buffer
    requires |x| <= MAX_RECEIVE_BUFFER_SIZE && |y| <= MAX_RECEIVE_BUFFER_SIZE
  {
    Store(Store(EmptyBuffer(), 0, x), 0, y)
  }

  function Landed(op: Operation, data: seq<byte>): Completion {
    Completion(op, |data|, data)
  }

  /** The bytes of the first receive in the ring land at the beginning of the buffer. */
  lemma Lands(start: State, before: seq<Move>, session: Session, slots: nat, op: Operation, rest: seq<Operation>,
              data: seq<byte>, done: seq<Completion>) returns (after: seq<Move>)
    requires op.body == Recv(0, MAX_RECEIVE_BUFFER_SIZE) && op.session == 0 && |data| <= MAX_RECEIVE_BUFFER_SIZE
    requires session.buffer.Valid()
    requires Shows(Run(start, before), Between([op] + rest).(completed := done), session, [], slots)
    ensures Shows(Run(start, after), Between(rest).(completed := done + [Landed(op, data)]),
                  session.(buffer := Store(session.buffer, 0, data), stream := session.stream + data), [], slots)
  {
    hide Run, Store;
    assert ([op] + rest)[..0] + ([op] + rest)[1..] == rest;
    after := Then(start, before, Deliver(0, 0, |data|, data), Between(rest).(completed := done + [Landed(op, data)]),
                  session.(buffer := Store(session.buffer, 0, data), stream := session.stream + data), [], slots);
  }

  lemma BothLand(x: seq<byte>, y: seq<byte>) returns (schedule: seq<Move>)
    requires |x| <= MAX_RECEIVE_BUFFER_SIZE && |y| <= MAX_RECEIVE_BUFFER_SIZE
    ensures Shows(Run(Initial(1, 1, 1), schedule),
                  Between([]).(completed := [Landed(FirstReceive(1), x), Landed(FirstReceive(3), y)]),
                  Connected().(buffer := Overwritten(x, y), stream := x + y), [], 4)
  {
    var start, one, two := Initial(1, 1, 1), FirstReceive(1), FirstReceive(3);
    schedule := BothInTheRing();
    hide Run, Store, Shows;
    assert [one, two] == [one] + [two] && [two] == [two] + [] && [] + x == x;
    assert [] + [Landed(one, x)] == [Landed(one, x)];
    assert [Landed(one, x)] + [Landed(two, y)] == [Landed(one, x), Landed(two, y)];
    schedule := Lands(start, schedule, Connected(), 4, one, [two], x, []);
    schedule := Lands(start, schedule, Connected().(buffer := Store(EmptyBuffer(), 0, x), stream := x), 4, two, [],
                      y, [Landed(one, x)]);
  }

  /** A buffer with nothing committed that starts with one whole message: committing and
      consuming it dispatches this message and leaves the bytes where they are. */
  lemma OneMessage(b: Buffer, y: seq<byte>)
    requires b.Valid() && b.committed == 0 && IsFrame(y) && |y| <= MAX_RECEIVE_BUFFER_SIZE && b.bytes[..|y|] == y
    ensures Consume(Commit(b, |y|)) == b
    ensures Commit(b, |y|).Received() == y && Frames(y) == [y]
  {
    hide DecodeInt32;
    var c := Commit(b, |y|);
    assert c.Received() == y;
    assert ProcessCompleted(c, |y|).bytes == b.bytes;
    assert HasFrame(y) && FrameSize(y) == |y|;
    assert !HasFrame(b.Received());
    assert Consume(b) == b && Consume(c) == Consume(ProcessCompleted(c, |y|));
    assert y[..|y|] == y && y[|y|..] == [] && Frames([]) == [];
  }

  /** Handling a receive that should have brought `data`, with `y` at the front of the buffer. */
  lemma Handles(start: State, before: seq<Move>, session: Session, slots: nat, y: seq<byte>, op: Operation,
                data: seq<byte>, ring: seq<Operation>, later: seq<Completion>) returns (after: seq<Move>)
    requires op.body.Recv? && op.session == 0 && |data| == |y|
    requires IsFrame(y) && |y| <= MAX_RECEIVE_BUFFER_SIZE
    requires session.buffer.Valid() && session.buffer.committed == 0 && session.buffer.bytes[..|y|] == y
    requires Shows(Run(start, before), Between(ring).(completed := [Landed(op, data)] + later), session, [], slots)
    ensures Shows(Run(start, after),
                  Between(ring).(phase := Flushing, held := Some(op), todo := [RequestReceive(0)], completed := later),
                  session.(consumed := session.consumed + data, dispatched := session.dispatched + [y]), [], slots)
  {
    hide Run, Frames, Consume;
    OneMessage(session.buffer, y);
    var c := Landed(op, data);
    var w := Between(ring).(phase := Flushing, held := Some(op), completed := later);
    assert ([c] + later)[..0] + ([c] + later)[1..] == later;
    after := Then(start, before, Work(0, Reap(0)), w.(todo := [Handle(c)]), session, [], slots);
    assert [] + [RequestReceive(0)] + [Handle(c)][1..] == [RequestReceive(0)] && Actions([]) == [];
    after := Then(start, after, Next(), w.(todo := [RequestReceive(0)]),
                  session.(consumed := session.consumed + data, dispatched := session.dispatched + [y]), [], slots);
  }

  /** From the next receive request to the next wait. */
  lemma Waits(start: State, before: seq<Move>, session: Session, slots: nat, op: Operation, completed: seq<Completion>)
    returns (after: seq<Move>)
    requires Shows(Run(start, before),
                   Between([]).(phase := Flushing, held := Some(op), todo := [RequestReceive(0)],
                                completed := completed),
                   session, [], slots)
    ensures Shows(Run(start, after),
                  Between([ReceiveOf(session, slots)]).(completed := completed), session, [], slots + 1)
  {
    hide Run;
    var w, next := Between([]).(phase := Flushing, held := Some(op), completed := completed), ReceiveOf(session, slots);
    assert [RequestReceive(0)] == [RequestReceive(0)] + [] && [] + [next] == [next];
    after := ReceiveRequested(start, before, w, session, [], slots, []);
    after := FlushedOne(start, after, w.(requests := [next]), session, slots + 1, next);
    after := Then(start, after, Work(0, EndIteration), Between([next]).(completed := completed),
                  session, [], slots + 1);
  }

  /** For every two messages of the same size there is a run in which a connected session is
      closed while its receive is in the ring, the peer's stream is the one message and then
      the other, everything has been handled, and yet the first message was never dispatched
      and the second one twice. */
  lemma MessageLost(x: seq<byte>, y: seq<byte>) returns (schedule: seq<Move>)
    requires IsFrame(x) && IsFrame(y) && |x| == |y| <= MAX_RECEIVE_BUFFER_SIZE
    ensures var session := Run(Initial(1, 1, 1), schedule).sessions[0];
            && session.stream == session.consumed == x + y
            && Frames(session.stream) == [x, y]
            && session.dispatched == [y, y]
  {
    var start, one, two := Initial(1, 1, 1), FirstReceive(1), FirstReceive(3);
    var session := Connected().(buffer := Overwritten(x, y), stream := x + y);
    schedule := BothLand(x, y);
    assert session.buffer.bytes[..|y|] == y;
    TwoFrames(x, y);
    hide Run, Shows, Overwritten, Frames;
    assert [Landed(one, x), Landed(two, y)] == [Landed(one, x)] + [Landed(two, y)] && [] + x == x && [] + [y] == [y];
    schedule := Handles(start, schedule, session, 4, y, one, x, [], [Landed(two, y)]);
    var handled := session.(consumed := x, dispatched := [y]);
    schedule := Waits(start, schedule, handled, 4, one, [Landed(two, y)]);
    assert [Landed(two, y)] == [Landed(two, y)] + [] && [y] + [y] == [y, y];
    schedule := Handles(start, schedule, handled, 5, y, two, y, [ReceiveOf(handled, 4)], []);
    ShowsSession(Run(start, schedule));
  }

  lemma ShowsSession(s: State)
    ensures forall w, session, idle, slots :: Shows(s, w, session, idle, slots) ==> s.sessions == [session]
  {
  }

  lemma TwoFrames(x: seq<byte>, y: seq<byte>)
    requires IsFrame(x) && IsFrame(y)
    ensures Frames(x + y) == [x, y]
  {
    assert [x, y][1..] == [y] && [y][1..] == [];
    assert Concat([y]) == y + [] == y;
    assert Concat([x, y]) == x + Concat([x, y][1..]) == x + y;
    assert x + y + [] == x + y;
    ParseUnique(x + y, [x, y], []);
  }
}
