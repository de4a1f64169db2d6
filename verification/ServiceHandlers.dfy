/** The handlers of a session, in place, do what the handler steps of the protocol machine do:
    to the buffer, to the dispatcher and in what they ask for next. */
module ServiceHandlers {
  import opened Sums
  import opened Framing
  import opened ReceiveBuffer
  import opened Dispatching
  import opened Sessions
  import IOProtocol
  import IODemands

  /** The action of the machine that a request of session `i` stands for; taking back a closed
      session is part of the machine's step. */
  function Planned(i: nat, requests: seq<Request>): seq<IOProtocol.Action> {
    if requests == [] then []
    else
      (match requests[0]
       case Receive(_) => [IOProtocol.RequestReceive(i)]
       case Close => [IOProtocol.RequestClose(i)]
       case AcceptOne => [IOProtocol.AcceptOne]
       case SessionClosed => [])
      + Planned(i, requests[1..])
  }

  /** The machine has session `i` in the state of this object. */
  ghost predicate Mirrors(session: IOProtocol.Session, connection: ServiceSession)
    reads connection, connection.buffer
  {
    connection.Valid() && session.buffer == connection.Contents() && session.hasActor == connection.hasActor
  }

  /** Every receive requested has the span that the machine captures in this session. */
  predicate SpansMatch(session: IOProtocol.Session, requests: seq<Request>) {
    forall request <- requests :: request.Receive? ==>
      && request.span.offset == session.buffer.committed
      && request.span.length == MAX_RECEIVE_BUFFER_SIZE - session.buffer.committed
  }

  /** The machine's step that runs the handler of `c`. */
  function HandlerStep(s: IOProtocol.State, t: nat, demands: seq<IOProtocol.Demand>): IOProtocol.State {
    IOProtocol.Step(s, IOProtocol.Work(t, IOProtocol.Proceed(None, demands)))
  }

  /** The handler step of a receive, on the session and on what the thread does next. */
  lemma ReceiveStep(s: IOProtocol.State, t: nat, c: IOProtocol.Completion, rest: seq<IOProtocol.Action>,
                    demands: seq<IOProtocol.Demand>)
    requires t < |s.workers| && s.workers[t].todo == [IOProtocol.Handle(c)] + rest
    requires c.op.body.Recv? && c.op.session < |s.sessions|
    ensures var r, session := HandlerStep(s, t, demands), s.sessions[c.op.session];
            && r.sessions[c.op.session] == IOProtocol.Handled(session, c)
            && r.workers[t].todo == Demanded(demands, c) + Planned(c.op.session, Requests(session, c)) + rest
  {
    hide IOProtocol.Handled, IOProtocol.Actions;
    var i := c.op.session;
    assert forall x: Request :: Planned(i, [x][1..]) == [];
  }

  /** What the handler of a receive asks for. */
  function Requests(session: IOProtocol.Session, c: IOProtocol.Completion): seq<Request> {
    if c.result < 0 then if session.hasActor then [Close] else []
    else
      var committed := IOProtocol.Handled(session, c).buffer.committed;
      [Receive(Span(committed, MAX_RECEIVE_BUFFER_SIZE - committed))]
  }

  /** What the message handlers of a receive ask for. */
  function Demanded(demands: seq<IOProtocol.Demand>, c: IOProtocol.Completion): seq<IOProtocol.Action> {
    if c.result < 0 then [] else IOProtocol.Actions(demands)
  }

  lemma HandledParts(session: IOProtocol.Session, c: IOProtocol.Completion)
    requires c.op.body.Recv? && session.buffer.Valid() && c.result <= session.buffer.Remain()
    ensures var after := IOProtocol.Handled(session, c);
            if c.result < 0 then after == session && after.dispatched[|session.dispatched|..] == []
            else
              var seen := ReceiveBuffer.Commit(session.buffer, c.result);
              && after.buffer == Consume(seen) && after.hasActor == session.hasActor
              && after.dispatched == session.dispatched + Frames(seen.Received())
              && after.dispatched[|session.dispatched|..] == Frames(seen.Received())
  {
    hide Consume, Frames;
  }

  /** From `before` to `after` in the machine, and from the deliveries `was` to `now` in place:
      the messages that the session dispatches are those that reach their handlers, and every
      receive requested has the span that the machine will capture. */
  ghost predicate Agrees(before: IOProtocol.Session, after: IOProtocol.Session, handlers: map<int, HandlerId>,
                         was: seq<Invocation>, now: seq<Invocation>, requests: seq<Request>) {
    && SpansMatch(after, requests)
    && before.dispatched <= after.dispatched
    && EachReachesItsHandler(handlers, after.dispatched[|before.dispatched|..], was, now)
  }

  lemma FailureAgrees(session: IOProtocol.Session, c: IOProtocol.Completion, handlers: map<int, HandlerId>,
                      was: seq<Invocation>, requests: seq<Request>)
    requires c.op.body.Recv? && c.result < 0 && session.buffer.Valid()
    requires requests == if session.hasActor then [Close] else []
    ensures requests == Requests(session, c) && IOProtocol.Handled(session, c) == session
    ensures Agrees(session, IOProtocol.Handled(session, c), handlers, was, was, requests)
  {
    HandledParts(session, c);
    hide IOProtocol.Handled;
    OneSpan(session, Span(session.buffer.committed, MAX_RECEIVE_BUFFER_SIZE - session.buffer.committed));
    NothingDelivered(handlers, was);
  }

  lemma SuccessAgrees(session: IOProtocol.Session, c: IOProtocol.Completion, handlers: map<int, HandlerId>,
                      was: seq<Invocation>, now: seq<Invocation>, b: Buffer, requests: seq<Request>)
    requires c.op.body.Recv? && c.result >= 0 && session.buffer.Valid() && c.result <= session.buffer.Remain()
    requires var seen := ReceiveBuffer.Commit(session.buffer, c.result);
             b == Consume(seen) && EachReachesItsHandler(handlers, Frames(seen.Received()), was, now)
    requires requests == [Receive(Span(b.committed, b.Remain()))]
    ensures IOProtocol.Handled(session, c).buffer == b && IOProtocol.Handled(session, c).hasActor == session.hasActor
    ensures requests == Requests(session, c)
    ensures Agrees(session, IOProtocol.Handled(session, c), handlers, was, now, requests)
  {
    HandledParts(session, c);
    hide IOProtocol.Handled, Consume, Frames, EachReachesItsHandler;
    FreeRoom(b);
    OneSpan(IOProtocol.Handled(session, c), Span(b.committed, MAX_RECEIVE_BUFFER_SIZE - b.committed));
  }

  lemma FreeRoom(b: Buffer)
    ensures b.Valid() ==> b.Remain() == MAX_RECEIVE_BUFFER_SIZE - b.committed
  {
  }

  lemma OneSpan(session: IOProtocol.Session, span: Span)
    requires span == Span(session.buffer.committed, MAX_RECEIVE_BUFFER_SIZE - session.buffer.committed)
    ensures SpansMatch(session, [Receive(span)]) && SpansMatch(session, [Close]) && SpansMatch(session, [])
  {
  }

  /** A thread that has `todo` left to do makes an operation for each of the demands, then what the
      handler requested: a receive, or after an error a close, or nothing. */
  ghost predicate PlansAsAsked(todo: seq<IOProtocol.Action>, demands: seq<IOProtocol.Demand>, requests: seq<Request>,
                               i: nat, rest: seq<IOProtocol.Action>) {
    || (requests == [] && todo == rest)
    || (requests == [Close] && todo != [] && todo[1..] == rest
        && IODemands.Makes(todo[0], IOProtocol.ClosePool, i, IOProtocol.Close))
    || (|requests| == 1 && requests[0].Receive? && |todo| == |demands| + 1 + |rest|
        && (forall d :: 0 <= d < |demands| ==> IODemands.MakesFor(todo[d], demands[d]))
        && todo[|demands|..] == [IOProtocol.RequestReceive(i)] + rest)
  }

  /** The receive handler beside the handler step: afterwards the machine still has the session
      in the state of the object, the object has asked for what the thread does next, and the
      messages that the step adds to the history are those delivered to the handlers. */
  method HandleReceive(connection: ServiceSession, ghost s: IOProtocol.State, ghost t: nat,
                       ghost c: IOProtocol.Completion, ghost rest: seq<IOProtocol.Action>,
                       ghost demands: seq<IOProtocol.Demand>, result: int) returns (requests: seq<Request>)
    requires t < |s.workers| && s.workers[t].todo == [IOProtocol.Handle(c)] + rest
    requires c.op.body.Recv? && c.op.session < |s.sessions| && c.result == result
    requires Mirrors(s.sessions[c.op.session], connection) && result <= connection.Contents().Remain()
    modifies connection`committedSize, connection.buffer, connection.dispatcher
    ensures var r, i := HandlerStep(s, t, demands), c.op.session;
            && Mirrors(r.sessions[i], connection)
            && r.workers[t].todo == Demanded(demands, c) + Planned(i, requests) + rest
            && connection.dispatcher.handlers == old(connection.dispatcher.handlers)
            && Agrees(s.sessions[i], r.sessions[i], connection.dispatcher.handlers,
                      old(connection.dispatcher.invocations), connection.dispatcher.invocations, requests)
    ensures PlansAsAsked(HandlerStep(s, t, demands).workers[t].todo, demands, requests, c.op.session, rest)
  {
    ghost var session, was := s.sessions[c.op.session], connection.dispatcher.invocations;
    ReceiveStep(s, t, c, rest, demands);
    IODemands.ReceivePlans(s, t, c, rest, None, demands);
    hide Frames, Consume, Planned, Demanded, Requests, Agrees, EachReachesItsHandler;
    hide IOProtocol.Handled, IOProtocol.Step, IODemands.Makes, IODemands.MakesFor;
    requests := connection.HandleReceiveCompletion(result);
    ghost var now := connection.dispatcher.invocations;
    if result < 0 {
      FailureAgrees(session, c, connection.dispatcher.handlers, was, requests);
    } else {
      SuccessAgrees(session, c, connection.dispatcher.handlers, was, now, connection.Contents(), requests);
    }
  }

  lemma NothingDelivered(handlers: map<int, HandlerId>, was: seq<Invocation>)
    ensures EachReachesItsHandler(handlers, [], was, was)
  {
  }

  /** The accept handler beside the handler step of an accept that has succeeded. */
  method HandleAccept(connection: ServiceSession, ghost s: IOProtocol.State, ghost t: nat,
                      ghost c: IOProtocol.Completion, ghost rest: seq<IOProtocol.Action>)
    returns (requests: seq<Request>)
    requires t < |s.workers| && s.workers[t].todo == [IOProtocol.Handle(c)] + rest
    requires c.op.body.Accept? && c.op.session < |s.sessions| && c.result >= 0
    requires Mirrors(s.sessions[c.op.session], connection)
    modifies connection`hasActor
    ensures var r, i := HandlerStep(s, t, []), c.op.session;
            && Mirrors(r.sessions[i], connection) && SpansMatch(r.sessions[i], requests)
            && r.workers[t].todo == Planned(i, requests) + rest
            && r.workers[t].todo == [IOProtocol.RequestReceive(i), IOProtocol.AcceptOne] + rest
  {
    requests := connection.OnAccepted();
    ghost var i := c.op.session;
    assert Planned(i, requests[1..][1..]) == [];
    assert Planned(i, requests[1..]) == [IOProtocol.AcceptOne];
    assert Planned(i, requests) == [IOProtocol.RequestReceive(i), IOProtocol.AcceptOne];
  }

  /** `on_closed` beside the step that closes session `i`: the object asks for the session to be
      taken back, and the step has put it into the idle queue and plans the next accept. */
  method HandleClosed(connection: ServiceSession, ghost s: IOProtocol.State, ghost t: nat, ghost i: nat)
    returns (requests: seq<Request>)
    requires t < |s.workers| && s.workers[t].todo == [] && s.workers[t].phase == IOProtocol.Tasking
    requires i < |s.sessions| && Mirrors(s.sessions[i], connection)
    modifies connection`hasActor, connection`committedSize
    ensures var r := IOProtocol.Step(s, IOProtocol.Work(t, IOProtocol.SessionClosed(i)));
            && Mirrors(r.sessions[i], connection)
            && requests == [SessionClosed]
            && r.idle == s.idle + [i] && r.workers[t].todo == [IOProtocol.AcceptOne]
  {
    requests := connection.OnClosed();
  }
}
