/** Sessions and I/O operations under concurrency. Worker threads take completions from their
    rings, run the completion handlers, flush their request queues and run application code;
    the kernel completes submitted operations one by one. Each capture of a span, acquisition
    of an operation, draw of a ticket, push or pop of a queue, delivery and handler is one
    atomic step, interleaved arbitrarily. */
module IOProtocol {
  import opened Sums
  import opened Framing
  import opened ReceiveBuffer
  import opened RoundRobin

  /** The four kinds of operation, each with a pool of its own. */
  datatype Pool = AcceptPool | RecvPool | ClosePool | SendPool

  datatype OpId = OpId(pool: Pool, slot: nat)

  /** A receive keeps the span it was requested with. */
  datatype Body = Accept | Recv(offset: int, length: int) | Close | Send

  datatype Operation = Operation(id: OpId, session: nat, body: Body)

  /** The kernel's result; `data` is what a successful receive has stored. */
  datatype Completion = Completion(op: Operation, result: int, data: seq<byte>)

  /** What a thread has still to do before it goes on with its iteration. */
  datatype Action =
    | RequestReceive(session: nat)
    | RequestAccept(session: nat)
    | RequestClose(session: nat)
    | RequestSend(session: nat)
    | Route(op: Operation)
    | Enqueue(op: Operation, worker: nat)
    | AcceptOne
    | Handle(completion: Completion)

  /** One iteration of a worker: wait for a completion, flush the requests, run tasks. */
  datatype Phase = Waiting | Flushing | Tasking

  /** `held` is the completed operation, until the end of the iteration; `prepared` are the
      operations with a submission entry that has not been submitted. */
  datatype Worker = Worker(
    phase: Phase, held: Option<Operation>, todo: seq<Action>, requests: seq<Operation>,
    prepared: seq<Operation>, submitted: seq<Operation>, completed: seq<Completion>)

  /** Three histories: `stream`, all bytes the kernel has delivered on this connection;
      `consumed`, those that have been committed; `dispatched`, the messages taken out. */
  datatype Session = Session(
    buffer: Buffer, hasActor: bool, stream: seq<byte>, consumed: seq<byte>, dispatched: seq<seq<byte>>)

  /** `acquired` are the operations handed out by the pools and `references` their reference
      counts; `dropped` were refused by the index check; `failed` are the sessions whose accept
      has failed or could not be requested, until they are closed. */
  datatype State = State(
    workers: seq<Worker>, sessions: seq<Session>, idle: seq<nat>, tickets: nat,
    acquired: set<OpId>, references: multiset<OpId>, dropped: seq<Operation>, failed: set<nat>)

  /** Requests that application code may make at any time. */
  datatype Demand = SendOn(session: nat) | CloseOf(session: nat)

  /** What the environment decides. `Proceed` runs the next action: `slot` is the slot a pool
      offers, if it has one, and `demands` is what message handlers ask for. */
  datatype Choice =
    | Proceed(slot: Option<nat>, demands: seq<Demand>)
    | Reap(index: nat)
    | TimeOut
    | Flush
    | Application(demands: seq<Demand>)
    | SessionClosed(session: nat)
    | EndIteration

  datatype Move =
    | Deliver(worker: nat, index: nat, result: int, data: seq<byte>)
    | Work(worker: nat, choice: Choice)

  function PoolOf(body: Body): Pool {
    match body
    case Accept => AcceptPool
    case Recv(_, _) => RecvPool
    case Close => ClosePool
    case Send => SendPool
  }

  function Actions(demands: seq<Demand>): seq<Action> {
    seq(|demands|, i requires 0 <= i < |demands| =>
      match demands[i]
      case SendOn(session) => RequestSend(session)
      case CloseOf(session) => RequestClose(session))
  }

  function SetWorker(s: State, t: nat, w: Worker): State
    requires t < |s.workers|
  {
    s.(workers := s.workers[t := w])
  }

  function SetSession(s: State, i: nat, session: Session): State
    requires i < |s.sessions|
  {
    s.(sessions := s.sessions[i := session])
  }

  /** The operation a request acquires, with the slot its pool offers. */
  function NewOperation(slot: nat, session: nat, body: Body): Operation {
    Operation(OpId(PoolOf(body), slot), session, body)
  }

  /** A pool never offers a slot that it has handed out and not got back. */
  predicate Offered(s: State, slot: Option<nat>, body: Body) {
    slot.Some? && OpId(PoolOf(body), slot.value) !in s.acquired
  }

  /** `Service::request_io<T>`: acquire the operation, count the reference, route it. Without
      an operation the request is dropped. */
  function Request(s: State, t: nat, rest: seq<Action>, session: nat, body: Body, slot: Option<nat>): State
    requires t < |s.workers|
  {
    var w := s.workers[t];
    if Offered(s, slot, body) then
      var op := NewOperation(slot.value, session, body);
      SetWorker(s.(acquired := s.acquired + {op.id}, references := s.references + multiset{op.id}),
                t, w.(todo := [Route(op)] + rest))
    else
      SetWorker(if body == Accept then s.(failed := s.failed + {session}) else s, t, w.(todo := rest))
  }

  /** What a completion handler leaves to do. */
  function Reactions(s: State, c: Completion, demands: seq<Demand>): seq<Action> {
    var i := c.op.session;
    match c.op.body
    case Accept => if c.result < 0 then [] else [RequestReceive(i), AcceptOne]
    case Recv(_, _) =>
      if c.result >= 0 then Actions(demands) + [RequestReceive(i)]
      else if i < |s.sessions| && s.sessions[i].hasActor then [RequestClose(i)]
      else []
    case Close => []
    case Send => []
  }

  /** What a completion handler does to its session. A receive commits the bytes and runs the
      framing loop. */
  function Handled(session: Session, c: Completion): Session {
    match c.op.body
    case Accept => if c.result < 0 then session else session.(hasActor := true)
    case Recv(_, _) =>
      if c.result < 0 || !session.buffer.Valid() || session.buffer.committed + c.result > MAX_RECEIVE_BUFFER_SIZE
      then session
      else
        var committed := Commit(session.buffer, c.result);
        session.(buffer := Consume(committed), consumed := session.consumed + c.data,
                 dispatched := session.dispatched + Frames(committed.Received()))
    case Close => session
    case Send => session
  }

  /** Runs the first action of thread `t`. */
  function ActionStep(s: State, t: nat, slot: Option<nat>, demands: seq<Demand>): (r: State)
    requires t < |s.workers| && s.workers[t].todo != []
    ensures |r.workers| == |s.workers| && |r.sessions| == |s.sessions|
  {
    var w, rest := s.workers[t], s.workers[t].todo[1..];
    match w.todo[0]
    case RequestReceive(i) =>
      var span := if i < |s.sessions| then s.sessions[i].buffer.committed else 0;
      Request(s, t, rest, i, Recv(span, MAX_RECEIVE_BUFFER_SIZE - span), slot)
    case RequestAccept(i) => Request(s, t, rest, i, Accept, slot)
    case RequestClose(i) => Request(s, t, rest, i, Close, slot)
    case RequestSend(i) => Request(s, t, rest, i, Send, slot)
    case Route(op) =>
      var drawn := s.(tickets := s.tickets + 1);
      var j := ThreadIndex(s.tickets, |s.workers|);
      if 0 <= j then SetWorker(drawn, t, w.(todo := [Enqueue(op, j)] + rest))
      else
        SetWorker(drawn.(dropped := s.dropped + [op],
                         failed := s.failed + if op.body == Accept then {op.session} else {}),
                  t, w.(todo := rest))
    case Enqueue(op, j) =>
      var popped := SetWorker(s, t, w.(todo := rest));
      if j >= |s.workers| then popped
      else SetWorker(popped, j, popped.workers[j].(requests := popped.workers[j].requests + [op]))
    case AcceptOne =>
      if s.idle == [] then SetWorker(s, t, w.(todo := rest))
      else SetWorker(s.(idle := s.idle[1..]), t, w.(todo := [RequestAccept(s.idle[0])] + rest))
    case Handle(c) =>
      var reacted := SetWorker(s, t, w.(todo := Reactions(s, c, demands) + rest));
      var noted :=
        reacted.(failed := s.failed + if c.op.body == Accept && c.result < 0 then {c.op.session} else {});
      if c.op.session >= |s.sessions| then noted
      else SetSession(noted, c.op.session, Handled(s.sessions[c.op.session], c))
  }

  /** The last reference gives the operation back to its pool. */
  function Release(s: State, op: Operation): State {
    var released := s.(references := s.references - multiset{op.id});
    if s.references[op.id] == 1 then released.(acquired := s.acquired - {op.id}) else released
  }

  /** The rest of an iteration, when no action is left to do. */
  function PhaseStep(s: State, t: nat, choice: Choice): (r: State)
    requires t < |s.workers| && s.workers[t].todo == []
    ensures |r.workers| == |s.workers| && |r.sessions| == |s.sessions|
  {
    var w := s.workers[t];
    match w.phase
    case Waiting =>
      (match choice
       case Reap(k) =>
         if k >= |w.completed| then s
         else
           SetWorker(s, t, w.(phase := Flushing, held := Some(w.completed[k].op), todo := [Handle(w.completed[k])],
                              completed := w.completed[..k] + w.completed[k + 1..]))
       case TimeOut => SetWorker(s, t, w.(phase := Flushing))
       case _ => s)
    case Flushing =>
      if choice != Flush then s
      else if w.requests == [] then
        SetWorker(s, t, w.(phase := Tasking, submitted := w.submitted + w.prepared, prepared := []))
      else if w.requests[0].body == Close then
        SetWorker(s, t, w.(requests := w.requests[1..], prepared := [],
                           submitted := w.submitted + (w.prepared + [w.requests[0]])))
      else
        SetWorker(s, t, w.(requests := w.requests[1..], prepared := w.prepared + [w.requests[0]]))
    case Tasking =>
      (match choice
       case Application(demands) => SetWorker(s, t, w.(todo := Actions(demands)))
       case SessionClosed(i) =>
         if i >= |s.sessions| then s
         else
           var closed := SetSession(s, i, Session(s.sessions[i].buffer.(committed := 0), false, [], [], []));
           SetWorker(closed.(idle := s.idle + [i], failed := s.failed - {i}), t, w.(todo := [AcceptOne]))
       case EndIteration =>
         var next := SetWorker(s, t, w.(phase := Waiting, held := None));
         if w.held == None then next else Release(next, w.held.value)
       case _ => s)
  }

  /** What the kernel may report: an error, or at most the requested length, stored. */
  predicate Reportable(op: Operation, result: int, data: seq<byte>) {
    op.body.Recv? ==> result <= op.body.length && |data| == if result < 0 then 0 else result
  }

  /** The session once the kernel has stored the bytes at the span of the operation. */
  function Stored(session: Session, op: Operation, data: seq<byte>): Session {
    if op.body.Recv? && session.buffer.Valid() && 0 <= op.body.offset
       && op.body.offset + |data| <= MAX_RECEIVE_BUFFER_SIZE
    then session.(buffer := Store(session.buffer, op.body.offset, data), stream := session.stream + data)
    else session
  }

  function DeliverStep(s: State, t: nat, k: nat, result: int, data: seq<byte>): (r: State)
    requires t < |s.workers|
    ensures |r.workers| == |s.workers| && |r.sessions| == |s.sessions|
  {
    var w := s.workers[t];
    if k >= |w.submitted| || !Reportable(w.submitted[k], result, data) then s
    else
      var op := w.submitted[k];
      var moved := SetWorker(s, t, w.(submitted := w.submitted[..k] + w.submitted[k + 1..],
                                      completed := w.completed + [Completion(op, result, data)]));
      if op.session >= |s.sessions| then moved
      else SetSession(moved, op.session, Stored(s.sessions[op.session], op, data))
  }

  function Step(s: State, move: Move): (r: State)
    ensures |r.workers| == |s.workers| && |r.sessions| == |s.sessions|
  {
    if move.worker >= |s.workers| then s
    else
      match move
      case Deliver(t, k, result, data) => DeliverStep(s, t, k, result, data)
      case Work(t, choice) =>
        if s.workers[t].todo == [] then PhaseStep(s, t, choice)
        else if choice.Proceed? then ActionStep(s, t, choice.slot, choice.demands)
        else s
  }

  function Run(s: State, schedule: seq<Move>): (r: State)
    ensures |r.workers| == |s.workers| && |r.sessions| == |s.sessions|
    decreases |schedule|
  {
    if schedule == [] then s else Run(Step(s, schedule[0]), schedule[1..])
  }

  function IdleWorker(): Worker {
    Worker(Waiting, None, [], [], [], [], [])
  }

  function FreshSession(): Session {
    Session(EmptyBuffer(), false, [], [], [])
  }
}
