/** Counting what is under way. A measure gives weights to operations, completions and planned
    actions; the total over all threads changes with a step only by what the step turns into
    something else. Every invariant of the protocol is such a count. */
module IOFlow {
  import opened Sums
  import opened Framing
  import opened IOProtocol
  import opened RoundRobin

  /** Weights: of an operation queued, prepared, submitted or on its way to a queue (`op`); of
      a completion before (`done`) and after (`handle`) it is taken; of a planned receive or
      accept request of a session; of a planned `AcceptOne`; of an operation `held` to the end
      of an iteration. */
  datatype Measure = Measure(
    op: Operation -> nat, done: Completion -> nat, handle: Completion -> nat,
    receive: nat -> nat, accept: nat -> nat, one: nat, held: Operation -> nat)

  ghost function Planned(m: Measure, action: Action): nat {
    match action
    case RequestReceive(i) => m.receive(i)
    case RequestAccept(i) => m.accept(i)
    case RequestClose(_) => 0
    case RequestSend(_) => 0
    case Route(op) => m.op(op)
    case Enqueue(op, _) => m.op(op)
    case AcceptOne => m.one
    case Handle(c) => m.handle(c)
  }

  ghost function PlannedOf(m: Measure): Action -> nat {
    (action: Action) => Planned(m, action)
  }

  ghost function HeldWeight(m: Measure, held: Option<Operation>): nat {
    if held == None then 0 else m.held(held.value)
  }

  ghost function Load(m: Measure, w: Worker): nat {
    NatSum(w.requests, m.op) + NatSum(w.prepared, m.op) + NatSum(w.submitted, m.op)
    + NatSum(w.completed, m.done) + NatSum(w.todo, PlannedOf(m)) + HeldWeight(m, w.held)
  }

  ghost function LoadOf(m: Measure): Worker -> nat {
    (w: Worker) => Load(m, w)
  }

  ghost function Total(s: State, m: Measure): nat {
    NatSum(s.workers, LoadOf(m))
  }

  lemma SetWorkerTotal(s: State, t: nat, w: Worker, m: Measure)
    requires t < |s.workers|
    ensures Total(SetWorker(s, t, w), m) + Load(m, s.workers[t]) == Total(s, m) + Load(m, w)
  {
    NatSumUpdate(s.workers, t, w, LoadOf(m));
  }

  /** Planning other actions first. */
  lemma TodoLoad(m: Measure, w: Worker, first: seq<Action>, rest: seq<Action>)
    ensures Load(m, w.(todo := first + rest)) == Load(m, w.(todo := rest)) + NatSum(first, PlannedOf(m))
  {
    NatSumAppend(first, rest, PlannedOf(m));
  }

  lemma HeadLoad(m: Measure, w: Worker)
    requires w.todo != []
    ensures Load(m, w) == Load(m, w.(todo := w.todo[1..])) + Planned(m, w.todo[0])
  {
  }

  lemma {:induction false} DemandsWeighNothing(m: Measure, demands: seq<Demand>)
    ensures NatSum(Actions(demands), PlannedOf(m)) == 0
  {
    NatSumZero(Actions(demands), PlannedOf(m));
  }

  // ---- What a step turns into what -------------------------------------------------------

  /** The body of the operation that a planned request asks for. */
  function RequestedBody(s: State, action: Action): Option<(nat, Body)> {
    match action
    case RequestReceive(i) =>
      var span := if i < |s.sessions| then s.sessions[i].buffer.committed else 0;
      Some((i, Recv(span, ReceiveBuffer.MAX_RECEIVE_BUFFER_SIZE - span)))
    case RequestAccept(i) => Some((i, Accept))
    case RequestClose(i) => Some((i, Close))
    case RequestSend(i) => Some((i, Send))
    case _ => None
  }

  /** The weight that running an action adds, beside removing its own. */
  ghost function Added(s: State, action: Action, slot: Option<nat>, m: Measure): nat
    requires |s.workers| > 0
  {
    match action
    case RequestReceive(_) | RequestAccept(_) | RequestClose(_) | RequestSend(_) =>
      var (i, body) := RequestedBody(s, action).value;
      if Offered(s, slot, body) then m.op(NewOperation(slot.value, i, body)) else 0
    case Route(op) => if 0 <= ThreadIndex(s.tickets, |s.workers|) then m.op(op) else 0
    case Enqueue(op, j) => if j < |s.workers| then m.op(op) else 0
    case AcceptOne => if s.idle == [] then 0 else m.accept(s.idle[0])
    case Handle(c) =>
      match c.op.body
      case Accept => if c.result < 0 then 0 else m.receive(c.op.session) + m.one
      case Recv(_, _) => if c.result < 0 then 0 else m.receive(c.op.session)
      case Close => 0
      case Send => 0
  }

  lemma RequestFlow(s: State, t: nat, slot: Option<nat>, m: Measure)
    requires t < |s.workers| && s.workers[t].todo != []
    requires RequestedBody(s, s.workers[t].todo[0]) != None
    ensures var (i, body) := RequestedBody(s, s.workers[t].todo[0]).value;
            Total(Request(s, t, s.workers[t].todo[1..], i, body, slot), m) + Planned(m, s.workers[t].todo[0])
            == Total(s, m) + Added(s, s.workers[t].todo[0], slot, m)
  {
    var w, rest := s.workers[t], s.workers[t].todo[1..];
    var (i, body) := RequestedBody(s, w.todo[0]).value;
    HeadLoad(m, w);
    if Offered(s, slot, body) {
      var op := NewOperation(slot.value, i, body);
      TodoLoad(m, w, [Route(op)], rest);
      NatSumOne(Route(op), PlannedOf(m));
      SetWorkerTotal(s, t, w.(todo := [Route(op)] + rest), m);
    } else {
      SetWorkerTotal(s, t, w.(todo := rest), m);
    }
  }

  lemma RouteFlow(s: State, t: nat, slot: Option<nat>, demands: seq<Demand>, m: Measure)
    requires t < |s.workers| && s.workers[t].todo != [] && s.workers[t].todo[0].Route?
    ensures Total(ActionStep(s, t, slot, demands), m) + Planned(m, s.workers[t].todo[0])
            == Total(s, m) + Added(s, s.workers[t].todo[0], slot, m)
  {
    var w, rest := s.workers[t], s.workers[t].todo[1..];
    var j := ThreadIndex(s.tickets, |s.workers|);
    HeadLoad(m, w);
    if 0 <= j {
      var next := Enqueue(w.todo[0].op, j);
      TodoLoad(m, w, [next], rest);
      NatSumOne(next, PlannedOf(m));
      SetWorkerTotal(s, t, w.(todo := [next] + rest), m);
    } else {
      SetWorkerTotal(s, t, w.(todo := rest), m);
    }
  }

  lemma EnqueueFlow(s: State, t: nat, slot: Option<nat>, demands: seq<Demand>, m: Measure)
    requires t < |s.workers| && s.workers[t].todo != [] && s.workers[t].todo[0].Enqueue?
    ensures Total(ActionStep(s, t, slot, demands), m) + Planned(m, s.workers[t].todo[0])
            == Total(s, m) + Added(s, s.workers[t].todo[0], slot, m)
  {
    var w, j, op := s.workers[t], s.workers[t].todo[0].worker, s.workers[t].todo[0].op;
    var popped := SetWorker(s, t, w.(todo := w.todo[1..]));
    HeadLoad(m, w);
    SetWorkerTotal(s, t, w.(todo := w.todo[1..]), m);
    if j < |s.workers| {
      var v := popped.workers[j];
      NatSumAppend(v.requests, [op], m.op);
      NatSumOne(op, m.op);
      SetWorkerTotal(popped, j, v.(requests := v.requests + [op]), m);
    }
  }

  lemma AcceptOneFlow(s: State, t: nat, slot: Option<nat>, demands: seq<Demand>, m: Measure)
    requires t < |s.workers| && s.workers[t].todo != [] && s.workers[t].todo[0].AcceptOne?
    ensures Total(ActionStep(s, t, slot, demands), m) + Planned(m, s.workers[t].todo[0])
            == Total(s, m) + Added(s, s.workers[t].todo[0], slot, m)
  {
    var w, rest := s.workers[t], s.workers[t].todo[1..];
    HeadLoad(m, w);
    if s.idle == [] {
      SetWorkerTotal(s, t, w.(todo := rest), m);
    } else {
      var next := RequestAccept(s.idle[0]);
      TodoLoad(m, w, [next], rest);
      NatSumOne(next, PlannedOf(m));
      SetWorkerTotal(s, t, w.(todo := [next] + rest), m);
    }
  }

  lemma ReactionsLoad(s: State, c: Completion, demands: seq<Demand>, m: Measure)
    ensures NatSum(Reactions(s, c, demands), PlannedOf(m))
            == (match c.op.body
                case Accept => if c.result < 0 then 0 else m.receive(c.op.session) + m.one
                case Recv(_, _) => if c.result < 0 then 0 else m.receive(c.op.session)
                case Close => 0
                case Send => 0)
  {
    var i := c.op.session;
    DemandsWeighNothing(m, demands);
    NatSumAppend(Actions(demands), [RequestReceive(i)], PlannedOf(m));
    NatSumOne(RequestReceive(i), PlannedOf(m));
    NatSumOne(AcceptOne, PlannedOf(m));
    NatSumOne(RequestClose(i), PlannedOf(m));
    NatSumAppend([RequestReceive(i)], [AcceptOne], PlannedOf(m));
    assert [RequestReceive(i)] + [AcceptOne] == [RequestReceive(i), AcceptOne];
  }

  lemma HandleFlow(s: State, t: nat, slot: Option<nat>, demands: seq<Demand>, m: Measure)
    requires t < |s.workers| && s.workers[t].todo != [] && s.workers[t].todo[0].Handle?
    ensures Total(ActionStep(s, t, slot, demands), m) + Planned(m, s.workers[t].todo[0])
            == Total(s, m) + Added(s, s.workers[t].todo[0], slot, m)
  {
    var w, c := s.workers[t], s.workers[t].todo[0].completion;
    var reactions := Reactions(s, c, demands);
    HeadLoad(m, w);
    ReactionsLoad(s, c, demands, m);
    TodoLoad(m, w, reactions, w.todo[1..]);
    SetWorkerTotal(s, t, w.(todo := reactions + w.todo[1..]), m);
  }

  /** Running an action turns its weight into what it adds. */
  lemma ActionFlow(s: State, t: nat, slot: Option<nat>, demands: seq<Demand>, m: Measure)
    requires t < |s.workers| && s.workers[t].todo != []
    ensures Total(ActionStep(s, t, slot, demands), m) + Planned(m, s.workers[t].todo[0])
            == Total(s, m) + Added(s, s.workers[t].todo[0], slot, m)
  {
    hide Total, Planned, Added, Request;
    match s.workers[t].todo[0] {
      case RequestReceive(_) => RequestFlow(s, t, slot, m);
      case RequestAccept(_) => RequestFlow(s, t, slot, m);
      case RequestClose(_) => RequestFlow(s, t, slot, m);
      case RequestSend(_) => RequestFlow(s, t, slot, m);
      case Route(_) => RouteFlow(s, t, slot, demands, m);
      case Enqueue(_, _) => EnqueueFlow(s, t, slot, demands, m);
      case AcceptOne => AcceptOneFlow(s, t, slot, demands, m);
      case Handle(_) => HandleFlow(s, t, slot, demands, m);
    }
  }

  // ---- The phases of an iteration --------------------------------------------------------

  /** Taking completion `k` turns it into a handler to run and an operation held. */
  lemma ReapFlow(s: State, t: nat, k: nat, m: Measure)
    requires t < |s.workers| && s.workers[t].todo == [] && s.workers[t].phase == Waiting
    requires s.workers[t].held == None && k < |s.workers[t].completed|
    ensures var c := s.workers[t].completed[k];
            Total(PhaseStep(s, t, Reap(k)), m) + m.done(c) == Total(s, m) + m.handle(c) + m.held(c.op)
  {
    var w, c := s.workers[t], s.workers[t].completed[k];
    NatSumRemove(w.completed, k, m.done);
    NatSumOne(Handle(c), PlannedOf(m));
    SetWorkerTotal(s, t, w.(phase := Flushing, held := Some(c.op), todo := [Handle(c)],
                            completed := w.completed[..k] + w.completed[k + 1..]), m);
  }

  /** Flushing moves operations and changes no total. */
  lemma FlushFlow(s: State, t: nat, m: Measure)
    requires t < |s.workers| && s.workers[t].todo == [] && s.workers[t].phase == Flushing
    ensures Total(PhaseStep(s, t, Flush), m) == Total(s, m)
  {
    var w := s.workers[t];
    if w.requests == [] {
      NatSumAppend(w.submitted, w.prepared, m.op);
      SetWorkerTotal(s, t, w.(phase := Tasking, submitted := w.submitted + w.prepared, prepared := []), m);
    } else {
      var op := w.requests[0];
      NatSumAppend(w.prepared, [op], m.op);
      NatSumOne(op, m.op);
      if op.body == Close {
        NatSumAppend(w.submitted, w.prepared + [op], m.op);
        SetWorkerTotal(s, t, w.(requests := w.requests[1..], prepared := [],
                                submitted := w.submitted + (w.prepared + [op])), m);
      } else {
        SetWorkerTotal(s, t, w.(requests := w.requests[1..], prepared := w.prepared + [op]), m);
      }
    }
  }

  lemma ApplicationFlow(s: State, t: nat, demands: seq<Demand>, m: Measure)
    requires t < |s.workers| && s.workers[t].todo == [] && s.workers[t].phase == Tasking
    ensures Total(PhaseStep(s, t, Application(demands)), m) == Total(s, m)
  {
    DemandsWeighNothing(m, demands);
    SetWorkerTotal(s, t, s.workers[t].(todo := Actions(demands)), m);
  }

  lemma ClosedFlow(s: State, t: nat, i: nat, m: Measure)
    requires t < |s.workers| && s.workers[t].todo == [] && s.workers[t].phase == Tasking
    requires i < |s.sessions|
    ensures Total(PhaseStep(s, t, SessionClosed(i)), m) == Total(s, m) + m.one
  {
    NatSumOne(AcceptOne, PlannedOf(m));
    SetWorkerTotal(s, t, s.workers[t].(todo := [AcceptOne]), m);
  }

  lemma EndFlow(s: State, t: nat, m: Measure)
    requires t < |s.workers| && s.workers[t].todo == [] && s.workers[t].phase == Tasking
    ensures Total(PhaseStep(s, t, EndIteration), m) + HeldWeight(m, s.workers[t].held) == Total(s, m)
  {
    SetWorkerTotal(s, t, s.workers[t].(phase := Waiting, held := None), m);
  }

  lemma TimeOutFlow(s: State, t: nat, m: Measure)
    requires t < |s.workers| && s.workers[t].todo == [] && s.workers[t].phase == Waiting
    ensures Total(PhaseStep(s, t, TimeOut), m) == Total(s, m)
  {
    SetWorkerTotal(s, t, s.workers[t].(phase := Flushing), m);
  }

  /** The kernel turns a submitted operation into a completion. */
  lemma DeliverFlow(s: State, t: nat, k: nat, result: int, data: seq<byte>, m: Measure)
    requires t < |s.workers| && k < |s.workers[t].submitted|
    requires Reportable(s.workers[t].submitted[k], result, data)
    ensures var op := s.workers[t].submitted[k];
            Total(DeliverStep(s, t, k, result, data), m) + m.op(op)
            == Total(s, m) + m.done(Completion(op, result, data))
  {
    var w, op := s.workers[t], s.workers[t].submitted[k];
    var c := Completion(op, result, data);
    NatSumRemove(w.submitted, k, m.op);
    NatSumAppend(w.completed, [c], m.done);
    NatSumOne(c, m.done);
    SetWorkerTotal(s, t, w.(submitted := w.submitted[..k] + w.submitted[k + 1..],
                            completed := w.completed + [c]), m);
  }

  /** The weight a step takes away. */
  ghost function Loss(s: State, move: Move, m: Measure): nat
    requires move.worker < |s.workers|
  {
    var w := s.workers[move.worker];
    match move
    case Deliver(_, k, result, data) =>
      if k < |w.submitted| && Reportable(w.submitted[k], result, data) then m.op(w.submitted[k]) else 0
    case Work(_, choice) =>
      if w.todo != [] then if choice.Proceed? then Planned(m, w.todo[0]) else 0
      else if w.phase == Waiting && choice.Reap? && choice.index < |w.completed| then m.done(w.completed[choice.index])
      else if w.phase == Tasking && choice == EndIteration then HeldWeight(m, w.held)
      else 0
  }

  /** The weight it puts in its place. */
  ghost function Gain(s: State, move: Move, m: Measure): nat
    requires move.worker < |s.workers|
  {
    var w := s.workers[move.worker];
    match move
    case Deliver(_, k, result, data) =>
      if k < |w.submitted| && Reportable(w.submitted[k], result, data)
      then m.done(Completion(w.submitted[k], result, data)) else 0
    case Work(_, choice) =>
      if w.todo != [] then if choice.Proceed? then Added(s, w.todo[0], choice.slot, m) else 0
      else if w.phase == Waiting && choice.Reap? && choice.index < |w.completed| then
        m.handle(w.completed[choice.index]) + m.held(w.completed[choice.index].op)
      else if w.phase == Tasking && choice.SessionClosed? && choice.session < |s.sessions| then m.one
      else 0
  }

  /** A thread that waits holds no operation of an earlier iteration. */
  predicate WaitsEmpty(w: Worker) {
    w.phase == Waiting ==> w.held == None
  }

  /** The flow of every measure through every step. */
  lemma StepFlow(s: State, move: Move, m: Measure)
    requires move.worker < |s.workers| && WaitsEmpty(s.workers[move.worker])
    ensures Total(Step(s, move), m) + Loss(s, move, m) == Total(s, m) + Gain(s, move, m)
  {
    hide Total, Planned, Added, ActionStep;
    var t, w := move.worker, s.workers[move.worker];
    match move {
      case Deliver(_, k, result, data) =>
        if k < |w.submitted| && Reportable(w.submitted[k], result, data) {
          DeliverFlow(s, t, k, result, data, m);
        }
      case Work(_, choice) =>
        if w.todo != [] {
          if choice.Proceed? {
            ActionFlow(s, t, choice.slot, choice.demands, m);
          }
        } else {
          PhaseFlow(s, t, choice, m);
        }
    }
  }

  lemma PhaseFlow(s: State, t: nat, choice: Choice, m: Measure)
    requires t < |s.workers| && WaitsEmpty(s.workers[t]) && s.workers[t].todo == []
    ensures Total(PhaseStep(s, t, choice), m) + Loss(s, Work(t, choice), m)
            == Total(s, m) + Gain(s, Work(t, choice), m)
  {
    hide Total;
    var w := s.workers[t];
    match w.phase {
      case Waiting =>
        if choice.Reap? && choice.index < |w.completed| {
          ReapFlow(s, t, choice.index, m);
        } else if choice.TimeOut? {
          TimeOutFlow(s, t, m);
        }
      case Flushing =>
        if choice.Flush? {
          FlushFlow(s, t, m);
        }
      case Tasking =>
        if choice.Application? {
          ApplicationFlow(s, t, choice.demands, m);
        } else if choice.SessionClosed? && choice.session < |s.sessions| {
          ClosedFlow(s, t, choice.session, m);
        } else if choice.EndIteration? {
          EndFlow(s, t, m);
        }
    }
  }

  // ---- Comparing measures ----------------------------------------------------------------

  /** `m` weighs nothing more than `a` and `b` together. */
  ghost predicate Bounded(m: Measure, a: Measure, b: Measure) {
    && (forall op {:trigger m.op(op)} :: m.op(op) <= a.op(op) + b.op(op))
    && (forall c {:trigger m.done(c)} :: m.done(c) <= a.done(c) + b.done(c))
    && (forall c {:trigger m.handle(c)} :: m.handle(c) <= a.handle(c) + b.handle(c))
    && (forall i {:trigger m.receive(i)} :: m.receive(i) <= a.receive(i) + b.receive(i))
    && (forall i {:trigger m.accept(i)} :: m.accept(i) <= a.accept(i) + b.accept(i))
    && m.one <= a.one + b.one
    && (forall op {:trigger m.held(op)} :: m.held(op) <= a.held(op) + b.held(op))
  }

  lemma LoadBounded(m: Measure, a: Measure, b: Measure, w: Worker)
    requires Bounded(m, a, b)
    ensures Load(m, w) <= Load(a, w) + Load(b, w)
  {
    NatSumLessEqual(w.requests, m.op, a.op, b.op);
    NatSumLessEqual(w.prepared, m.op, a.op, b.op);
    NatSumLessEqual(w.submitted, m.op, a.op, b.op);
    NatSumLessEqual(w.completed, m.done, a.done, b.done);
    forall action <- w.todo
      ensures PlannedOf(m)(action) <= PlannedOf(a)(action) + PlannedOf(b)(action)
    {
    }
    NatSumLessEqual(w.todo, PlannedOf(m), PlannedOf(a), PlannedOf(b));
  }

  lemma TotalBounded(s: State, m: Measure, a: Measure, b: Measure)
    requires Bounded(m, a, b)
    ensures Total(s, m) <= Total(s, a) + Total(s, b)
  {
    forall w <- s.workers
      ensures LoadOf(m)(w) <= LoadOf(a)(w) + LoadOf(b)(w)
    {
      LoadBounded(m, a, b, w);
    }
    NatSumLessEqual(s.workers, LoadOf(m), LoadOf(a), LoadOf(b));
  }
}
