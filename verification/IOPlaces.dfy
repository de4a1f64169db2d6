/** The life of an operation: acquired, queued, prepared, submitted, completed, held, given
    back. It is in exactly one place, has one reference, and goes back to the pool of its own
    kind when its handler has run. */
module IOPlaces {
  import opened Sums
  import opened IOProtocol
  import opened IOFlow
  import opened RoundRobin
  import opened IOTokens

  /** Everywhere operation `id` can be; its handler runs while it is held. */
  function PlaceMeasure(id: OpId): Measure {
    Measure(
      (op: Operation) => if op.id == id then 1 else 0,
      (c: Completion) => if c.op.id == id then 1 else 0,
      (c: Completion) => 0,
      (j: nat) => 0, (j: nat) => 0, 0,
      (op: Operation) => if op.id == id then 1 else 0)
  }

  function Is(id: OpId): Operation -> nat {
    (op: Operation) => if op.id == id then 1 else 0
  }

  /** In how many places operation `id` is, the dropped ones included. */
  ghost function Places(s: State, id: OpId): nat {
    NatSum(s.dropped, Is(id)) + Total(s, PlaceMeasure(id))
  }

  /** An acquired operation is in exactly one place and has one reference; one that is in the
      pool is nowhere else and has none. */
  ghost predicate Kept(s: State, id: OpId) {
    Places(s, id) == s.references[id] == if id in s.acquired then 1 else 0
  }

  /** Planned pushes go to queues that exist; a thread that has a handler to run holds the
      operation, and runs the handler before anything else. */
  ghost predicate TidyWorker(w: Worker, threads: nat) {
    forall k {:trigger w.todo[k]} :: 0 <= k < |w.todo| ==>
      && (w.todo[k].Enqueue? ==> w.todo[k].worker < threads)
      && (w.todo[k].Handle? ==> k == 0 && w.held == Some(w.todo[k].completion.op))
  }

  ghost predicate Tidy(s: State) {
    AllWaitEmpty(s)
    && forall t {:trigger s.workers[t]} :: 0 <= t < |s.workers| ==> TidyWorker(s.workers[t], |s.workers|)
  }

  // ---- What a step does to the books ------------------------------------------------------

  function NextDropped(s: State, move: Move): seq<Operation>
    requires move.worker < |s.workers|
  {
    var w := s.workers[move.worker];
    if move.Work? && move.choice.Proceed? && w.todo != [] && w.todo[0].Route? && ThreadIndex(s.tickets, |s.workers|) < 0
    then s.dropped + [w.todo[0].op] else s.dropped
  }

  /** The operation that a step acquires. */
  function Acquires(s: State, move: Move): Option<OpId>
    requires move.worker < |s.workers|
  {
    var w := s.workers[move.worker];
    if move.Work? && move.choice.Proceed? && w.todo != [] && RequestedBody(s, w.todo[0]).Some? then
      var (i, body) := RequestedBody(s, w.todo[0]).value;
      if Offered(s, move.choice.slot, body) then Some(OpId(PoolOf(body), move.choice.slot.value)) else None
    else None
  }

  /** The operation whose reference a step gives up. */
  function Releases(s: State, move: Move): Option<OpId>
    requires move.worker < |s.workers|
  {
    var w := s.workers[move.worker];
    if move.Work? && w.todo == [] && w.phase == Tasking && move.choice.EndIteration? && w.held.Some?
    then Some(w.held.value.id) else None
  }

  /** The books after a step. */
  ghost predicate Booked(s: State, move: Move, r: State)
    requires move.worker < |s.workers|
  {
    && r.dropped == NextDropped(s, move)
    && (match Acquires(s, move)
        case Some(id) => r.acquired == s.acquired + {id} && r.references == s.references + multiset{id}
        case None =>
          match Releases(s, move)
          case Some(id) =>
            && r.references == s.references - multiset{id}
            && r.acquired == if s.references[id] == 1 then s.acquired - {id} else s.acquired
          case None => r.acquired == s.acquired && r.references == s.references)
  }

  lemma StepBooked(s: State, move: Move)
    requires move.worker < |s.workers|
    ensures Booked(s, move, Step(s, move))
  {
    hide ActionStep, PhaseStep, Stored, Reportable, Booked;
    if move.Deliver? {
      DeliverBooked(s, move);
    } else if s.workers[move.worker].todo == [] {
      PhaseBooked(s, move);
    } else if move.choice.Proceed? {
      ActionBooked(s, move);
    } else {
      NothingBooked(s, move);
    }
  }

  lemma NothingBooked(s: State, move: Move)
    requires move.Work? && move.worker < |s.workers| && s.workers[move.worker].todo != [] && !move.choice.Proceed?
    ensures Booked(s, move, s)
  {
  }

  lemma DeliverBooked(s: State, move: Move)
    requires move.Deliver? && move.worker < |s.workers|
    ensures Booked(s, move, DeliverStep(s, move.worker, move.index, move.result, move.data))
  {
    hide Stored, Reportable;
  }

  lemma PhaseBooked(s: State, move: Move)
    requires move.Work? && move.worker < |s.workers| && s.workers[move.worker].todo == []
    ensures Booked(s, move, PhaseStep(s, move.worker, move.choice))
  {
    hide Actions;
    match s.workers[move.worker].phase {
      case Waiting => hide Release;
      case Flushing => hide Release;
      case Tasking => TaskingBooked(s, move);
    }
  }

  lemma TaskingBooked(s: State, move: Move)
    requires move.Work? && move.worker < |s.workers| && s.workers[move.worker].todo == []
    requires s.workers[move.worker].phase == Tasking
    ensures Booked(s, move, PhaseStep(s, move.worker, move.choice))
  {
    if move.choice.EndIteration? {
      EndBooked(s, move);
    } else {
      hide Actions, Release;
    }
  }

  lemma EndBooked(s: State, move: Move)
    requires move.worker < |s.workers| && move == Work(move.worker, EndIteration)
    requires s.workers[move.worker].todo == [] && s.workers[move.worker].phase == Tasking
    ensures Booked(s, move, PhaseStep(s, move.worker, EndIteration))
  {
    hide Offered;
  }

  lemma ActionBooked(s: State, move: Move)
    requires move.Work? && move.choice.Proceed? && move.worker < |s.workers| && s.workers[move.worker].todo != []
    ensures Booked(s, move, ActionStep(s, move.worker, move.choice.slot, move.choice.demands))
  {
    hide Reactions, Handled, ThreadIndex, Offered, Request;
    var t, w := move.worker, s.workers[move.worker];
    if RequestedBody(s, w.todo[0]).Some? {
      var (i, body) := RequestedBody(s, w.todo[0]).value;
      RequestBooked(s, t, w.todo[1..], i, body, move.choice.slot);
    }
  }

  lemma RequestBooked(s: State, t: nat, rest: seq<Action>, i: nat, body: Body, slot: Option<nat>)
    requires t < |s.workers|
    ensures var r := Request(s, t, rest, i, body, slot);
            && r.dropped == s.dropped
            && (if Offered(s, slot, body) then
                  var id := OpId(PoolOf(body), slot.value);
                  r.acquired == s.acquired + {id} && r.references == s.references + multiset{id}
                else r.acquired == s.acquired && r.references == s.references)
  {
  }

  function NextTickets(s: State, move: Move): nat
    requires move.worker < |s.workers|
  {
    var w := s.workers[move.worker];
    s.tickets + if move.Work? && move.choice.Proceed? && w.todo != [] && w.todo[0].Route? then 1 else 0
  }

  lemma StepTickets(s: State, move: Move)
    requires move.worker < |s.workers|
    ensures Step(s, move).tickets == NextTickets(s, move)
  {
    hide Reactions, Handled, ThreadIndex, Offered, NewOperation, Actions, Stored, Reportable;
    if move.Work? && s.workers[move.worker].todo != [] && move.choice.Proceed? {
      ActionTickets(s, move);
    } else if move.Work? {
      hide ActionStep;
    } else {
      hide ActionStep, PhaseStep;
    }
  }

  lemma ActionTickets(s: State, move: Move)
    requires move.Work? && move.choice.Proceed? && move.worker < |s.workers| && s.workers[move.worker].todo != []
    ensures ActionStep(s, move.worker, move.choice.slot, move.choice.demands).tickets == NextTickets(s, move)
  {
    hide Reactions, Handled, ThreadIndex, Offered, NewOperation;
  }

  /** No operation is refused by the index check before the request counter wraps around. */
  lemma {:induction false} NothingDropped(s: State, schedule: seq<Move>)
    requires s.dropped == [] && Run(s, schedule).tickets <= INT32_MAX_PLUS_1
    ensures Run(s, schedule).dropped == []
    decreases |schedule|
  {
    if schedule == [] {
    } else {
      hide Step, ThreadIndex;
      var next := Step(s, schedule[0]);
      TicketsGrow(next, schedule[1..]);
      if schedule[0].worker < |s.workers| {
        StepTickets(s, schedule[0]);
        StepBooked(s, schedule[0]);
        if s.tickets < INT32_MAX_PLUS_1 {
          InRangeIndex(s.tickets, |s.workers|);
        }
      } else {
        NoSuchWorker(s, schedule[0]);
      }
      NothingDropped(next, schedule[1..]);
    }
  }

  lemma {:induction false} TicketsGrow(s: State, schedule: seq<Move>)
    ensures s.tickets <= Run(s, schedule).tickets
    decreases |schedule|
  {
    if schedule == [] {
    } else {
      hide Step;
      if schedule[0].worker < |s.workers| {
        StepTickets(s, schedule[0]);
      } else {
        NoSuchWorker(s, schedule[0]);
      }
      TicketsGrow(Step(s, schedule[0]), schedule[1..]);
    }
  }

  lemma NoSuchWorker(s: State, move: Move)
    requires move.worker >= |s.workers|
    ensures Step(s, move) == s
  {
  }

  // ---- The todo lists ---------------------------------------------------------------------

  predicate NoHandlers(todo: seq<Action>, threads: nat) {
    forall action <- todo :: !action.Handle? && (action.Enqueue? ==> action.worker < threads)
  }

  /** Replacing the first action by others that are no handlers. */
  lemma PrependTidy(w: Worker, first: seq<Action>, threads: nat)
    requires TidyWorker(w, threads) && w.todo != [] && NoHandlers(first, threads)
    ensures TidyWorker(w.(todo := first + w.todo[1..]), threads)
  {
    var todo := first + w.todo[1..];
    forall k | 0 <= k < |todo|
      ensures !todo[k].Handle? && (todo[k].Enqueue? ==> todo[k].worker < threads)
    {
      if k < |first| {
        assert todo[k] == first[k];
      } else {
        assert todo[k] == w.todo[k - |first| + 1];
      }
    }
  }

  lemma ReactionsHaveNoHandlers(s: State, c: Completion, demands: seq<Demand>)
    ensures NoHandlers(Reactions(s, c, demands), |s.workers|)
  {
  }

  lemma StepTidy(s: State, move: Move)
    requires Tidy(s)
    ensures Tidy(Step(s, move))
  {
    hide ActionStep, PhaseStep, Stored, Reportable, TidyWorker;
    StepWaitsEmpty(s, move);
    if move.worker < |s.workers| {
      if move.Deliver? {
        DeliverTidy(s, move);
      } else if s.workers[move.worker].todo == [] {
        PhaseTidy(s, move.worker, move.choice);
      } else if move.choice.Proceed? {
        ActionTidy(s, move.worker, move.choice.slot, move.choice.demands);
      }
    }
  }

  lemma DeliverTidy(s: State, move: Move)
    requires move.Deliver? && move.worker < |s.workers| && Tidy(s)
    ensures var r := DeliverStep(s, move.worker, move.index, move.result, move.data);
            forall t {:trigger r.workers[t]} :: 0 <= t < |r.workers| ==> TidyWorker(r.workers[t], |r.workers|)
  {
    hide Stored, Reportable;
  }

  lemma PhaseTidy(s: State, t: nat, choice: Choice)
    requires t < |s.workers| && s.workers[t].todo == [] && Tidy(s)
    ensures var r := PhaseStep(s, t, choice);
            forall t {:trigger r.workers[t]} :: 0 <= t < |r.workers| ==> TidyWorker(r.workers[t], |r.workers|)
  {
    hide Release;
    match s.workers[t].phase {
      case Waiting =>
      case Flushing =>
      case Tasking => ReleaseKeepsWorkers(s, t);
    }
  }

  lemma ReleaseKeepsWorkers(s: State, t: nat)
    requires t < |s.workers| && s.workers[t].todo == [] && s.workers[t].phase == Tasking
    ensures PhaseStep(s, t, EndIteration).workers == s.workers[t := s.workers[t].(phase := Waiting, held := None)]
  {
  }

  lemma ActionTidy(s: State, t: nat, slot: Option<nat>, demands: seq<Demand>)
    requires t < |s.workers| && s.workers[t].todo != [] && Tidy(s)
    ensures var r := ActionStep(s, t, slot, demands);
            forall t {:trigger r.workers[t]} :: 0 <= t < |r.workers| ==> TidyWorker(r.workers[t], |r.workers|)
  {
    hide Handled, Offered, NewOperation, Reactions, TidyWorker;
    var w, n := s.workers[t], |s.workers|;
    var rest := w.todo[1..];
    PrependTidy(w, [], n);
    assert [] + rest == rest;
    match w.todo[0] {
      case RequestReceive(i) =>
        var span := if i < |s.sessions| then s.sessions[i].buffer.committed else 0;
        RequestTidy(s, t, i, Recv(span, ReceiveBuffer.MAX_RECEIVE_BUFFER_SIZE - span), slot);
      case RequestAccept(i) => RequestTidy(s, t, i, Accept, slot);
      case RequestClose(i) => RequestTidy(s, t, i, Close, slot);
      case RequestSend(i) => RequestTidy(s, t, i, Send, slot);
      case Route(op) =>
        var j := ThreadIndex(s.tickets, n);
        if 0 <= j {
          PrependTidy(w, [Enqueue(op, j)], n);
        }
      case Enqueue(op, j) => PushTidy(s, t, slot, demands);
      case AcceptOne =>
        if s.idle != [] {
          PrependTidy(w, [RequestAccept(s.idle[0])], n);
        }
      case Handle(c) =>
        ReactionsHaveNoHandlers(s, c, demands);
        PrependTidy(w, Reactions(s, c, demands), n);
    }
  }

  lemma RequestTidy(s: State, t: nat, i: nat, body: Body, slot: Option<nat>)
    requires t < |s.workers| && s.workers[t].todo != [] && Tidy(s)
    ensures var r := Request(s, t, s.workers[t].todo[1..], i, body, slot);
            forall t {:trigger r.workers[t]} :: 0 <= t < |r.workers| ==> TidyWorker(r.workers[t], |r.workers|)
  {
    hide TidyWorker;
    var w, n := s.workers[t], |s.workers|;
    PrependTidy(w, [], n);
    assert [] + w.todo[1..] == w.todo[1..];
    if Offered(s, slot, body) {
      PrependTidy(w, [Route(NewOperation(slot.value, i, body))], n);
    }
  }

  lemma PushTidy(s: State, t: nat, slot: Option<nat>, demands: seq<Demand>)
    requires t < |s.workers| && s.workers[t].todo != [] && s.workers[t].todo[0].Enqueue? && Tidy(s)
    ensures var r := ActionStep(s, t, slot, demands);
            forall t {:trigger r.workers[t]} :: 0 <= t < |r.workers| ==> TidyWorker(r.workers[t], |r.workers|)
  {
  }

  // ---- Places -----------------------------------------------------------------------------

  /** The flow of places: one more for what is acquired, one less for what is released. */
  lemma PlaceFlow(s: State, move: Move, id: OpId)
    requires move.worker < |s.workers| && Tidy(s)
    ensures var m := PlaceMeasure(id);
            NatSum(NextDropped(s, move), Is(id)) + Gain(s, move, m) + (if Releases(s, move) == Some(id) then 1 else 0)
            == NatSum(s.dropped, Is(id)) + Loss(s, move, m) + (if Acquires(s, move) == Some(id) then 1 else 0)
  {
    hide ThreadIndex, Offered, Reportable;
    var w := s.workers[move.worker];
    if NextDropped(s, move) != s.dropped {
      NatSumAppend(s.dropped, [w.todo[0].op], Is(id));
      NatSumOne(w.todo[0].op, Is(id));
    }
  }

  /** The books of one operation. */
  lemma BooksOf(s: State, move: Move, r: State, id: OpId)
    requires move.worker < |s.workers| && Booked(s, move, r)
    ensures Acquires(s, move) == Some(id) ==>
              id !in s.acquired && id in r.acquired && r.references[id] == s.references[id] + 1
    ensures Releases(s, move) == Some(id) && s.references[id] == 1 ==> id !in r.acquired && r.references[id] == 0
    ensures Acquires(s, move) != Some(id) && Releases(s, move) != Some(id) ==>
              (id in r.acquired <==> id in s.acquired) && r.references[id] == s.references[id]
    ensures Acquires(s, move) == None || Releases(s, move) == None
  {
  }

  /** Only what is held is released. */
  lemma ReleasedWasPlaced(s: State, move: Move, id: OpId)
    requires move.worker < |s.workers|
    ensures Releases(s, move) == Some(id) ==> Places(s, id) > 0
  {
    NatSumMember(s.workers, move.worker, LoadOf(PlaceMeasure(id)));
  }

  lemma PlacesAfter(s: State, move: Move, id: OpId)
    requires move.worker < |s.workers| && Tidy(s)
    ensures Places(Step(s, move), id) + (if Releases(s, move) == Some(id) then 1 else 0)
            == Places(s, id) + (if Acquires(s, move) == Some(id) then 1 else 0)
  {
    hide Step, Total, Gain, Loss, NextDropped, Acquires, Releases, PlaceMeasure, Is, TidyWorker;
    StepBooked(s, move);
    StepFlow(s, move, PlaceMeasure(id));
    PlaceFlow(s, move, id);
  }

  lemma StepKept(s: State, move: Move, id: OpId)
    requires Tidy(s) && Kept(s, id)
    ensures Kept(Step(s, move), id)
  {
    if move.worker < |s.workers| {
      hide Step, Total, Gain, Loss, NextDropped, Acquires, Releases, PlaceMeasure, Is, TidyWorker, Booked, WaitsEmpty;
      StepBooked(s, move);
      BooksOf(s, move, Step(s, move), id);
      ReleasedWasPlaced(s, move, id);
      PlacesAfter(s, move, id);
    }
  }

  ghost predicate AllKept(s: State) {
    Tidy(s) && forall id {:trigger Kept(s, id)} :: Kept(s, id)
  }

  lemma {:induction false} RunKept(s: State, schedule: seq<Move>)
    requires AllKept(s)
    ensures AllKept(Run(s, schedule))
    decreases |schedule|
  {
    if schedule == [] {
    } else {
      var next := Step(s, schedule[0]);
      StepTidy(s, schedule[0]);
      forall id
        ensures Kept(next, id)
      {
        assert Kept(s, id);
        StepKept(s, schedule[0], id);
      }
      RunKept(next, schedule[1..]);
    }
  }

  lemma InitialKept(threads: nat, sessions: nat, backlog: nat)
    requires threads > 0
    ensures AllKept(Initial(threads, sessions, backlog))
  {
    var s := Initial(threads, sessions, backlog);
    InitialTotal(threads, sessions, backlog, NoWeight());
    forall id
      ensures Kept(s, id)
    {
      InitialTotal(threads, sessions, backlog, PlaceMeasure(id));
    }
  }

  /** In every reachable state each operation is in exactly one place if its pool has handed
      it out, and in none if not; and its reference count says which. */
  lemma EveryOperationInOnePlace(threads: nat, sessions: nat, backlog: nat, schedule: seq<Move>, id: OpId)
    requires threads > 0
    ensures var s := Run(Initial(threads, sessions, backlog), schedule);
            Places(s, id) == s.references[id] == if id in s.acquired then 1 else 0
  {
    InitialKept(threads, sessions, backlog);
    RunKept(Initial(threads, sessions, backlog), schedule);
    assert Kept(Run(Initial(threads, sessions, backlog), schedule), id);
  }

  // ---- Giving back ------------------------------------------------------------------------

  /** Operations filed under another pool than that of their kind. */
  function MisfiledMeasure(): Measure {
    var misfiled := (op: Operation) => if op.id.pool == PoolOf(op.body) then 0 else 1;
    Measure(misfiled, (c: Completion) => misfiled(c.op), (c: Completion) => 0,
            (j: nat) => 0, (j: nat) => 0, 0, misfiled)
  }

  lemma NothingMisfiled(s: State, move: Move)
    requires move.worker < |s.workers| && AllWaitEmpty(s) && Total(s, MisfiledMeasure()) == 0
    ensures Total(Step(s, move), MisfiledMeasure()) == 0
  {
    hide Step, Total;
    StepFlow(s, move, MisfiledMeasure());
    MisfiledFlow(s, move);
  }

  lemma MisfiledFlow(s: State, move: Move)
    requires move.worker < |s.workers|
    ensures Gain(s, move, MisfiledMeasure()) <= Loss(s, move, MisfiledMeasure())
  {
    hide ThreadIndex, Offered, Reportable;
  }

  lemma {:induction false} RunMisfiled(s: State, schedule: seq<Move>)
    requires AllWaitEmpty(s) && Total(s, MisfiledMeasure()) == 0
    ensures Total(Run(s, schedule), MisfiledMeasure()) == 0
    decreases |schedule|
  {
    if schedule == [] {
    } else {
      hide Total;
      StepWaitsEmpty(s, schedule[0]);
      if schedule[0].worker < |s.workers| {
        NothingMisfiled(s, schedule[0]);
      }
      RunMisfiled(Step(s, schedule[0]), schedule[1..]);
    }
  }

  lemma HeldIsOnlyPlace(s: State, t: nat, u: nat, id: OpId)
    requires Kept(s, id) && t < |s.workers| && u < |s.workers| && t != u
    requires s.workers[t].held.Some? && s.workers[t].held.value.id == id
    ensures !(s.workers[u].held.Some? && s.workers[u].held.value.id == id)
  {
    NatSumPair(s.workers, if t < u then t else u, if t < u then u else t, LoadOf(PlaceMeasure(id)));
  }

  /** An operation goes back to its pool only at the end of the iteration that holds it, with
      its one reference, after its handler has run and with none waiting to run anywhere; and
      the pool is the one of its own kind. */
  lemma GivenBackAfterHandling(threads: nat, sessions: nat, backlog: nat, schedule: seq<Move>, move: Move, id: OpId)
    requires threads > 0
    ensures var s := Run(Initial(threads, sessions, backlog), schedule);
            id in s.acquired && id !in Step(s, move).acquired ==>
              && move.worker < |s.workers| && move == Work(move.worker, EndIteration)
              && s.references[id] == 1
              && s.workers[move.worker].held.Some?
              && s.workers[move.worker].held.value.id == id
              && (match s.workers[move.worker].held.value.body
                  case Accept => id.pool == AcceptPool
                  case Recv(_, _) => id.pool == RecvPool
                  case Close => id.pool == ClosePool
                  case Send => id.pool == SendPool)
              && forall u, k {:trigger s.workers[u].todo[k]} ::
                   0 <= u < |s.workers| && 0 <= k < |s.workers[u].todo| && s.workers[u].todo[k].Handle?
                   ==> s.workers[u].todo[k].completion.op.id != id
  {
    var start := Initial(threads, sessions, backlog);
    var s := Run(start, schedule);
    if id in s.acquired && id !in Step(s, move).acquired {
      hide Step;
      InitialKept(threads, sessions, backlog);
      RunKept(start, schedule);
      InitialTotal(threads, sessions, backlog, MisfiledMeasure());
      RunMisfiled(start, schedule);
      assert Kept(s, id);
      OnlyEndReleases(s, move, id);
      NatSumMember(s.workers, move.worker, LoadOf(MisfiledMeasure()));
      forall u, k | 0 <= u < |s.workers| && 0 <= k < |s.workers[u].todo| && s.workers[u].todo[k].Handle?
        ensures s.workers[u].todo[k].completion.op.id != id
      {
        assert TidyWorker(s.workers[u], |s.workers|);
        if u != move.worker {
          HeldIsOnlyPlace(s, move.worker, u, id);
        }
      }
    }
  }

  lemma OnlyEndReleases(s: State, move: Move, id: OpId)
    requires id in s.acquired && id !in Step(s, move).acquired
    ensures move.worker < |s.workers| && Releases(s, move) == Some(id)
  {
    if move.worker < |s.workers| {
      StepBooked(s, move);
    }
  }
}
