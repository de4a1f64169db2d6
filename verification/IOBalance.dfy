/** The load of the worker threads: over every run, each thread is sent its share of the
    requests. */
module IOBalance {
  import opened Sums
  import opened RoundRobin
  import opened IOProtocol
  import opened IOFlow
  import opened IOTokens
  import opened IOPlaces

  /** The step draws a ticket that names thread `j`. */
  predicate RoutesTo(s: State, move: Move, j: nat) {
    && move.worker < |s.workers| && move.Work? && move.choice.Proceed?
    && s.workers[move.worker].todo != [] && s.workers[move.worker].todo[0].Route?
    && ThreadIndex(s.tickets, |s.workers|) == j
  }

  /** The step pushes an operation to the request queue of thread `j`. */
  predicate PushesTo(s: State, move: Move, j: nat) {
    && move.worker < |s.workers| && move.Work? && move.choice.Proceed?
    && s.workers[move.worker].todo != [] && s.workers[move.worker].todo[0].Enqueue?
    && s.workers[move.worker].todo[0].worker == j
  }

  /** How many requests of a run are sent to thread `j`. */
  function RoutedTo(s: State, schedule: seq<Move>, j: nat): nat
    decreases |schedule|
  {
    if schedule == [] then 0
    else (if RoutesTo(s, schedule[0], j) then 1 else 0) + RoutedTo(Step(s, schedule[0]), schedule[1..], j)
  }

  /** How many operations a run pushes to the request queue of thread `j`. */
  function PushedTo(s: State, schedule: seq<Move>, j: nat): nat
    decreases |schedule|
  {
    if schedule == [] then 0
    else (if PushesTo(s, schedule[0], j) then 1 else 0) + PushedTo(Step(s, schedule[0]), schedule[1..], j)
  }

  // ---- Tickets ---------------------------------------------------------------------------

  lemma StepSent(s: State, move: Move, j: nat)
    requires |s.workers| > 0
    ensures SentTo(Step(s, move).tickets, |s.workers|, j)
            == SentTo(s.tickets, |s.workers|, j) + if RoutesTo(s, move, j) then 1 else 0
  {
    hide Step, ThreadIndex;
    if move.worker < |s.workers| {
      StepTickets(s, move);
    } else {
      NoSuchWorker(s, move);
    }
  }

  /** The requests that a run sends to a thread are those whose tickets name it. */
  lemma {:induction false} RoutedAreSent(s: State, schedule: seq<Move>, j: nat)
    requires |s.workers| > 0
    ensures SentTo(s.tickets, |s.workers|, j) + RoutedTo(s, schedule, j)
            == SentTo(Run(s, schedule).tickets, |s.workers|, j)
    decreases |schedule|
  {
    if schedule == [] {
    } else {
      hide Step, SentTo, RoutesTo;
      StepSent(s, schedule[0], j);
      RoutedAreSent(Step(s, schedule[0]), schedule[1..], j);
    }
  }

  // ---- From tickets to queues --------------------------------------------------------------

  /** The actions that take the place of the first one. */
  function Follow(s: State, move: Move): seq<Action>
    requires move.Work? && move.choice.Proceed? && move.worker < |s.workers| && s.workers[move.worker].todo != []
  {
    match s.workers[move.worker].todo[0]
    case RequestReceive(_) | RequestAccept(_) | RequestClose(_) | RequestSend(_) =>
      var (i, body) := RequestedBody(s, s.workers[move.worker].todo[0]).value;
      if Offered(s, move.choice.slot, body) then [Route(NewOperation(move.choice.slot.value, i, body))] else []
    case Route(op) =>
      var j := ThreadIndex(s.tickets, |s.workers|);
      if 0 <= j then [Enqueue(op, j)] else []
    case Enqueue(_, _) => []
    case AcceptOne => if s.idle == [] then [] else [RequestAccept(s.idle[0])]
    case Handle(c) => Reactions(s, c, move.choice.demands)
  }

  /** What its thread has to do after a step. */
  function NextTodo(s: State, move: Move): seq<Action>
    requires move.worker < |s.workers|
  {
    var w := s.workers[move.worker];
    if move.Deliver? then w.todo
    else if w.todo != [] then if move.choice.Proceed? then Follow(s, move) + w.todo[1..] else w.todo
    else
      match w.phase
      case Waiting =>
        if move.choice.Reap? && move.choice.index < |w.completed| then [Handle(w.completed[move.choice.index])] else []
      case Flushing => []
      case Tasking =>
        if move.choice.Application? then Actions(move.choice.demands)
        else if move.choice.SessionClosed? && move.choice.session < |s.sessions| then [AcceptOne]
        else []
  }

  lemma StepTodo(s: State, move: Move, u: nat)
    requires move.worker < |s.workers| && u < |s.workers|
    ensures Step(s, move).workers[u].todo == if u == move.worker then NextTodo(s, move) else s.workers[u].todo
  {
    hide ActionStep, PhaseStep, DeliverStep, NextTodo;
    if move.Deliver? {
      DeliverTodo(s, move, u);
    } else if s.workers[move.worker].todo == [] {
      PhaseTodo(s, move, u);
    } else if move.choice.Proceed? {
      ActionTodo(s, move, u);
    } else {
      NothingTodo(s, move);
    }
  }

  lemma NothingTodo(s: State, move: Move)
    requires move.Work? && move.worker < |s.workers| && s.workers[move.worker].todo != [] && !move.choice.Proceed?
    ensures NextTodo(s, move) == s.workers[move.worker].todo
  {
  }

  lemma DeliverTodo(s: State, move: Move, u: nat)
    requires move.Deliver? && move.worker < |s.workers| && u < |s.workers|
    ensures DeliverStep(s, move.worker, move.index, move.result, move.data).workers[u].todo
            == if u == move.worker then NextTodo(s, move) else s.workers[u].todo
  {
    hide Stored, Reportable;
  }

  lemma PhaseTodo(s: State, move: Move, u: nat)
    requires move.Work? && move.worker < |s.workers| && u < |s.workers| && s.workers[move.worker].todo == []
    ensures PhaseStep(s, move.worker, move.choice).workers[u].todo
            == if u == move.worker then NextTodo(s, move) else s.workers[u].todo
  {
    hide Release, Actions;
    match s.workers[move.worker].phase {
      case Waiting =>
      case Flushing =>
      case Tasking => ReleaseKeepsWorkers(s, move.worker);
    }
  }

  lemma ActionTodo(s: State, move: Move, u: nat)
    requires move.Work? && move.choice.Proceed? && move.worker < |s.workers| && s.workers[move.worker].todo != []
    requires u < |s.workers|
    ensures ActionStep(s, move.worker, move.choice.slot, move.choice.demands).workers[u].todo
            == if u == move.worker then NextTodo(s, move) else s.workers[u].todo
  {
    hide ActionStep, Follow;
    var t, w := move.worker, s.workers[move.worker];
    match w.todo[0] {
      case Route(_) => RouteTodo(s, move, u);
      case Enqueue(_, _) => EnqueueTodo(s, move, u);
      case AcceptOne => AcceptTodo(s, move, u);
      case Handle(_) => HandleTodo(s, move, u);
      case _ => RequestedTodo(s, move, u);
    }
  }

  lemma RouteTodo(s: State, move: Move, u: nat)
    requires move.Work? && move.choice.Proceed? && move.worker < |s.workers| && s.workers[move.worker].todo != []
    requires u < |s.workers| && s.workers[move.worker].todo[0].Route?
    ensures ActionStep(s, move.worker, move.choice.slot, move.choice.demands).workers[u].todo
            == if u == move.worker then Follow(s, move) + s.workers[u].todo[1..] else s.workers[u].todo
  {
    hide ThreadIndex;
    var rest := s.workers[move.worker].todo[1..];
    assert [] + rest == rest;
  }

  lemma EnqueueTodo(s: State, move: Move, u: nat)
    requires move.Work? && move.choice.Proceed? && move.worker < |s.workers| && s.workers[move.worker].todo != []
    requires u < |s.workers| && s.workers[move.worker].todo[0].Enqueue?
    ensures ActionStep(s, move.worker, move.choice.slot, move.choice.demands).workers[u].todo
            == if u == move.worker then Follow(s, move) + s.workers[u].todo[1..] else s.workers[u].todo
  {
    hide ThreadIndex;
    var rest := s.workers[move.worker].todo[1..];
    assert [] + rest == rest;
  }

  lemma AcceptTodo(s: State, move: Move, u: nat)
    requires move.Work? && move.choice.Proceed? && move.worker < |s.workers| && s.workers[move.worker].todo != []
    requires u < |s.workers| && s.workers[move.worker].todo[0].AcceptOne?
    ensures ActionStep(s, move.worker, move.choice.slot, move.choice.demands).workers[u].todo
            == if u == move.worker then Follow(s, move) + s.workers[u].todo[1..] else s.workers[u].todo
  {
    hide ThreadIndex;
    var rest := s.workers[move.worker].todo[1..];
    assert [] + rest == rest;
  }

  lemma HandleTodo(s: State, move: Move, u: nat)
    requires move.Work? && move.choice.Proceed? && move.worker < |s.workers| && s.workers[move.worker].todo != []
    requires u < |s.workers| && s.workers[move.worker].todo[0].Handle?
    ensures ActionStep(s, move.worker, move.choice.slot, move.choice.demands).workers[u].todo
            == if u == move.worker then Follow(s, move) + s.workers[u].todo[1..] else s.workers[u].todo
  {
    hide Reactions, Handled;
  }

  lemma RequestedTodo(s: State, move: Move, u: nat)
    requires move.Work? && move.choice.Proceed? && move.worker < |s.workers| && s.workers[move.worker].todo != []
    requires u < |s.workers| && RequestedBody(s, s.workers[move.worker].todo[0]).Some?
    ensures ActionStep(s, move.worker, move.choice.slot, move.choice.demands).workers[u].todo
            == if u == move.worker then Follow(s, move) + s.workers[u].todo[1..] else s.workers[u].todo
  {
    hide Request, Reactions, Handled, ThreadIndex;
    var t, w := move.worker, s.workers[move.worker];
    var (i, body) := RequestedBody(s, w.todo[0]).value;
    RequestTodo(s, t, w.todo[1..], i, body, move.choice.slot, u);
    assert [] + w.todo[1..] == w.todo[1..];
  }

  lemma RequestTodo(s: State, t: nat, rest: seq<Action>, i: nat, body: Body, slot: Option<nat>, u: nat)
    requires t < |s.workers| && u < |s.workers|
    ensures Request(s, t, rest, i, body, slot).workers[u].todo
            == if u != t then s.workers[u].todo
               else if Offered(s, slot, body) then [Route(NewOperation(slot.value, i, body))] + rest else rest
  {
    hide Offered, NewOperation;
  }

  /** An operation whose ticket names thread `j`, on its way to the queue. */
  function ForThread(j: nat): Action -> nat {
    (action: Action) => if action.Enqueue? && action.worker == j then 1 else 0
  }

  function OnTheWay(j: nat): Worker -> nat {
    (w: Worker) => NatSum(w.todo, ForThread(j))
  }

  /** How many operations are between their ticket and the queue of thread `j`. */
  function Drawn(s: State, j: nat): nat {
    NatSum(s.workers, OnTheWay(j))
  }

  lemma ReactionsPushNothing(s: State, c: Completion, demands: seq<Demand>, j: nat)
    ensures NatSum(Reactions(s, c, demands), ForThread(j)) == 0
  {
    NatSumZero(Reactions(s, c, demands), ForThread(j));
  }

  lemma FollowWeighs(s: State, move: Move, j: nat)
    requires move.Work? && move.choice.Proceed? && move.worker < |s.workers| && s.workers[move.worker].todo != []
    ensures NatSum(Follow(s, move), ForThread(j)) == if RoutesTo(s, move, j) then 1 else 0
  {
    hide Reactions, ThreadIndex, Offered;
    match s.workers[move.worker].todo[0] {
      case Handle(c) => ReactionsPushNothing(s, c, move.choice.demands, j);
      case _ =>
    }
  }

  lemma TodoWeighs(s: State, move: Move, j: nat)
    requires move.worker < |s.workers|
    ensures NatSum(NextTodo(s, move), ForThread(j)) + (if PushesTo(s, move, j) then 1 else 0)
            == NatSum(s.workers[move.worker].todo, ForThread(j)) + (if RoutesTo(s, move, j) then 1 else 0)
  {
    hide Follow, ThreadIndex, Actions;
    var w := s.workers[move.worker];
    if move.Work? && w.todo != [] && move.choice.Proceed? {
      FollowWeighs(s, move, j);
      NatSumAppend(Follow(s, move), w.todo[1..], ForThread(j));
    } else if move.Work? && move.choice.Application? {
      DemandsPushNothing(move.choice.demands, j);
    }
  }

  lemma DemandsPushNothing(demands: seq<Demand>, j: nat)
    ensures NatSum(Actions(demands), ForThread(j)) == 0
  {
    NatSumZero(Actions(demands), ForThread(j));
  }

  lemma StepDrawn(s: State, move: Move, j: nat)
    ensures Drawn(Step(s, move), j) + (if PushesTo(s, move, j) then 1 else 0)
            == Drawn(s, j) + (if RoutesTo(s, move, j) then 1 else 0)
  {
    hide Step, NextTodo, ThreadIndex;
    var r := Step(s, move);
    if move.worker < |s.workers| {
      forall u | 0 <= u < |s.workers|
        ensures r.workers[u].todo == if u == move.worker then NextTodo(s, move) else s.workers[u].todo
      {
        StepTodo(s, move, u);
      }
      NatSumChange(s.workers, r.workers, move.worker, OnTheWay(j));
      TodoWeighs(s, move, j);
    } else {
      NoSuchWorker(s, move);
    }
  }

  /** Every operation sent to a thread is pushed to its queue, or on its way there. */
  lemma {:induction false} RoutedArePushed(s: State, schedule: seq<Move>, j: nat)
    ensures Drawn(s, j) + RoutedTo(s, schedule, j) == PushedTo(s, schedule, j) + Drawn(Run(s, schedule), j)
    decreases |schedule|
  {
    if schedule == [] {
    } else {
      hide Step, Drawn, RoutesTo, PushesTo;
      StepDrawn(s, schedule[0], j);
      RoutedArePushed(Step(s, schedule[0]), schedule[1..], j);
    }
  }

  // ---- The shares --------------------------------------------------------------------------

  /** Over every run of up to 2^31 requests each thread gets its share of them, the first few
      threads one more: pushed to its queue, or on their way there. */
  lemma EveryThreadGetsItsShare(threads: nat, sessions: nat, backlog: nat, schedule: seq<Move>, j: nat)
    requires j < threads
    requires Run(Initial(threads, sessions, backlog), schedule).tickets <= INT32_MAX_PLUS_1
    ensures var start := Initial(threads, sessions, backlog);
            var s := Run(start, schedule);
            PushedTo(start, schedule, j) + Drawn(s, j)
            == s.tickets / threads + if j < s.tickets % threads then 1 else 0
  {
    var start := Initial(threads, sessions, backlog);
    RoutedAreSent(start, schedule, j);
    RoutedArePushed(start, schedule, j);
    NothingDrawn(threads, sessions, backlog, j);
    hide SentTo, Run, RoutedTo, PushedTo, Drawn, Initial;
    Balanced(Run(start, schedule).tickets, threads, j);
  }

  lemma NothingDrawn(threads: nat, sessions: nat, backlog: nat, j: nat)
    requires threads > 0
    ensures var start := Initial(threads, sessions, backlog);
            Drawn(start, j) == 0 && start.tickets == 0 && |start.workers| == threads && SentTo(0, threads, j) == 0
  {
    var start := Initial(threads, sessions, backlog);
    forall w <- start.workers
      ensures OnTheWay(j)(w) == 0
    {
      NatSumZero(w.todo, ForThread(j));
    }
    NatSumZero(start.workers, OnTheWay(j));
  }

  /** In any part of such a run, no thread is sent more than one request more than another. */
  lemma AnyPartIsBalanced(s: State, schedule: seq<Move>, j: nat, k: nat)
    requires j < |s.workers| && k < |s.workers|
    requires Run(s, schedule).tickets <= INT32_MAX_PLUS_1
    ensures RoutedTo(s, schedule, j) - RoutedTo(s, schedule, k) <= 1
  {
    RoutedAreSent(s, schedule, j);
    RoutedAreSent(s, schedule, k);
    TicketsGrow(s, schedule);
    WindowBalanced(s.tickets, Run(s, schedule).tickets, |s.workers|, j, k);
  }
}
