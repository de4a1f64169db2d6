/** Session phases. A session is idle, or has one accept or receive under way, or neither: the
    token that says so is never doubled, whatever the threads do. */
module IOTokens {
  import opened Sums
  import opened Framing
  import opened IOProtocol
  import opened IOFlow
  import opened RoundRobin

  // ---- Runs from the start ---------------------------------------------------------------

  /** The service after its sessions have been made: thread 0 stands for the initialising
      thread, which has `backlog` accepts to request. */
  function Initial(threads: nat, sessions: nat, backlog: nat): State
    requires threads > 0
  {
    State(
      [IdleWorker().(todo := seq(backlog, _ => AcceptOne))] + seq(threads - 1, _ => IdleWorker()),
      seq(sessions, _ => FreshSession()), UpTo(sessions), 0, {}, multiset{}, [], {})
  }

  function UpTo(n: nat): seq<nat> {
    seq(n, i => i)
  }

  ghost predicate AllWaitEmpty(s: State) {
    forall t {:trigger s.workers[t]} :: 0 <= t < |s.workers| ==> WaitsEmpty(s.workers[t])
  }

  lemma StepWaitsEmpty(s: State, move: Move)
    requires AllWaitEmpty(s)
    ensures AllWaitEmpty(Step(s, move))
  {
    hide ActionStep, PhaseStep, DeliverStep;
    if move.worker < |s.workers| {
      var t := move.worker;
      match move {
        case Deliver(_, k, result, data) => DeliverWaits(s, t, k, result, data);
        case Work(_, choice) =>
          if s.workers[t].todo == [] {
            PhaseWaits(s, t, choice);
          } else if choice.Proceed? {
            ActionWaits(s, t, choice.slot, choice.demands);
          }
      }
    }
  }

  lemma DeliverWaits(s: State, t: nat, k: nat, result: int, data: seq<byte>)
    requires AllWaitEmpty(s) && t < |s.workers|
    ensures AllWaitEmpty(DeliverStep(s, t, k, result, data))
  {
    hide Stored, Reportable;
  }

  lemma PhaseWaits(s: State, t: nat, choice: Choice)
    requires AllWaitEmpty(s) && t < |s.workers| && s.workers[t].todo == []
    ensures AllWaitEmpty(PhaseStep(s, t, choice))
  {
    hide Actions;
    match s.workers[t].phase {
      case Waiting =>
      case Flushing =>
      case Tasking =>
    }
  }

  lemma ActionWaits(s: State, t: nat, slot: Option<nat>, demands: seq<Demand>)
    requires AllWaitEmpty(s) && t < |s.workers| && s.workers[t].todo != []
    ensures AllWaitEmpty(ActionStep(s, t, slot, demands))
  {
    hide ActionStep;
    forall u | 0 <= u < |s.workers|
      ensures WaitsEmpty(ActionStep(s, t, slot, demands).workers[u])
    {
      ActionKeepsPhase(s, t, slot, demands, u);
    }
  }

  lemma ActionKeepsPhase(s: State, t: nat, slot: Option<nat>, demands: seq<Demand>, u: nat)
    requires t < |s.workers| && s.workers[t].todo != [] && u < |s.workers|
    ensures var r := ActionStep(s, t, slot, demands);
            r.workers[u].phase == s.workers[u].phase && r.workers[u].held == s.workers[u].held
  {
    hide Reactions, Handled, ThreadIndex, Request;
    if RequestedBody(s, s.workers[t].todo[0]).Some? {
      var (i, body) := RequestedBody(s, s.workers[t].todo[0]).value;
      RequestKeepsPhase(s, t, s.workers[t].todo[1..], i, body, slot, u);
    }
  }

  lemma RequestKeepsPhase(s: State, t: nat, rest: seq<Action>, i: nat, body: Body, slot: Option<nat>, u: nat)
    requires t < |s.workers| && u < |s.workers|
    ensures var r := Request(s, t, rest, i, body, slot);
            r.workers[u].phase == s.workers[u].phase && r.workers[u].held == s.workers[u].held
  {
    hide Offered, NewOperation;
  }

  /** Only the planned accepts weigh anything at the start. */
  lemma InitialTotal(threads: nat, sessions: nat, backlog: nat, m: Measure)
    requires threads > 0
    ensures Total(Initial(threads, sessions, backlog), m) == backlog * m.one
    ensures AllWaitEmpty(Initial(threads, sessions, backlog))
  {
    var s := Initial(threads, sessions, backlog);
    AcceptsLoad(backlog, m);
    NatSumZero(s.workers[1..], LoadOf(m));
  }

  lemma {:induction false} AcceptsLoad(n: nat, m: Measure)
    ensures NatSum(seq(n, _ => AcceptOne), PlannedOf(m)) == n * m.one
  {
    if n == 0 {
    } else {
      AcceptsLoad(n - 1, m);
      assert seq(n, _ => AcceptOne)[1..] == seq(n - 1, _ => AcceptOne);
    }
  }

  // ---- Tokens ----------------------------------------------------------------------------

  /** An accept or a receive of session `i`. */
  predicate Occupies(op: Operation, i: nat) {
    op.session == i && (op.body.Accept? || op.body.Recv?)
  }

  function TokenMeasure(i: nat): Measure {
    Measure(
      (op: Operation) => if Occupies(op, i) then 1 else 0,
      (c: Completion) => if Occupies(c.op, i) then 1 else 0,
      (c: Completion) => if Occupies(c.op, i) then 1 else 0,
      (j: nat) => if j == i then 1 else 0,
      (j: nat) => if j == i then 1 else 0,
      0,
      (op: Operation) => 0)
  }

  /** How often session `i` is idle, has an accept or receive planned, requested, submitted or
      completed, or has a handler of one about to run. */
  ghost function Tokens(s: State, i: nat): nat {
    Count(s.idle, i) + Total(s, TokenMeasure(i))
  }

  /** The step is `on_closed` of session `i`. */
  predicate Closes(s: State, move: Move, i: nat) {
    && move.Work? && move.choice == SessionClosed(i) && i < |s.sessions|
    && move.worker < |s.workers| && s.workers[move.worker].todo == []
    && s.workers[move.worker].phase == Tasking
  }

  /** The idle queue after a step: `AcceptOne` takes its head, `on_closed` adds to its end. */
  function NextIdle(s: State, move: Move): seq<nat>
    requires move.worker < |s.workers|
  {
    var w := s.workers[move.worker];
    if move.Deliver? then s.idle
    else if w.todo != [] then
      if move.choice.Proceed? && w.todo[0] == AcceptOne && s.idle != [] then s.idle[1..] else s.idle
    else if w.phase == Tasking && move.choice.SessionClosed? && move.choice.session < |s.sessions| then
      s.idle + [move.choice.session]
    else s.idle
  }

  lemma StepIdle(s: State, move: Move)
    requires move.worker < |s.workers|
    ensures Step(s, move).idle == NextIdle(s, move)
  {
    hide Reactions, Handled, ThreadIndex, Offered, NewOperation, Actions, Stored, Reportable, Release;
    hide Request;
    if move.Work? && s.workers[move.worker].todo == [] {
      PhaseIdle(s, move.worker, move.choice);
    } else if move.Work? && move.choice.Proceed? {
      ActionIdle(s, move);
    }
  }

  lemma PhaseIdle(s: State, t: nat, choice: Choice)
    requires t < |s.workers| && s.workers[t].todo == []
    ensures PhaseStep(s, t, choice).idle == NextIdle(s, Work(t, choice))
  {
    hide Actions;
  }

  lemma ActionIdle(s: State, move: Move)
    requires move.Work? && move.choice.Proceed? && move.worker < |s.workers| && s.workers[move.worker].todo != []
    ensures ActionStep(s, move.worker, move.choice.slot, move.choice.demands).idle == NextIdle(s, move)
  {
    hide Reactions, Handled, ThreadIndex, Offered, NewOperation;
  }

  /** A step moves tokens on or loses them; `on_closed` is the only source of a new one. */
  lemma StepTokens(s: State, move: Move, i: nat)
    requires AllWaitEmpty(s)
    ensures Closes(s, move, i) ==> Tokens(Step(s, move), i) == Tokens(s, i) + 1
    ensures !Closes(s, move, i) ==> Tokens(Step(s, move), i) <= Tokens(s, i)
  {
    if move.worker < |s.workers| {
      StepIdle(s, move);
      StepFlow(s, move, TokenMeasure(i));
      TokenFlow(s, move, i);
    }
  }

  lemma TokenFlow(s: State, move: Move, i: nat)
    requires move.worker < |s.workers|
    ensures var m := TokenMeasure(i);
            && (Closes(s, move, i) ==>
                  Count(NextIdle(s, move), i) + Gain(s, move, m) == Count(s.idle, i) + Loss(s, move, m) + 1)
            && (!Closes(s, move, i) ==>
                  Count(NextIdle(s, move), i) + Gain(s, move, m) <= Count(s.idle, i) + Loss(s, move, m))
  {
    hide ThreadIndex, Offered, Reportable;
    if move.Work? && move.choice.SessionClosed? {
      CountPush<nat>(s.idle, move.choice.session, i);
    }
  }

  /** `on_closed` keeps a session from being in two phases at once exactly when it is in none:
      not idle, and with no accept or receive under way. */
  lemma CloseKeepsTokensIff(s: State, move: Move, i: nat)
    requires AllWaitEmpty(s) && Closes(s, move, i)
    ensures Tokens(Step(s, move), i) <= 1 <==> Tokens(s, i) == 0
  {
    StepTokens(s, move, i);
  }

  /** A run in which sessions are closed only when nothing of theirs is under way. */
  ghost predicate Polite(s: State, schedule: seq<Move>)
    decreases |schedule|
  {
    schedule == []
    || ((forall i :: Closes(s, schedule[0], i) ==> Tokens(s, i) == 0) && Polite(Step(s, schedule[0]), schedule[1..]))
  }

  /** In particular every run of the code as it stands, where nothing calls `on_closed`. */
  lemma {:induction false} NoCloseIsPolite(s: State, schedule: seq<Move>)
    requires forall move <- schedule :: move.Work? ==> !move.choice.SessionClosed?
    ensures Polite(s, schedule)
    decreases |schedule|
  {
    if schedule == [] {
    } else {
      assert schedule[0] in schedule;
      NoCloseIsPolite(Step(s, schedule[0]), schedule[1..]);
    }
  }

  ghost predicate OneEach(s: State) {
    AllWaitEmpty(s) && forall i {:trigger Tokens(s, i)} :: Tokens(s, i) <= 1
  }

  lemma StepOneEach(s: State, move: Move)
    requires OneEach(s) && forall i :: Closes(s, move, i) ==> Tokens(s, i) == 0
    ensures OneEach(Step(s, move))
  {
    hide Step, Total;
    StepWaitsEmpty(s, move);
    forall i: nat
      ensures Tokens(Step(s, move), i) <= 1
    {
      StepTokens(s, move, i);
      assert Tokens(s, i) <= 1;
    }
  }

  lemma {:induction false} RunOneEach(s: State, schedule: seq<Move>)
    requires OneEach(s) && Polite(s, schedule)
    ensures OneEach(Run(s, schedule))
    decreases |schedule|
  {
    if schedule == [] {
    } else {
      StepOneEach(s, schedule[0]);
      RunOneEach(Step(s, schedule[0]), schedule[1..]);
    }
  }

  lemma {:induction false} CountUpTo(n: nat, i: nat)
    ensures Count(UpTo(n), i) == if i < n then 1 else 0
  {
    if n == 0 {
    } else {
      assert UpTo(n) == UpTo(n - 1) + [n - 1];
      CountUpTo(n - 1, i);
      CountPush<nat>(UpTo(n - 1), n - 1, i);
    }
  }

  lemma InitialOneEach(threads: nat, sessions: nat, backlog: nat)
    requires threads > 0
    ensures OneEach(Initial(threads, sessions, backlog))
  {
    var s := Initial(threads, sessions, backlog);
    InitialTotal(threads, sessions, backlog, NoWeight());
    forall i: nat
      ensures Tokens(s, i) <= 1
    {
      InitialTotal(threads, sessions, backlog, TokenMeasure(i));
      CountUpTo(sessions, i);
    }
  }

  /** Receives of session `i` that are queued, submitted, completed or being handled. */
  function ReceiveMeasure(i: nat): Measure {
    Measure(
      (op: Operation) => if op.session == i && op.body.Recv? then 1 else 0,
      (c: Completion) => if c.op.session == i && c.op.body.Recv? then 1 else 0,
      (c: Completion) => if c.op.session == i && c.op.body.Recv? then 1 else 0,
      (j: nat) => 0, (j: nat) => 0, 0, (op: Operation) => 0)
  }

  lemma ReceivesAreTokens(s: State, i: nat)
    ensures Total(s, ReceiveMeasure(i)) <= Total(s, TokenMeasure(i))
  {
    TotalBounded(s, ReceiveMeasure(i), TokenMeasure(i), NoWeight());
    NoTotal(s);
  }

  function NoWeight(): Measure {
    Measure((op: Operation) => 0, (c: Completion) => 0, (c: Completion) => 0,
            (j: nat) => 0, (j: nat) => 0, 0, (op: Operation) => 0)
  }

  lemma NoTotal(s: State)
    ensures Total(s, NoWeight()) == 0
  {
    forall w <- s.workers
      ensures LoadOf(NoWeight())(w) == 0
    {
      NatSumZero(w.requests, NoWeight().op);
      NatSumZero(w.prepared, NoWeight().op);
      NatSumZero(w.submitted, NoWeight().op);
      NatSumZero(w.completed, NoWeight().done);
      NatSumZero(w.todo, PlannedOf(NoWeight()));
    }
    NatSumZero(s.workers, LoadOf(NoWeight()));
  }

  /** Over every interleaving: no session is twice in the idle queue, none is idle with an
      operation under way, and none has more than one receive anywhere. */
  lemma AtMostOneReceive(threads: nat, sessions: nat, backlog: nat, schedule: seq<Move>, i: nat)
    requires threads > 0 && Polite(Initial(threads, sessions, backlog), schedule)
    ensures var s := Run(Initial(threads, sessions, backlog), schedule);
            && Count(s.idle, i) + Total(s, ReceiveMeasure(i)) <= 1
            && (i in s.idle ==> Total(s, TokenMeasure(i)) == 0)
  {
    var s := Run(Initial(threads, sessions, backlog), schedule);
    InitialOneEach(threads, sessions, backlog);
    RunOneEach(Initial(threads, sessions, backlog), schedule);
    assert Tokens(s, i) <= 1;
    ReceivesAreTokens(s, i);
    CountMember(s.idle, i);
  }
}
