/** The session pool: every session is in exactly one phase, in every run in which sessions are
    closed only when they are neither idle nor accepting. */
module IOPhases {
  import opened Sums
  import opened RoundRobin
  import opened IOProtocol
  import opened IOFlow
  import opened IOTokens
  import opened IOPlaces
  import opened IOStreams

  datatype Phase = Idle | Accepting | Connected | Closing | AcceptFailed

  /** Accepts of session `i` planned, requested, submitted, completed or about to be handled. */
  function AcceptsOf(i: nat): Measure {
    Measure(
      (op: Operation) => if op.session == i && op.body.Accept? then 1 else 0,
      (c: Completion) => if c.op.session == i && c.op.body.Accept? then 1 else 0,
      (c: Completion) => if c.op.session == i && c.op.body.Accept? then 1 else 0,
      (j: nat) => 0, (j: nat) => if j == i then 1 else 0, 0, (op: Operation) => 0)
  }

  /** Close operations of session `i`, until they are handled. */
  function ClosesOf(i: nat): Measure {
    Measure(
      (op: Operation) => if op.session == i && op.body.Close? then 1 else 0,
      (c: Completion) => if c.op.session == i && c.op.body.Close? then 1 else 0,
      (c: Completion) => if c.op.session == i && c.op.body.Close? then 1 else 0,
      (j: nat) => 0, (j: nat) => 0, 0, (op: Operation) => 0)
  }

  ghost predicate InPhase(s: State, i: nat, phase: Phase)
    requires i < |s.sessions|
  {
    match phase
    case Idle => i in s.idle
    case Accepting => Total(s, AcceptsOf(i)) > 0
    case Connected => s.sessions[i].hasActor && Total(s, ClosesOf(i)) == 0
    case Closing => s.sessions[i].hasActor && Total(s, ClosesOf(i)) > 0
    case AcceptFailed => i in s.failed
  }

  function One(b: bool): nat {
    if b then 1 else 0
  }

  /** In how many phases session `i` is, idle entries and accepts counted one by one. */
  ghost function Phases(s: State, i: nat): nat
    requires i < |s.sessions|
  {
    Count(s.idle, i) + Total(s, AcceptsOf(i)) + One(i in s.failed) + One(s.sessions[i].hasActor)
  }

  // ---- The failed sessions -----------------------------------------------------------------

  /** The session whose accept fails in a step: refused by the pool, dropped by the index
      check, or ended in an error. */
  function Failing(s: State, move: Move): Option<nat>
    requires move.worker < |s.workers|
  {
    var w := s.workers[move.worker];
    if move.Deliver? || w.todo == [] || !move.choice.Proceed? then None
    else
      match w.todo[0]
      case RequestAccept(i) => if Offered(s, move.choice.slot, Accept) then None else Some(i)
      case Route(op) => if op.body.Accept? && ThreadIndex(s.tickets, |s.workers|) < 0 then Some(op.session) else None
      case Handle(c) => if c.op.body.Accept? && c.result < 0 then Some(c.op.session) else None
      case _ => None
  }

  /** The session that a step closes. */
  function Closed(s: State, move: Move): Option<nat>
    requires move.worker < |s.workers|
  {
    if move.Work? && move.choice.SessionClosed? && Closes(s, move, move.choice.session)
    then Some(move.choice.session) else None
  }

  function NextFailed(s: State, move: Move): set<nat>
    requires move.worker < |s.workers|
  {
    match Failing(s, move)
    case Some(i) => s.failed + {i}
    case None =>
      match Closed(s, move)
      case Some(i) => s.failed - {i}
      case None => s.failed
  }

  lemma StepFailed(s: State, move: Move)
    requires move.worker < |s.workers|
    ensures Step(s, move).failed == NextFailed(s, move)
  {
    hide ActionStep, PhaseStep, DeliverStep;
    if move.Deliver? {
      DeliverFailed(s, move);
    } else if s.workers[move.worker].todo == [] {
      PhaseFailed(s, move);
    } else if move.choice.Proceed? {
      ActionFailed(s, move);
    }
  }

  lemma DeliverFailed(s: State, move: Move)
    requires move.Deliver? && move.worker < |s.workers|
    ensures DeliverStep(s, move.worker, move.index, move.result, move.data).failed == NextFailed(s, move)
  {
    hide Stored, Reportable;
  }

  lemma PhaseFailed(s: State, move: Move)
    requires move.Work? && move.worker < |s.workers| && s.workers[move.worker].todo == []
    ensures PhaseStep(s, move.worker, move.choice).failed == NextFailed(s, move)
  {
    hide Actions;
    match s.workers[move.worker].phase {
      case Waiting =>
      case Flushing =>
      case Tasking =>
    }
  }

  lemma ActionFailed(s: State, move: Move)
    requires move.Work? && move.choice.Proceed? && move.worker < |s.workers| && s.workers[move.worker].todo != []
    ensures ActionStep(s, move.worker, move.choice.slot, move.choice.demands).failed == NextFailed(s, move)
  {
    hide Reactions, Handled, ThreadIndex, Offered, NewOperation;
  }

  // ---- One phase ---------------------------------------------------------------------------

  /** The step connects session `i`: its accept has succeeded. */
  predicate Accepts(s: State, move: Move, i: nat)
    requires move.worker < |s.workers|
  {
    && Handles(s, move, i)
    && s.workers[move.worker].todo[0].completion.op.body.Accept?
    && s.workers[move.worker].todo[0].completion.result >= 0
  }

  lemma StepActor(s: State, move: Move, i: nat)
    requires move.worker < |s.workers| && i < |s.sessions|
    ensures Step(s, move).sessions[i].hasActor
            <==> Accepts(s, move, i) || (s.sessions[i].hasActor && !Closes(s, move, i))
  {
    hide Step;
    StepSession(s, move, i);
  }

  /** What an accept loses, another phase of the same session gains. */
  lemma AcceptFlow(s: State, move: Move, i: nat)
    requires move.worker < |s.workers| && Tidy(s)
    ensures var m := AcceptsOf(i);
            Count(NextIdle(s, move), i) + Gain(s, move, m) + One(Failing(s, move) == Some(i)) + One(Accepts(s, move, i))
            == Count(s.idle, i) + Loss(s, move, m) + One(Closes(s, move, i))
    ensures Failing(s, move) == Some(i) || Accepts(s, move, i) ==> Gain(s, move, AcceptsOf(i)) == 0
    ensures Failing(s, move) == Some(i) || Accepts(s, move, i) ==> Loss(s, move, AcceptsOf(i)) == 1
    ensures Closes(s, move, i) ==> Closed(s, move) == Some(i) && Failing(s, move) == None && !Accepts(s, move, i)
    ensures Closed(s, move) == Some(i) ==> Closes(s, move, i)
  {
    hide ThreadIndex, Offered, Reportable;
    assert TidyWorker(s.workers[move.worker], |s.workers|);
    if move.Work? && move.choice.SessionClosed? {
      CountPush<nat>(s.idle, move.choice.session, i);
    }
  }

  /** A step keeps a session in one phase, unless it closes it while it is idle or accepting. */
  lemma StepPhases(s: State, move: Move, i: nat)
    requires Tidy(s) && i < |s.sessions| && Phases(s, i) == 1
    ensures !Closes(s, move, i) ==> Phases(Step(s, move), i) == 1
    ensures Closes(s, move, i) ==>
              Phases(Step(s, move), i) == 1 + Count(s.idle, i) + Total(s, AcceptsOf(i))
  {
    if move.worker < |s.workers| {
      hide Step, Total, Gain, Loss, NextIdle, Failing, Closed, Accepts, Tidy;
      TidyWaits(s, move);
      StepIdle(s, move);
      StepFailed(s, move);
      StepActor(s, move, i);
      StepFlow(s, move, AcceptsOf(i));
      AcceptFlow(s, move, i);
    }
  }

  lemma TidyWaits(s: State, move: Move)
    requires Tidy(s) && move.worker < |s.workers|
    ensures WaitsEmpty(s.workers[move.worker])
  {
  }

  /** Exactly when `on_closed` keeps its session in one phase: when the session is neither idle
      nor accepting, that is connected, closing, or failed to accept. */
  lemma CloseKeepsPhaseIff(s: State, move: Move, i: nat)
    requires Tidy(s) && i < |s.sessions| && Phases(s, i) == 1 && Closes(s, move, i)
    ensures Phases(Step(s, move), i) == 1 <==> !InPhase(s, i, Idle) && !InPhase(s, i, Accepting)
    ensures !InPhase(s, i, Idle) && !InPhase(s, i, Accepting)
            <==> InPhase(s, i, Connected) || InPhase(s, i, Closing) || InPhase(s, i, AcceptFailed)
  {
    hide Step, Total, Tidy;
    StepPhases(s, move, i);
    CountMember(s.idle, i);
  }

  // ---- Whole runs --------------------------------------------------------------------------

  ghost predicate OnePhase(s: State) {
    Tidy(s) && forall i {:trigger Phases(s, i)} :: 0 <= i < |s.sessions| ==> Phases(s, i) == 1
  }

  /** Sessions are closed only when they are neither idle nor accepting. */
  ghost predicate ProperStep(s: State, move: Move) {
    forall i :: Closes(s, move, i) ==> !InPhase(s, i, Idle) && !InPhase(s, i, Accepting)
  }

  ghost predicate Proper(s: State, schedule: seq<Move>)
    decreases |schedule|
  {
    schedule == [] || (ProperStep(s, schedule[0]) && Proper(Step(s, schedule[0]), schedule[1..]))
  }

  lemma AcceptsAreTokens(s: State, i: nat)
    ensures Total(s, AcceptsOf(i)) <= Total(s, TokenMeasure(i))
  {
    TotalBounded(s, AcceptsOf(i), TokenMeasure(i), NoWeight());
    NoTotal(s);
  }

  /** Closing only sessions with nothing under way is proper, and so is closing none. */
  lemma {:induction false} PoliteIsProper(s: State, schedule: seq<Move>)
    requires Polite(s, schedule)
    ensures Proper(s, schedule)
    decreases |schedule|
  {
    if schedule == [] {
    } else {
      hide Step, Total;
      forall i | Closes(s, schedule[0], i)
        ensures !InPhase(s, i, Idle) && !InPhase(s, i, Accepting)
      {
        AcceptsAreTokens(s, i);
        CountMember(s.idle, i);
      }
      PoliteIsProper(Step(s, schedule[0]), schedule[1..]);
    }
  }

  lemma StepOnePhase(s: State, move: Move)
    requires OnePhase(s) && ProperStep(s, move)
    ensures OnePhase(Step(s, move))
  {
    hide Step, Total, Tidy, AcceptsOf;
    StepTidy(s, move);
    forall i: nat | i < |s.sessions|
      ensures Phases(Step(s, move), i) == 1
    {
      assert Phases(s, i) == 1;
      StepPhases(s, move, i);
      CountMember<nat>(s.idle, i);
    }
  }

  lemma InitialOnePhase(threads: nat, sessions: nat, backlog: nat)
    requires threads > 0
    ensures OnePhase(Initial(threads, sessions, backlog))
  {
    var s := Initial(threads, sessions, backlog);
    InitialKept(threads, sessions, backlog);
    forall i | 0 <= i < sessions
      ensures Phases(s, i) == 1
    {
      InitialTotal(threads, sessions, backlog, AcceptsOf(i));
      CountUpTo(sessions, i);
    }
  }

  lemma {:induction false} RunOnePhase(s: State, schedule: seq<Move>)
    requires OnePhase(s) && Proper(s, schedule)
    ensures OnePhase(Run(s, schedule))
    decreases |schedule|
  {
    if schedule == [] {
    } else {
      hide Step, OnePhase, ProperStep;
      StepOnePhase(s, schedule[0]);
      RunOnePhase(Step(s, schedule[0]), schedule[1..]);
    }
  }

  /** The phase of a session that is in one. */
  ghost function PhaseOf(s: State, i: nat): Phase
    requires i < |s.sessions|
  {
    if i in s.idle then Idle
    else if Total(s, AcceptsOf(i)) > 0 then Accepting
    else if i in s.failed then AcceptFailed
    else if Total(s, ClosesOf(i)) > 0 then Closing
    else Connected
  }

  /** In every run with proper closes, those of connected sessions that still receive included,
      every session is in exactly one phase, at most once in the idle queue, and has at most
      one accept under way. */
  lemma ExactlyOnePhase(threads: nat, sessions: nat, backlog: nat, schedule: seq<Move>, i: nat)
    requires threads > 0 && i < sessions && Proper(Initial(threads, sessions, backlog), schedule)
    ensures var s := Run(Initial(threads, sessions, backlog), schedule);
            && (forall phase :: InPhase(s, i, phase) <==> phase == PhaseOf(s, i))
            && Count(s.idle, i) <= 1 && Total(s, AcceptsOf(i)) <= 1
  {
    var start := Initial(threads, sessions, backlog);
    var s := Run(start, schedule);
    InitialOnePhase(threads, sessions, backlog);
    RunOnePhase(start, schedule);
    hide Total, Tidy;
    assert Phases(s, i) == 1;
    CountMember(s.idle, i);
  }
}
