/** Listening never dries up: as long as a session is idle, at least `backlog` sessions are
    accepting or have failed to accept and have not been closed since. */
module IOAccepts {
  import opened Sums
  import opened RoundRobin
  import opened IOProtocol
  import opened IOFlow
  import opened IOTokens
  import opened IOPlaces
  import opened IOPhases

  /** Accepts planned, requested, submitted, completed or being handled, and planned calls of
      `request_accept_one`. */
  function SupplyMeasure(): Measure {
    Measure(
      (op: Operation) => if op.body.Accept? then 1 else 0,
      (c: Completion) => if c.op.body.Accept? then 1 else 0,
      (c: Completion) => if c.op.body.Accept? then 1 else 0,
      (j: nat) => 0, (j: nat) => 1, 1, (op: Operation) => 0)
  }

  /** The planned calls alone. */
  function CallMeasure(): Measure {
    NoWeight().(one := 1)
  }

  /** The accepts of sessions from `low` on. */
  function AcceptsFrom(low: nat): Measure {
    Measure(
      (op: Operation) => if op.session >= low && op.body.Accept? then 1 else 0,
      (c: Completion) => if c.op.session >= low && c.op.body.Accept? then 1 else 0,
      (c: Completion) => if c.op.session >= low && c.op.body.Accept? then 1 else 0,
      (j: nat) => 0, (j: nat) => if j >= low then 1 else 0, 0, (op: Operation) => 0)
  }

  ghost function AcceptingSessions(s: State): set<nat> {
    AcceptingFrom(s, 0)
  }

  ghost function AcceptingFrom(s: State, low: nat): set<nat> {
    set i | low <= i < |s.sessions| && Total(s, AcceptsOf(i)) > 0
  }

  // ---- Only sessions that exist -----------------------------------------------------------

  /** The idle queue, the accepts and the failed sessions are about sessions that exist. */
  ghost predicate InRange(s: State) {
    && (forall i <- s.idle :: i < |s.sessions|)
    && (forall i <- s.failed :: i < |s.sessions|)
    && Total(s, AcceptsFrom(|s.sessions|)) == 0
  }

  lemma RangeFlow(s: State, move: Move)
    requires move.worker < |s.workers| && forall i <- s.idle :: i < |s.sessions|
    ensures Gain(s, move, AcceptsFrom(|s.sessions|)) <= Loss(s, move, AcceptsFrom(|s.sessions|))
    ensures Failing(s, move).Some? && Failing(s, move).value >= |s.sessions| ==>
              Gain(s, move, AcceptsFrom(|s.sessions|)) < Loss(s, move, AcceptsFrom(|s.sessions|))
  {
    hide ThreadIndex, Offered, Reportable;
    assert s.idle != [] ==> s.idle[0] in s.idle;
  }

  lemma IdleInRange(s: State, move: Move)
    requires move.worker < |s.workers| && forall i <- s.idle :: i < |s.sessions|
    ensures forall i <- NextIdle(s, move) :: i < |s.sessions|
  {
    forall i <- NextIdle(s, move)
      ensures i < |s.sessions|
    {
      assert i in s.idle || (move.Work? && move.choice.SessionClosed? && i == move.choice.session < |s.sessions|);
    }
  }

  lemma StepInRange(s: State, move: Move)
    requires Tidy(s) && InRange(s) && move.worker < |s.workers|
    ensures InRange(Step(s, move))
    ensures Failing(s, move).Some? ==> Failing(s, move).value < |s.sessions|
  {
    hide Step, Total, Gain, Loss, NextIdle, Failing, Closed, Tidy;
    TidyWaits(s, move);
    StepIdle(s, move);
    StepFailed(s, move);
    StepFlow(s, move, AcceptsFrom(|s.sessions|));
    RangeFlow(s, move);
    IdleInRange(s, move);
  }

  // ---- The supply -------------------------------------------------------------------------

  /** Accepts under way and planned, together with the failed sessions, are at least `backlog`;
      or every idle session has a planned call that will take it. */
  ghost predicate Supplied(s: State, backlog: nat) {
    || Total(s, SupplyMeasure()) + |s.failed| >= backlog
    || Total(s, CallMeasure()) >= |s.idle|
  }

  /** Accepts are not lost but fail, a close plans a new one, and only a call that finds no
      idle session is without effect. */
  lemma SupplyFlow(s: State, move: Move)
    requires move.worker < |s.workers| && Tidy(s)
    ensures var m, calls := SupplyMeasure(), CallMeasure();
            || (&& Gain(s, move, m) + One(Failing(s, move).Some?) >= Loss(s, move, m) + One(Closed(s, move).Some?)
                && Gain(s, move, calls) + |s.idle| >= Loss(s, move, calls) + |NextIdle(s, move)|)
            || NextIdle(s, move) == []
    ensures Failing(s, move) == None || Closed(s, move) == None
  {
    hide ThreadIndex, Offered, Reportable;
    assert TidyWorker(s.workers[move.worker], |s.workers|);
  }

  /** A session that fails had not failed before. */
  lemma FailsAnew(s: State, move: Move, i: nat)
    requires OnePhase(s) && move.worker < |s.workers| && i < |s.sessions| && Failing(s, move) == Some(i)
    ensures i !in s.failed
  {
    hide Step, Total, Gain, Loss, NextIdle, Failing, Closed, Accepts, Tidy;
    TidyWaits(s, move);
    StepFlow(s, move, AcceptsOf(i));
    AcceptFlow(s, move, i);
    assert Phases(s, i) == 1;
  }

  lemma StepSupplied(s: State, move: Move, backlog: nat)
    requires OnePhase(s) && InRange(s) && Supplied(s, backlog)
    ensures Supplied(Step(s, move), backlog)
  {
    if move.worker < |s.workers| {
      hide Total, Failing, Closed, Gain, Loss, Step, NextIdle, Tidy;
      TidyWaits(s, move);
      StepIdle(s, move);
      StepFailed(s, move);
      StepInRange(s, move);
      SupplyFlow(s, move);
      StepFlow(s, move, SupplyMeasure());
      StepFlow(s, move, CallMeasure());
      if Failing(s, move).Some? {
        FailsAnew(s, move, Failing(s, move).value);
      }
    }
  }

  lemma {:induction false} RunSupplied(s: State, schedule: seq<Move>, backlog: nat)
    requires OnePhase(s) && InRange(s) && Supplied(s, backlog) && Proper(s, schedule)
    ensures Supplied(Run(s, schedule), backlog) && InRange(Run(s, schedule))
    decreases |schedule|
  {
    if schedule == [] {
    } else {
      hide Step, OnePhase, Supplied, InRange, ProperStep;
      var next := Step(s, schedule[0]);
      StepOnePhase(s, schedule[0]);
      StepSupplied(s, schedule[0], backlog);
      StepStaysInRange(s, schedule[0]);
      RunSupplied(next, schedule[1..], backlog);
    }
  }

  lemma StepStaysInRange(s: State, move: Move)
    requires OnePhase(s) && InRange(s)
    ensures InRange(Step(s, move))
  {
    if move.worker < |s.workers| {
      StepInRange(s, move);
    }
  }

  // ---- From accepts to sessions -----------------------------------------------------------

  /** With one accept each, the sessions from `low` on that accept are as many as the accepts. */
  lemma {:induction false} AcceptsCounted(s: State, low: nat)
    requires low <= |s.sessions| && Total(s, AcceptsFrom(|s.sessions|)) == 0
    requires forall i {:trigger AcceptsOf(i)} :: 0 <= i < |s.sessions| ==> Total(s, AcceptsOf(i)) <= 1
    ensures Total(s, AcceptsFrom(low)) <= |AcceptingFrom(s, low)|
    decreases |s.sessions| - low
  {
    if low == |s.sessions| {
    } else {
      hide Total, AcceptingFrom;
      AcceptsCounted(s, low + 1);
      FromNext(s, low);
      AcceptingNext(s, low);
      assert Total(s, AcceptsOf(low)) <= 1;
    }
  }

  lemma FromNext(s: State, low: nat)
    ensures Total(s, AcceptsFrom(low)) <= Total(s, AcceptsOf(low)) + Total(s, AcceptsFrom(low + 1))
  {
    TotalBounded(s, AcceptsFrom(low), AcceptsOf(low), AcceptsFrom(low + 1));
  }

  lemma AcceptingNext(s: State, low: nat)
    requires low < |s.sessions|
    ensures |AcceptingFrom(s, low)| == |AcceptingFrom(s, low + 1)| + One(Total(s, AcceptsOf(low)) > 0)
  {
    hide Total;
    if Total(s, AcceptsOf(low)) > 0 {
      assert AcceptingFrom(s, low) == AcceptingFrom(s, low + 1) + {low};
    } else {
      assert AcceptingFrom(s, low) == AcceptingFrom(s, low + 1);
    }
  }

  /** In every run with proper closes: once no call of `request_accept_one` is planned, a
      session that is still idle means that at least `backlog` sessions are accepting or have
      failed to accept and not been closed since. */
  lemma BacklogHolds(threads: nat, sessions: nat, backlog: nat, schedule: seq<Move>)
    requires threads > 0 && Proper(Initial(threads, sessions, backlog), schedule)
    ensures var s := Run(Initial(threads, sessions, backlog), schedule);
            && AcceptingSessions(s) !! s.failed
            && (Total(s, CallMeasure()) == 0 && s.idle != [] ==> |AcceptingSessions(s)| + |s.failed| >= backlog)
  {
    var start := Initial(threads, sessions, backlog);
    var s := Run(start, schedule);
    InitialOnePhase(threads, sessions, backlog);
    RunOnePhase(start, schedule);
    InitialSupplied(threads, sessions, backlog);
    RunSupplied(start, schedule, backlog);
    hide Total, Tidy, Run;
    forall i | 0 <= i < |s.sessions|
      ensures Total(s, AcceptsOf(i)) + One(i in s.failed) <= 1
    {
      assert Phases(s, i) == 1;
    }
    SupplySplits(s);
    AcceptsCounted(s, 0);
  }

  lemma InitialSupplied(threads: nat, sessions: nat, backlog: nat)
    requires threads > 0
    ensures var s := Initial(threads, sessions, backlog); Supplied(s, backlog) && InRange(s)
  {
    InitialTotal(threads, sessions, backlog, SupplyMeasure());
    InitialTotal(threads, sessions, backlog, AcceptsFrom(sessions));
  }

  lemma SupplySplits(s: State)
    ensures Total(s, SupplyMeasure()) <= Total(s, AcceptsFrom(0)) + Total(s, CallMeasure())
  {
    assert Bounded(SupplyMeasure(), AcceptsFrom(0), CallMeasure());
    TotalBounded(s, SupplyMeasure(), AcceptsFrom(0), CallMeasure());
  }
}
