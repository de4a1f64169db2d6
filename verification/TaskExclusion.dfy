/** Are the tasks of one serializer kept apart? Each serializer has claims on it: entries in
    the ready queue and threads in or before a turn of it. Claims are moved, never copied, but
    for one step, and that step is what lets two threads run the same serializer. */
module TaskExclusion {
  import opened Sums
  import opened TaskScheduling
  import opened TaskMachine
  import opened TaskInterleaving

  /** The claims of one thread on serializer `k`. */
  function Claim(th: Thread, k: nat): nat {
    (if th.current == Some(k) && th.pc != Leaving then 1 else 0)
    + (if th.pc.Scheduling? && th.pc.serializer == k then 1 else 0)
    + (if th.pc.Entering? && th.pc.serializer == k then 1 else 0)
  }

  function ClaimOf(k: nat): Thread -> nat {
    (th: Thread) => Claim(th, k)
  }

  function Claims(s: State, k: nat): nat {
    Count(s.shared.ready, k) + NatSum(s.threads, ClaimOf(k))
  }

  /** The step enqueues to `k` a task whose test has found the queue empty. */
  predicate SchedulesAnew(sh: Schedule, th: Thread, choice: Choice, k: nat) {
    || (th.pc.Tested? && th.pc.wasEmpty && th.pc.task.target == k)
    || (th.pc.Pushing? && choice == Atomically && th.pc.task.target == k
        && k < |sh.queues| && sh.queues[k] == [])
  }

  /** The step ends a turn of `k` with its queue empty. */
  predicate GivesUp(sh: Schedule, th: Thread, k: nat) {
    th.pc.Checking? && th.current == Some(k) && k < |sh.queues| && sh.queues[k] == []
  }

  lemma LocalClaims(sh: Schedule, th: Thread, choice: Choice, k: nat)
    requires Valid(sh) && ThreadOk(th, |sh.queues|) && Disciplined(th) && k < |sh.queues|
    ensures var (sh', th') := LocalStep(sh, th, choice);
            Count(sh'.ready, k) + Claim(th', k) + (if GivesUp(sh, th, k) then 1 else 0)
            == Count(sh.ready, k) + Claim(th, k) + (if SchedulesAnew(sh, th, choice, k) then 1 else 0)
  {
    hide Valid;
    match th.pc {
      case Scheduling(j, _) => CountPush<nat>(sh.ready, j, k);
      case Requeuing => CountPush<nat>(sh.ready, th.current.value, k);
      case _ =>
    }
  }

  /** Claims are conserved: a step changes their number only by scheduling a serializer anew
      or by giving it up. */
  lemma StepClaims(s: State, move: Move, k: nat)
    requires StateOk(s) && move.0 < |s.threads| && k < |s.shared.queues|
    ensures Claims(Step(s, move), k) + (if GivesUp(s.shared, s.threads[move.0], k) then 1 else 0)
            == Claims(s, k) + (if SchedulesAnew(s.shared, s.threads[move.0], move.1, k) then 1 else 0)
  {
    var (t, choice) := move;
    var th := s.threads[t];
    assert ThreadOk(th, |s.shared.queues|) && Disciplined(th);
    hide Valid;
    LocalClaims(s.shared, th, choice, k);
    NatSumUpdate(s.threads, t, LocalStep(s.shared, th, choice).1, ClaimOf(k));
  }

  /** Every serializer has at most one claim on it. */
  ghost predicate Exclusive(s: State) {
    forall k {:trigger Claims(s, k)} :: 0 <= k < |s.shared.queues| ==> Claims(s, k) <= 1
  }

  /** The step schedules anew a serializer that is claimed already: its queue is empty, but it
      is in a turn, or its old entry is still in the ready queue. */
  predicate ClaimsTwice(s: State, move: Move) {
    && move.0 < |s.threads|
    && var th := s.threads[move.0];
    && (th.pc.Pushing? || th.pc.Tested?)
    && SchedulesAnew(s.shared, th, move.1, th.pc.task.target)
    && Claims(s, th.pc.task.target) >= 1
  }

  /** Exactly when exclusiveness ends: with a push into the empty queue of a serializer that is
      still claimed. */
  lemma ExclusiveIff(s: State, move: Move)
    requires StateOk(s) && Exclusive(s)
    ensures Exclusive(Step(s, move)) <==> !ClaimsTwice(s, move)
  {
    if move.0 < |s.threads| {
      var th := s.threads[move.0];
      assert ThreadOk(th, |s.shared.queues|);
      hide Claims, StateOk;
      forall k | 0 <= k < |s.shared.queues| && !ClaimsTwice(s, move)
        ensures Claims(Step(s, move), k) <= 1
      {
        StepClaims(s, move, k);
        assert Claims(s, k) <= 1;
      }
      if ClaimsTwice(s, move) {
        var k := th.pc.task.target;
        StepClaims(s, move, k);
        assert Claims(Step(s, move), k) > 1;
      }
    }
  }

  /** The thread is running a task of serializer `k`. */
  predicate Runs(th: Thread, k: nat) {
    th.current == Some(k) && InTask(th.pc)
  }

  /** While claims are exclusive, no two threads run tasks of one serializer at a time. */
  lemma ExclusiveKeepsApart(s: State, t: nat, u: nat, k: nat)
    requires StateOk(s) && Exclusive(s) && t < u < |s.threads| && k < |s.shared.queues|
    ensures !(Runs(s.threads[t], k) && Runs(s.threads[u], k))
  {
    NatSumPair(s.threads, t, u, ClaimOf(k));
    assert Claims(s, k) <= 1;
  }

  /** The code alone does not keep tasks of one serializer apart: thread 1 pushes while thread
      0 runs the last task of the queue, finds the queue empty, and starts a turn of its own.
      Both are inside a task of serializer 0. */
  lemma TurnsOverlap(limit: nat) returns (schedule: seq<Move>)
    requires limit > 1
    ensures var s := Run(Init(1, 2, limit), schedule);
            StateOk(s) && |s.threads| == 2 && Runs(s.threads[0], 0) && Runs(s.threads[1], 0)
  {
    var start, running := Init(1, 2, limit), Thread(Invoking(0, []), Some(0), false);
    schedule := SecondEnters(limit);
    hide Run, StateOk, Valid, Init;
    schedule := Then(start, schedule, (1, Go), [], running, running);
  }

  /** Thread 1 is about to pop a task while thread 0 is inside one. */
  lemma SecondEnters(limit: nat) returns (schedule: seq<Move>)
    requires limit > 1
    ensures Shows(Run(Init(1, 2, limit), schedule), [Task(2, 0, [])],
                  Thread(Invoking(0, []), Some(0), false), Thread(Looping(0), Some(0), false))
  {
    var start, second := Init(1, 2, limit), Task(2, 0, []);
    var running := Thread(Invoking(0, []), Some(0), false);
    schedule := FirstRuns(limit);
    hide Run, StateOk, Valid, Init;
    schedule := Then(start, schedule, (1, Go), [second], running, Thread(Entering(0), None, false));
    schedule := Then(start, schedule, (1, Go), [second], running, Thread(Looping(0), Some(0), false));
  }

  /** Thread 0 runs the only task; thread 1 has pushed another and found the queue empty. */
  lemma FirstRuns(limit: nat) returns (schedule: seq<Move>)
    requires limit > 1
    ensures Shows(Run(Init(1, 2, limit), schedule), [Task(2, 0, [])],
                  Thread(Invoking(0, []), Some(0), false), Thread(Scheduling(0, Outside), None, false))
  {
    var start, second := Init(1, 2, limit), Task(2, 0, []);
    var running := Thread(Invoking(0, []), Some(0), false);
    schedule := FirstStarts(limit);
    hide Run, StateOk, Valid, Init;
    schedule := Then(start, schedule, (1, Submit(second)), [], running, Thread(Pushing(second, Outside), None, false));
    schedule := Then(start, schedule, (1, Atomically), [second], running,
                     Thread(Scheduling(0, Outside), None, false));
  }

  /** Thread 0 runs the only task. */
  lemma FirstStarts(limit: nat) returns (schedule: seq<Move>)
    requires limit > 1
    ensures Shows(Run(Init(1, 2, limit), schedule), [],
                  Thread(Invoking(0, []), Some(0), false), Thread(Idle, None, false))
  {
    var start, first := Init(1, 2, limit), Task(1, 0, []);
    var idle, running := Thread(Idle, None, false), Thread(Invoking(0, []), Some(0), false);
    schedule := FirstEnters(limit);
    hide Run, StateOk, Valid, Init;
    schedule := Then(start, schedule, (0, Go), [first], Thread(Looping(0), Some(0), false), idle);
    schedule := Then(start, schedule, (0, Go), [], running, idle);
  }
}
