/** When two threads run tasks of one serializer: exactly at which step, exactly which runs
    avoid it, and which pushes lead to it. */
module TaskOverlap {
  import opened Sums
  import opened TaskScheduling
  import opened TaskFairness
  import opened TaskMachine
  import opened TaskExclusion
  import opened TaskRuns

  /** No two threads are inside tasks of one serializer. */
  ghost predicate Apart(s: State) {
    forall t, u, k {:trigger Runs(s.threads[t], k), Runs(s.threads[u], k)} ::
      0 <= t < u < |s.threads| ==> !(Runs(s.threads[t], k) && Runs(s.threads[u], k))
  }

  /** Thread `u` and some other thread are inside tasks of serializer `k`. */
  ghost predicate Overlaps(s: State, u: nat, k: nat)
    requires u < |s.threads|
  {
    Runs(s.threads[u], k) && exists t :: 0 <= t < |s.threads| && t != u && Runs(s.threads[t], k)
  }

  // ---- The step --------------------------------------------------------------------------

  /** The step pops a task of a serializer while another thread is inside one of its tasks. */
  ghost predicate PopsBeside(s: State, move: Move)
    requires StateOk(s)
  {
    && move.0 < |s.threads| && s.threads[move.0].pc.Looping?
    && ThreadOk(s.threads[move.0], |s.shared.queues|)
    && var k := s.threads[move.0].current.value;
    && s.shared.queues[k] != []
    && exists t :: 0 <= t < |s.threads| && t != move.0 && Runs(s.threads[t], k)
  }

  /** A step puts its thread inside a task only by popping one. */
  lemma LocalRuns(sh: Schedule, th: Thread, choice: Choice, k: nat)
    requires Valid(sh) && ThreadOk(th, |sh.queues|) && Disciplined(th)
    ensures Runs(LocalStep(sh, th, choice).1, k) && !Runs(th, k)
            <==> th.pc.Looping? && th.current == Some(k) && sh.queues[k] != []
  {
    hide Valid;
  }

  lemma StepRuns(s: State, move: Move, t: nat, k: nat)
    requires StateOk(s) && t < |s.threads|
    ensures t != move.0 ==> Step(s, move).threads[t] == s.threads[t]
    ensures t == move.0 ==>
              (Runs(Step(s, move).threads[t], k) && !Runs(s.threads[t], k)
               <==> s.threads[t].pc.Looping? && s.threads[t].current == Some(k)
                    && k < |s.shared.queues| && s.shared.queues[k] != [])
  {
    assert ThreadOk(s.threads[t], |s.shared.queues|) && Disciplined(s.threads[t]);
    if t == move.0 {
      LocalRuns(s.shared, s.threads[t], move.1, k);
    }
  }

  /** Exactly when two threads come to run one serializer: with the pop of a task while
      another thread is inside a task of the same serializer. */
  lemma OverlapIff(s: State, move: Move)
    requires StateOk(s) && Apart(s)
    ensures Apart(Step(s, move)) <==> !PopsBeside(s, move)
  {
    var r := Step(s, move);
    hide Step, StateOk, Runs;
    if PopsBeside(s, move) {
      var k := s.threads[move.0].current.value;
      var t :| 0 <= t < |s.threads| && t != move.0 && Runs(s.threads[t], k);
      StepRuns(s, move, t, k);
      StepRuns(s, move, move.0, k);
      LoopingRunsNot(s.threads[move.0], k);
      assert Runs(r.threads[t], k) && Runs(r.threads[move.0], k);
    } else {
      forall t, u, k | 0 <= t < u < |s.threads| && Runs(r.threads[t], k)
        ensures !Runs(r.threads[u], k)
      {
        StepRuns(s, move, t, k);
        StepRuns(s, move, u, k);
      }
    }
  }

  lemma LoopingRunsNot(th: Thread, k: nat)
    requires th.pc.Looping?
    ensures !Runs(th, k)
  {
  }

  // ---- Whole runs ------------------------------------------------------------------------

  /** At every point of the run, threads are apart. */
  ghost predicate AlwaysApart(s: State, schedule: seq<Move>)
    requires StateOk(s)
  {
    forall i {:trigger schedule[..i]} :: 0 <= i <= |schedule| ==> Apart(Run(s, schedule[..i]))
  }

  ghost predicate NeverPopsBeside(s: State, schedule: seq<Move>)
    requires StateOk(s)
    decreases |schedule|
  {
    schedule == [] || (!PopsBeside(s, schedule[0]) && NeverPopsBeside(Step(s, schedule[0]), schedule[1..]))
  }

  lemma {:induction false} ApartFrom(s: State, schedule: seq<Move>)
    requires StateOk(s) && Apart(s)
    ensures AlwaysApart(s, schedule) <==> NeverPopsBeside(s, schedule)
    decreases |schedule|
  {
    hide Step, Apart, PopsBeside, StateOk;
    if schedule == [] {
      assert schedule[..0] == [];
    } else {
      var next, rest := Step(s, schedule[0]), schedule[1..];
      OverlapIff(s, schedule[0]);
      AlwaysApartNext(s, schedule);
      if Apart(next) {
        ApartFrom(next, rest);
      }
    }
  }

  lemma AlwaysApartNext(s: State, schedule: seq<Move>)
    requires StateOk(s) && Apart(s) && schedule != []
    ensures AlwaysApart(s, schedule) <==> AlwaysApart(Step(s, schedule[0]), schedule[1..])
    ensures AlwaysApart(s, schedule) ==> Apart(Step(s, schedule[0]))
  {
    hide Step, Apart, StateOk;
    var next, rest := Step(s, schedule[0]), schedule[1..];
    forall i | 0 <= i <= |rest|
      ensures Run(s, schedule[..i + 1]) == Run(next, rest[..i])
    {
      assert schedule[..i + 1][0] == schedule[0] && schedule[..i + 1][1..] == rest[..i];
    }
    if AlwaysApart(s, schedule) {
      assert rest[..0] == [] && Run(next, rest[..0]) == next;
    }
    if AlwaysApart(next, rest) {
      forall i | 0 <= i <= |schedule|
        ensures Apart(Run(s, schedule[..i]))
      {
        if i == 0 {
          assert schedule[..0] == [];
        } else {
          assert schedule[..i] == schedule[..(i - 1) + 1] && Apart(Run(next, rest[..i - 1]));
        }
      }
    }
  }

  lemma InitApart(n: nat, m: nat, limit: nat)
    requires limit > 0
    ensures Apart(Init(n, m, limit)) && Exclusive(Init(n, m, limit))
  {
    var s := Init(n, m, limit);
    forall k | 0 <= k < |s.shared.queues|
      ensures Claims(s, k) <= 1
    {
      NatSumZero(s.threads, ClaimOf(k));
    }
  }

  /** The exact condition, for every run of every number of threads: tasks of one serializer
      are kept apart throughout if and only if no step of the run pops one beside another. */
  lemma RunApartIff(n: nat, m: nat, limit: nat, schedule: seq<Move>)
    requires limit > 0
    ensures AlwaysApart(Init(n, m, limit), schedule) <==> NeverPopsBeside(Init(n, m, limit), schedule)
  {
    InitApart(n, m, limit);
    ApartFrom(Init(n, m, limit), schedule);
  }

  /** No step of the run schedules a serializer anew while it is claimed. */
  ghost predicate NeverClaimsTwice(s: State, schedule: seq<Move>)
    requires StateOk(s)
    decreases |schedule|
  {
    schedule == [] || (!ClaimsTwice(s, schedule[0]) && NeverClaimsTwice(Step(s, schedule[0]), schedule[1..]))
  }

  lemma ExclusiveApart(s: State)
    requires StateOk(s) && Exclusive(s)
    ensures Apart(s)
  {
    hide Exclusive;
    forall t, u, k | 0 <= t < u < |s.threads| && Runs(s.threads[t], k)
      ensures !Runs(s.threads[u], k)
    {
      assert ThreadOk(s.threads[t], |s.shared.queues|);
      ExclusiveKeepsApart(s, t, u, k);
    }
  }

  lemma {:induction false} RunExclusive(s: State, schedule: seq<Move>)
    requires StateOk(s) && Exclusive(s) && NeverClaimsTwice(s, schedule)
    ensures AlwaysApart(s, schedule) && Exclusive(Run(s, schedule))
    decreases |schedule|
  {
    hide Step, Apart, StateOk, Exclusive, ClaimsTwice;
    ExclusiveApart(s);
    if schedule == [] {
      assert forall i | 0 <= i <= |schedule| :: schedule[..i] == [];
    } else {
      ExclusiveIff(s, schedule[0]);
      RunExclusive(Step(s, schedule[0]), schedule[1..]);
      AlwaysApartNext(s, schedule);
    }
  }

  /** A rule for callers that is enough: as long as no push finds the queue of a claimed
      serializer empty, tasks of one serializer are kept apart in the whole run. */
  lemma ClaimedOnceKeepsApart(n: nat, m: nat, limit: nat, schedule: seq<Move>)
    requires limit > 0 && NeverClaimsTwice(Init(n, m, limit), schedule)
    ensures AlwaysApart(Init(n, m, limit), schedule)
  {
    InitApart(n, m, limit);
    RunExclusive(Init(n, m, limit), schedule);
  }

  // ---- The pushes that lead to it --------------------------------------------------------

  lemma AloneLeavesOthers(s: State, schedule: seq<Move>, sh: Schedule, th: Thread, u: nat, k: nat)
    requires Came(s, u, schedule, sh, th)
    ensures Overlaps(Run(s, schedule), u, k)
            <==> Runs(th, k) && exists t :: 0 <= t < |s.threads| && t != u && Runs(s.threads[t], k)
  {
    var r := Run(s, schedule);
    assert r.threads[u] == th;
    assert forall t | 0 <= t < |s.threads| && t != u :: r.threads[t] == s.threads[t];
  }

  /** The moves of a push from outside any task, to the first task of the turn it starts. */
  function PushMoves(u: nat): seq<Move> {
    [(u, Atomically), (u, Go), (u, Go), (u, Go)]
  }

  /** A push from outside any task makes its thread run beside another, if no third thread
      moves, exactly when it finds the queue empty while another thread is inside a task of
      the serializer. */
  lemma PushOverlapsIff(s: State, u: nat, task: Task)
    requires StateOk(s) && u < |s.threads| && s.threads[u].pc == Pushing(task, Outside)
    requires task.target < |s.shared.queues|
    ensures Overlaps(Run(s, PushMoves(u)), u, task.target)
            <==> s.shared.queues[task.target] == []
                 && exists t :: 0 <= t < |s.threads| && t != u && Runs(s.threads[t], task.target)
  {
    Nothing(s, u);
    hide Came, StateOk, Overlaps, Run, Runs;
    var sh, th := PushEnters(s, u, task);
    AloneLeavesOthers(s, PushMoves(u), sh, th, u, task.target);
  }

  lemma PushEnters(s: State, u: nat, task: Task) returns (sh': Schedule, th: Thread)
    requires StateOk(s) && u < |s.threads| && s.threads[u].pc == Pushing(task, Outside)
    requires task.target < |s.shared.queues|
    ensures Came(s, u, PushMoves(u), sh', th)
    ensures Runs(th, task.target) <==> s.shared.queues[task.target] == []
  {
    var k, sh := task.target, Enqueue(s.shared, task);
    assert Disciplined(s.threads[u]);
    Nothing(s, u);
    hide Came, StateOk, Valid, Run, TargetsAll, Runs;
    CameOk(s, u, [], s.shared, s.threads[u]);
    var after := On(s, u, [], s.shared, s.threads[u], Atomically);
    if s.shared.queues[k] == [] {
      var scheduling := Thread(Scheduling(k, Outside), None, false);
      CameOk(s, u, after, sh, scheduling);
      after := On(s, u, after, sh, scheduling, Go);
      after, sh', th := Enters(s, u, after, sh, k);
    } else {
      after := Stays(s, u, after, sh);
      sh', th := sh, Resting();
      RestingRunsNothing(k);
    }
    assert after == PushMoves(u);
  }

  lemma RestingRunsNothing(k: nat)
    ensures !Runs(Resting(), k)
  {
  }

  /** From the entry of a turn to its first task, if there is one. */
  lemma Enters(s: State, u: nat, before: seq<Move>, sh: Schedule, k: nat)
    returns (after: seq<Move>, sh': Schedule, th: Thread)
    requires Came(s, u, before, sh, Thread(Entering(k), None, false)) && k < |sh.queues|
    ensures after == before + [(u, Go), (u, Go)] && Came(s, u, after, sh', th)
    ensures Runs(th, k) <==> sh.queues[k] != []
  {
    hide Came, StateOk, Valid;
    CameOk(s, u, before, sh, Thread(Entering(k), None, false));
    after := On(s, u, before, sh, Thread(Entering(k), None, false), Go);
    var looping := Thread(Looping(0), Some(k), false);
    CameOk(s, u, after, sh, looping);
    var (next, inside) := LocalStep(sh, looping, Go);
    sh', th := next, inside;
    after := On(s, u, after, sh, looping, Go);
  }

  lemma Stays(s: State, u: nat, before: seq<Move>, sh: Schedule) returns (after: seq<Move>)
    requires Came(s, u, before, sh, Resting())
    ensures after == before + [(u, Go), (u, Go), (u, Go)] && Came(s, u, after, sh, Resting())
  {
    hide Came, StateOk, Valid;
    CameOk(s, u, before, sh, Resting());
    after := On(s, u, before, sh, Resting(), Go);
    after := On(s, u, after, sh, Resting(), Go);
    after := On(s, u, after, sh, Resting(), Go);
  }

  /** The moves of a poll, to the first task of the turn it starts. */
  function PollMoves(u: nat): seq<Move> {
    [(u, Poll), (u, Go), (u, Go)]
  }

  /** A worker that takes the first entry of the ready queue, `k`, comes to run beside another
      exactly when `k` has tasks while another thread is inside one of its tasks: an entry can
      be stale, or the serializer's own task can have added it. */
  lemma PollOverlapsIff(s: State, u: nat, k: nat)
    requires StateOk(s) && u < |s.threads| && s.threads[u].pc == Idle
    requires s.shared.ready != [] && s.shared.ready[0] == k && k < |s.shared.queues|
    ensures Overlaps(Run(s, PollMoves(u)), u, k)
            <==> s.shared.queues[k] != []
                 && exists t :: 0 <= t < |s.threads| && t != u && Runs(s.threads[t], k)
  {
    Nothing(s, u);
    hide Came, StateOk, Overlaps, Run, Runs;
    var sh, th := PollEnters(s, u, k);
    AloneLeavesOthers(s, PollMoves(u), sh, th, u, k);
  }

  lemma PollEnters(s: State, u: nat, k: nat) returns (sh': Schedule, th: Thread)
    requires StateOk(s) && u < |s.threads| && s.threads[u].pc == Idle
    requires s.shared.ready != [] && s.shared.ready[0] == k && k < |s.shared.queues|
    ensures Came(s, u, PollMoves(u), sh', th)
    ensures Runs(th, k) <==> s.shared.queues[k] != []
  {
    assert Disciplined(s.threads[u]);
    Nothing(s, u);
    hide Came, StateOk, Valid, Run, TargetsAll, Runs;
    CameOk(s, u, [], s.shared, Resting());
    var after := On(s, u, [], s.shared, Resting(), Poll);
    after, sh', th := Enters(s, u, after, s.shared.(ready := s.shared.ready[1..]), k);
    assert after == PollMoves(u);
  }

  /** While a worker calls its way to the entry of `k`, the queue of `k` only grows. */
  lemma {:induction false} WaitingQueueGrows(s: Schedule, k: nat, p: nat)
    requires Valid(s) && p <= |s.ready| && k !in s.ready[..p] && k < |s.queues|
    ensures s.queues[k] <= WorkerCalls(s, p).queues[k]
  {
    if p == 0 {
    } else {
      hide Valid, WorkerCall;
      var before := WorkerCalls(s, p - 1);
      assert s.ready[p - 1] in s.ready[..p] && s.ready[..p - 1] <= s.ready[..p];
      WaitingQueueGrows(s, k, p - 1);
      EntryWaits(s, p - 1);
      WorkerCallAdvances(before);
      PrefixOfPrefix(s.queues[k], before.queues[k], WorkerCall(before).queues[k]);
    }
  }

  /** An entry of a serializer that has tasks while thread `t` is inside one of them leads to an
      overlap, wherever it is in the ready queue: an idle worker alone gets there. */
  lemma EntryLeadsToOverlap(s: State, u: nat, t: nat, k: nat, p: nat) returns (schedule: seq<Move>)
    requires StateOk(s) && u < |s.threads| && s.threads[u].pc == Idle
    requires p < |s.shared.ready| && s.shared.ready[p] == k && k !in s.shared.ready[..p]
    requires k < |s.shared.queues| && s.shared.queues[k] != []
    requires t < |s.threads| && t != u && Runs(s.threads[t], k)
    ensures Alone(schedule, u) && Overlaps(Run(s, schedule), u, k)
  {
    hide Run, StateOk, Valid, WorkerCalls, Runs, Alone;
    SharedIsValid(s);
    var calls := WorkerCallsAreARun(s, u, p);
    var r := Run(s, calls);
    EntryWaits(s.shared, p);
    WaitingQueueGrows(s.shared, k, p);
    PollOverlapsIff(r, u, k);
    schedule := calls + PollMoves(u);
    RunAppend(s, calls, PollMoves(u));
    PollsAlone(u);
    AloneAppend(calls, PollMoves(u), u);
  }

  lemma PollsAlone(u: nat)
    ensures Alone(PollMoves(u), u)
  {
  }

  lemma {:induction false} FirstEntry(ready: seq<nat>, k: nat) returns (p: nat)
    requires k in ready
    ensures p < |ready| && ready[p] == k && k !in ready[..p]
  {
    if ready[0] == k {
      p := 0;
    } else {
      var q := FirstEntry(ready[1..], k);
      p := q + 1;
      assert ready[..p] == [ready[0]] + ready[1..][..q];
    }
  }

  /** Pushing to oneself is enough: when a task pushes to its own serializer and finds its
      queue empty, an idle worker can start the pushed task before the pushing one returns. */
  lemma SelfPushLeadsToOverlap(s: State, t: nat, u: nat, task: Task, frame: Frame) returns (schedule: seq<Move>)
    requires StateOk(s) && t < |s.threads| && u < |s.threads| && t != u && s.threads[u].pc == Idle
    requires s.threads[t].pc == Pushing(task, frame) && s.threads[t].current == Some(task.target)
    requires task.target < |s.shared.queues| && s.shared.queues[task.target] == []
    ensures Overlaps(Run(s, schedule), u, task.target)
  {
    var k := task.target;
    var first := SelfPush(s, t, task, frame);
    var r := Run(s, first);
    var p := FirstEntry(r.shared.ready, k);
    hide Run, StateOk;
    var rest := EntryLeadsToOverlap(r, u, t, k, p);
    schedule := first + rest;
    RunAppend(s, first, rest);
  }

  lemma SelfPush(s: State, t: nat, task: Task, frame: Frame) returns (schedule: seq<Move>)
    requires StateOk(s) && t < |s.threads|
    requires s.threads[t].pc == Pushing(task, frame) && s.threads[t].current == Some(task.target)
    requires task.target < |s.shared.queues| && s.shared.queues[task.target] == []
    ensures var r := Run(s, schedule);
            && r.shared.queues[task.target] != [] && task.target in r.shared.ready
            && Runs(r.threads[t], task.target)
            && forall u :: 0 <= u < |s.threads| && u != t ==> r.threads[u] == s.threads[u]
  {
    var k, sh := task.target, Enqueue(s.shared, task);
    assert Disciplined(s.threads[t]);
    Nothing(s, t);
    hide StateOk, Valid, TargetsAll;
    schedule := On(s, t, [], s.shared, s.threads[t], Atomically);
    var scheduling := Thread(Scheduling(k, frame), Some(k), false);
    schedule := On(s, t, schedule, sh, scheduling, Go);
    assert sh.queues[k] == [task];
  }
}
