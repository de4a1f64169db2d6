/** A push that finds the queue of a claimed serializer empty is what opens the way to an
    overlap: with enough idle threads one can follow without any further such push, and without
    one none can. */
module TaskDoubleClaim {
  import opened Sums
  import opened TaskScheduling
  import opened TaskMachine
  import opened TaskInterleaving
  import opened TaskExclusion
  import opened TaskOverlap
  import opened TaskRuns

  /** The thread is inside a task of serializer `k`, or about to pop one. */
  function Runner(th: Thread, k: nat): nat {
    if th.current == Some(k) && (th.pc.Looping? || InTask(th.pc)) then 1 else 0
  }

  function RunnerOf(k: nat): Thread -> nat {
    (th: Thread) => Runner(th, k)
  }

  function Runners(s: State, k: nat): nat {
    NatSum(s.threads, RunnerOf(k))
  }

  function IsIdle(th: Thread): nat {
    if th.pc == Idle then 1 else 0
  }

  function Idles(s: State): nat {
    NatSum(s.threads, IsIdle)
  }

  // ---- Schedules without a double claim ----------------------------------------------------

  lemma {:induction false} NeverAppend(s: State, a: seq<Move>, b: seq<Move>)
    requires StateOk(s) && NeverClaimsTwice(s, a) && NeverClaimsTwice(Run(s, a), b)
    ensures NeverClaimsTwice(s, a + b) && Run(s, a + b) == Run(Run(s, a), b)
    decreases |a|
  {
    hide Step, ClaimsTwice, StateOk;
    if a == [] {
      assert a + b == b;
    } else {
      assert (a + b)[0] == a[0] && (a + b)[1..] == a[1..] + b;
      NeverAppend(Step(s, a[0]), a[1..], b);
    }
  }

  /** A step that pushes nothing claims nothing twice. */
  lemma OneStep(s: State, move: Move)
    requires StateOk(s)
    requires move.0 < |s.threads| ==> !s.threads[move.0].pc.Pushing? && !s.threads[move.0].pc.Tested?
    ensures NeverClaimsTwice(s, [move]) && Run(s, [move]) == Step(s, move)
  {
    hide Step;
    assert [move][1..] == [];
    assert Run(Step(s, move), []) == Step(s, move);
  }

  /** Thread `t` goes on alone. */
  lemma GoesOn(s: State, t: nat)
    requires StateOk(s) && t < |s.threads|
    requires !s.threads[t].pc.Idle? && !s.threads[t].pc.Pushing? && !s.threads[t].pc.Tested?
    ensures ThreadOk(s.threads[t], |s.shared.queues|) && Disciplined(s.threads[t])
    ensures var (sh, th) := LocalStep(s.shared, s.threads[t], Go);
            Step(s, (t, Go)) == State(sh, s.threads[t := th], s.submitted)
  {
    assert ThreadOk(s.threads[t], |s.shared.queues|) && Disciplined(s.threads[t]);
    hide Valid;
  }

  // ---- A claim becomes a runner or a ready entry -------------------------------------------

  /** What a run may have changed: thread `v`, and the end of the ready queue. */
  ghost predicate Settled(s: State, r: State, v: nat) {
    && StateOk(r) && |r.threads| == |s.threads| && v < |s.threads|
    && r.threads == s.threads[v := r.threads[v]]
    && r.shared == s.shared.(ready := r.shared.ready)
    && s.shared.ready <= r.shared.ready && |r.shared.ready| <= |s.shared.ready| + 1
  }

  ghost predicate KeepsClaims(s: State, r: State, v: nat, k: nat)
    requires v < |s.threads| == |r.threads|
  {
    Runner(r.threads[v], k) + Count(r.shared.ready, k) >= Claim(s.threads[v], k) + Count(s.shared.ready, k)
  }

  lemma Settle(s: State, k: nat, v: nat) returns (schedule: seq<Move>)
    requires StateOk(s) && k < |s.shared.queues| && s.shared.queues[k] != []
    requires v < |s.threads| && Claim(s.threads[v], k) > 0
    ensures NeverClaimsTwice(s, schedule)
    ensures var r := Run(s, schedule); Settled(s, r, v) && KeepsClaims(s, r, v, k)
  {
    var th := s.threads[v];
    assert Disciplined(th);
    match th.pc {
      case Scheduling(j, frame) =>
        if j == k && frame.Outside? {
          schedule := SettleOutside(s, k, v);
        } else if j == k {
          schedule := SettleInside(s, k, v);
        } else {
          schedule := SettleNothing(s, k, v);
        }
      case Entering(j) => schedule := SettleEntering(s, k, v);
      case Checking => schedule := SettleChecking(s, k, v);
      case Requeuing => schedule := SettleRequeuing(s, k, v);
      case _ => schedule := SettleNothing(s, k, v);
    }
  }

  lemma SettleNothing(s: State, k: nat, v: nat) returns (schedule: seq<Move>)
    requires StateOk(s) && v < |s.threads| && Claim(s.threads[v], k) == Runner(s.threads[v], k)
    ensures NeverClaimsTwice(s, schedule)
    ensures var r := Run(s, schedule); Settled(s, r, v) && KeepsClaims(s, r, v, k)
  {
    schedule := [];
    assert s.threads[v := s.threads[v]] == s.threads;
  }

  lemma SettleEntering(s: State, k: nat, v: nat) returns (schedule: seq<Move>)
    requires StateOk(s) && v < |s.threads| && s.threads[v].pc.Entering? && Claim(s.threads[v], k) > 0
    ensures NeverClaimsTwice(s, schedule)
    ensures var r := Run(s, schedule); Settled(s, r, v) && KeepsClaims(s, r, v, k)
  {
    schedule := [(v, Go)];
    OneStep(s, (v, Go));
    GoesOn(s, v);
    hide Step, StateOk, Run, NeverClaimsTwice, Valid;
  }

  lemma SettleOutside(s: State, k: nat, v: nat) returns (schedule: seq<Move>)
    requires StateOk(s) && v < |s.threads| && s.threads[v].pc == Scheduling(k, Outside)
    ensures NeverClaimsTwice(s, schedule)
    ensures var r := Run(s, schedule); Settled(s, r, v) && KeepsClaims(s, r, v, k)
  {
    OneStep(s, (v, Go));
    GoesOn(s, v);
    hide Step, StateOk, Run, NeverClaimsTwice, Valid;
    var next := Step(s, (v, Go));
    var rest := SettleEntering(next, k, v);
    schedule := [(v, Go)] + rest;
    NeverAppend(s, [(v, Go)], rest);
    assert s.threads[v := next.threads[v]][v := Run(s, schedule).threads[v]]
        == s.threads[v := Run(s, schedule).threads[v]];
  }

  lemma SettleInside(s: State, k: nat, v: nat) returns (schedule: seq<Move>)
    requires StateOk(s) && v < |s.threads| && s.threads[v].pc.Scheduling?
    requires s.threads[v].pc.serializer == k && s.threads[v].pc.frame.Inside?
    ensures NeverClaimsTwice(s, schedule)
    ensures var r := Run(s, schedule); Settled(s, r, v) && KeepsClaims(s, r, v, k)
  {
    schedule := [(v, Go)];
    OneStep(s, (v, Go));
    GoesOn(s, v);
    CountPush<nat>(s.shared.ready, k, k);
    hide Step, StateOk, Run, NeverClaimsTwice, Valid;
  }

  lemma SettleRequeuing(s: State, k: nat, v: nat) returns (schedule: seq<Move>)
    requires StateOk(s) && v < |s.threads| && s.threads[v].pc.Requeuing? && s.threads[v].current == Some(k)
    ensures NeverClaimsTwice(s, schedule)
    ensures var r := Run(s, schedule); Settled(s, r, v) && KeepsClaims(s, r, v, k)
  {
    schedule := [(v, Go)];
    OneStep(s, (v, Go));
    GoesOn(s, v);
    CountPush<nat>(s.shared.ready, k, k);
    hide Step, StateOk, Run, NeverClaimsTwice, Valid;
  }

  lemma SettleChecking(s: State, k: nat, v: nat) returns (schedule: seq<Move>)
    requires StateOk(s) && v < |s.threads| && s.threads[v].pc.Checking? && s.threads[v].current == Some(k)
    requires k < |s.shared.queues| && s.shared.queues[k] != []
    ensures NeverClaimsTwice(s, schedule)
    ensures var r := Run(s, schedule); Settled(s, r, v) && KeepsClaims(s, r, v, k)
  {
    OneStep(s, (v, Go));
    GoesOn(s, v);
    hide Step, StateOk, Run, NeverClaimsTwice, Valid;
    var next := Step(s, (v, Go));
    var rest := SettleRequeuing(next, k, v);
    schedule := [(v, Go)] + rest;
    NeverAppend(s, [(v, Go)], rest);
    assert s.threads[v := next.threads[v]][v := Run(s, schedule).threads[v]]
        == s.threads[v := Run(s, schedule).threads[v]];
  }

  // ---- One task more -----------------------------------------------------------------------

  lemma {:induction false} SomeElement<A>(xs: seq<A>, f: A -> nat) returns (i: nat)
    requires NatSum(xs, f) > 0
    ensures i < |xs| && f(xs[i]) > 0
  {
    if f(xs[0]) > 0 {
      i := 0;
    } else {
      i := SomeElement(xs[1..], f);
      i := i + 1;
    }
  }

  /** An idle thread submits a task to a serializer that has some: it stays idle. */
  lemma AddTask(s: State, k: nat, w: nat) returns (schedule: seq<Move>)
    requires StateOk(s) && k < |s.shared.queues| && s.shared.queues[k] != []
    requires w < |s.threads| && s.threads[w].pc == Idle
    ensures NeverClaimsTwice(s, schedule)
    ensures var r := Run(s, schedule);
            && StateOk(r) && r.threads == s.threads && r.shared.ready == s.shared.ready
            && |r.shared.queues| == |s.shared.queues| && |r.shared.queues[k]| == |s.shared.queues[k]| + 1
  {
    var task := Task(0, k, []);
    var submit, push := (w, Submit(task)), (w, Atomically);
    var first, second := Step(s, submit), Step(Step(s, submit), push);
    assert Disciplined(s.threads[w]) && Targets(task, |s.shared.queues|);
    assert first.threads[w] == Thread(Pushing(task, Outside), None, false) && first.shared == s.shared;
    assert second.threads[w] == s.threads[w] && second.shared == Enqueue(s.shared, task);
    assert second.threads == s.threads;
    hide Step, StateOk, Valid;
    schedule := [submit, push];
    assert schedule[1..] == [push];
    assert |schedule[1..][1..]| == 0;
    assert Run(s, schedule) == Run(first, [push]) == Run(second, []) == second;
    assert !ClaimsTwice(s, submit) && !ClaimsTwice(first, push);
    assert NeverClaimsTwice(second, []) && NeverClaimsTwice(first, [push]);
  }

  // ---- Taking all ready entries ------------------------------------------------------------

  /** An idle worker takes the first entry and stops before its first pop. */
  lemma PollOne(s: State, k: nat, w: nat) returns (schedule: seq<Move>)
    requires StateOk(s) && s.shared.ready != [] && w < |s.threads| && s.threads[w].pc == Idle
    ensures NeverClaimsTwice(s, schedule)
    ensures var r := Run(s, schedule);
            && StateOk(r) && |r.threads| == |s.threads|
            && r.threads == s.threads[w := r.threads[w]]
            && r.shared == s.shared.(ready := s.shared.ready[1..])
            && IsIdle(r.threads[w]) == 0
            && Runner(r.threads[w], k) == (if s.shared.ready[0] == k then 1 else 0)
  {
    var poll := (w, Poll);
    var next := Step(s, poll);
    OneStep(s, poll);
    assert Disciplined(s.threads[w]) && ThreadOk(s.threads[w], |s.shared.queues|);
    assert next.threads[w] == Thread(Entering(s.shared.ready[0]), None, false);
    assert next.threads == s.threads[w := next.threads[w]] && next.shared == s.shared.(ready := s.shared.ready[1..]);
    OneStep(next, (w, Go));
    GoesOn(next, w);
    hide Step, StateOk, Run, NeverClaimsTwice, Valid;
    schedule := [poll] + [(w, Go)];
    NeverAppend(s, [poll], [(w, Go)]);
    assert s.threads[w := next.threads[w]][w := Run(s, schedule).threads[w]]
        == s.threads[w := Run(s, schedule).threads[w]];
  }

  lemma {:induction false} PollAll(s: State, k: nat) returns (schedule: seq<Move>)
    requires StateOk(s) && Idles(s) >= |s.shared.ready|
    ensures NeverClaimsTwice(s, schedule)
    ensures var r := Run(s, schedule);
            && StateOk(r) && |r.threads| == |s.threads| && r.shared.queues == s.shared.queues
            && Runners(r, k) >= Runners(s, k) + Count(s.shared.ready, k)
    decreases |s.shared.ready|
  {
    if s.shared.ready == [] {
      schedule := [];
    } else {
      var w := SomeElement(s.threads, IsIdle);
      schedule := PollOne(s, k, w);
      var r := Run(s, schedule);
      NatSumUpdate(s.threads, w, r.threads[w], IsIdle);
      NatSumUpdate(s.threads, w, r.threads[w], RunnerOf(k));
      IdleRunsNothing(s.threads[w], k);
      hide Run, StateOk, NeverClaimsTwice, Runner, IsIdle;
      var rest := PollAll(r, k);
      NeverAppend(s, schedule, rest);
      schedule := schedule + rest;
    }
  }

  lemma IdleRunsNothing(th: Thread, k: nat)
    requires th.pc == Idle
    ensures Runner(th, k) == 0
  {
  }

  // ---- Two runners overlap -----------------------------------------------------------------

  lemma {:induction false} TwoElements<A>(xs: seq<A>, f: A -> nat) returns (i: nat, j: nat)
    requires NatSum(xs, f) >= 2 && forall x <- xs :: f(x) <= 1
    ensures i < j < |xs| && f(xs[i]) > 0 && f(xs[j]) > 0
  {
    if f(xs[0]) > 0 {
      i := 0;
      j := SomeElement(xs[1..], f);
      j := j + 1;
    } else {
      i, j := TwoElements(xs[1..], f);
      i, j := i + 1, j + 1;
    }
  }

  /** A runner pops a task unless it is inside one already. */
  lemma GetsInside(s: State, k: nat, t: nat) returns (schedule: seq<Move>)
    requires StateOk(s) && k < |s.shared.queues| && s.shared.queues[k] != []
    requires t < |s.threads| && Runner(s.threads[t], k) == 1
    ensures NeverClaimsTwice(s, schedule)
    ensures var r := Run(s, schedule);
            && StateOk(r) && |r.threads| == |s.threads| && Runs(r.threads[t], k)
            && (forall u :: 0 <= u < |s.threads| && u != t ==> r.threads[u] == s.threads[u])
            && |r.shared.queues| == |s.shared.queues| && |r.shared.queues[k]| >= |s.shared.queues[k]| - 1
  {
    if s.threads[t].pc.Looping? {
      schedule := [(t, Go)];
      OneStep(s, (t, Go));
      GoesOn(s, t);
      hide Step, StateOk, Run, NeverClaimsTwice, Valid;
    } else {
      schedule := [];
    }
  }

  lemma RunnersOverlap(s: State, k: nat) returns (schedule: seq<Move>)
    requires StateOk(s) && k < |s.shared.queues| && |s.shared.queues[k]| >= 2 && Runners(s, k) >= 2
    ensures NeverClaimsTwice(s, schedule) && !Apart(Run(s, schedule))
  {
    var x, y := TwoElements(s.threads, RunnerOf(k));
    hide StateOk, Run, NeverClaimsTwice;
    var first := GetsInside(s, k, x);
    var r := Run(s, first);
    var second := GetsInside(r, k, y);
    schedule := first + second;
    NeverAppend(s, first, second);
    var end := Run(s, schedule);
    assert Runs(end.threads[x], k) && Runs(end.threads[y], k);
  }

  // ---- From a double claim to an overlap ---------------------------------------------------

  lemma SettleKeeps(s: State, r: State, v: nat, k: nat)
    requires Settled(s, r, v) && Claim(s.threads[v], k) > 0
    requires ThreadOk(s.threads[v], |s.shared.queues|) && Disciplined(s.threads[v])
    ensures Idles(r) >= Idles(s)
    ensures r.shared.queues == s.shared.queues
  {
    NatSumUpdate(s.threads, v, r.threads[v], IsIdle);
  }

  lemma AnotherClaim(s: State, k: nat, u: nat) returns (v: nat)
    requires u < |s.threads| && Claims(s, k) >= 2 && Count(s.shared.ready, k) + Claim(s.threads[u], k) < 2
    ensures v < |s.threads| && v != u && Claim(s.threads[v], k) > 0
  {
    if forall v :: 0 <= v < |s.threads| && v != u ==> ClaimOf(k)(s.threads[v]) == 0 {
      NatSumOnly(s.threads, u, ClaimOf(k));
      assert false;
    }
    v :| 0 <= v < |s.threads| && v != u && ClaimOf(k)(s.threads[v]) != 0;
  }

  /** All claims that count have become runners or ready entries. */
  lemma SettleTwo(s: State, k: nat, u: nat) returns (schedule: seq<Move>)
    requires StateOk(s) && k < |s.shared.queues| && s.shared.queues[k] != []
    requires u < |s.threads| && Claim(s.threads[u], k) > 0 && Claims(s, k) >= 2
    ensures NeverClaimsTwice(s, schedule)
    ensures var r := Run(s, schedule);
            && StateOk(r) && |r.threads| == |s.threads| && r.shared.queues == s.shared.queues
            && |r.shared.ready| <= |s.shared.ready| + 2 && Idles(r) >= Idles(s)
            && Runners(r, k) + Count(r.shared.ready, k) >= 2
  {
    assert ThreadOk(s.threads[u], |s.shared.queues|) && Disciplined(s.threads[u]);
    schedule := Settle(s, k, u);
    var r := Run(s, schedule);
    SettleKeeps(s, r, u, k);
    NatSumMember(r.threads, u, RunnerOf(k));
    if Count(s.shared.ready, k) + Claim(s.threads[u], k) < 2 {
      var v := AnotherClaim(s, k, u);
      assert ThreadOk(r.threads[v], |r.shared.queues|) && Disciplined(r.threads[v]);
      hide Run, NeverClaimsTwice, StateOk, Claim, Runner, Claims;
      var rest := Settle(r, k, v);
      var q := Run(r, rest);
      SettleKeeps(r, q, v, k);
      NatSumPair(q.threads, if u < v then u else v, if u < v then v else u, RunnerOf(k));
      NeverAppend(s, schedule, rest);
      schedule := schedule + rest;
    }
  }

  /** From two claims on a serializer that has tasks, an overlap can follow. */
  lemma ClaimsLeadToOverlap(s: State, k: nat, u: nat) returns (schedule: seq<Move>)
    requires StateOk(s) && k < |s.shared.queues| && s.shared.queues[k] != []
    requires u < |s.threads| && Claim(s.threads[u], k) > 0 && Claims(s, k) >= 2
    requires Idles(s) >= |s.shared.ready| + 2
    ensures NeverClaimsTwice(s, schedule) && !Apart(Run(s, schedule))
  {
    var w := SomeElement(s.threads, IsIdle);
    hide Run, NeverClaimsTwice, StateOk, Claim, Runner, Apart;
    var added := AddTask(s, k, w);
    var s1 := Run(s, added);
    var settled := SettleTwo(s1, k, u);
    var s2 := Run(s1, settled);
    var polled := PollAll(s2, k);
    var s3 := Run(s2, polled);
    var last := RunnersOverlap(s3, k);
    NeverAppend(s2, polled, last);
    NeverAppend(s1, settled, polled + last);
    NeverAppend(s, added, settled + (polled + last));
    schedule := added + (settled + (polled + last));
  }

  /** After a push that claims twice: its thread is about to schedule the serializer, which has
      a task and two claims. */
  lemma AfterDoubleClaim(s: State, move: Move)
    requires StateOk(s) && ClaimsTwice(s, move)
    ensures var r, k := Step(s, move), s.threads[move.0].pc.task.target;
            && k < |r.shared.queues| && r.shared.queues[k] != [] && r.shared.ready == s.shared.ready
            && Claim(r.threads[move.0], k) > 0 && Claims(r, k) >= 2 && Idles(r) == Idles(s)
  {
    var r, th := Step(s, move), s.threads[move.0];
    assert ThreadOk(th, |s.shared.queues|) && Disciplined(th);
    StepClaims(s, move, th.pc.task.target);
    NatSumUpdate(s.threads, move.0, r.threads[move.0], IsIdle);
  }

  /** Exactly the pushes that open the way: as long as claims are exclusive and enough threads
      are idle, a step finds the queue of a claimed serializer empty if and only if some
      continuation, with no further push of this kind, ends with two threads inside tasks of one
      serializer. */
  lemma DoubleClaimIff(s: State, move: Move)
    requires StateOk(s) && Exclusive(s) && Idles(s) >= |s.shared.ready| + 2
    ensures ClaimsTwice(s, move)
            <==> exists schedule ::
                   NeverClaimsTwice(Step(s, move), schedule) && !Apart(Run(Step(s, move), schedule))
  {
    var r := Step(s, move);
    if ClaimsTwice(s, move) {
      AfterDoubleClaim(s, move);
      hide Step, Run, StateOk, NeverClaimsTwice, Claim, Claims, Apart;
      var schedule := ClaimsLeadToOverlap(r, s.threads[move.0].pc.task.target, move.0);
    } else {
      ExclusiveIff(s, move);
      hide Step, Run, StateOk, Exclusive, Apart;
      forall schedule | NeverClaimsTwice(r, schedule)
        ensures Apart(Run(r, schedule))
      {
        RunExclusive(r, schedule);
        assert schedule[..|schedule|] == schedule;
      }
    }
  }
}
