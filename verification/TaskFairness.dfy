/** What the scheduler guarantees on one worker: it terminates, runs every task exactly once
    and in push order, and lets no serializer and no task wait longer than it says. */
module TaskFairness {
  import opened Sums
  import opened TaskScheduling

  // ---- Counting tasks --------------------------------------------------------------------

  /** How many tasks of the tree `task` carry the identity `id`. */
  function Nodes(task: Task, id: nat): nat {
    (if task.id == id then 1 else 0) + NodesAll(task.pushes, id)
  }

  function NodesAll(tasks: seq<Task>, id: nat): nat {
    if tasks == [] then 0 else Nodes(tasks[0], id) + NodesAll(tasks[1..], id)
  }

  /** How many tasks a tree has. */
  function Size(task: Task): nat {
    1 + SizeAll(task.pushes)
  }

  function SizeAll(tasks: seq<Task>): nat {
    if tasks == [] then 0 else Size(tasks[0]) + SizeAll(tasks[1..])
  }

  function StartedNodes(tasks: seq<Task>, id: nat): nat {
    if tasks == [] then 0 else (if tasks[0].id == id then 1 else 0) + StartedNodes(tasks[1..], id)
  }

  function PendingOf(id: nat): seq<Task> -> nat {
    (queue: seq<Task>) => NodesAll(queue, id)
  }

  function StartedOf(id: nat): seq<Task> -> nat {
    (tasks: seq<Task>) => StartedNodes(tasks, id)
  }

  /** Tasks that have not run, the ones still to be pushed by them included. */
  function Pending(s: Schedule): nat {
    NatSum(s.queues, SizeAll)
  }

  /** How often the identity `id` has run or is still to run. */
  function Occurrences(s: Schedule, id: nat): nat {
    NatSum(s.queues, PendingOf(id)) + NatSum(s.started, StartedOf(id))
  }

  lemma {:induction false} QueueAppend(queue: seq<Task>, task: Task, id: nat)
    ensures SizeAll(queue + [task]) == SizeAll(queue) + Size(task)
    ensures NodesAll(queue + [task], id) == NodesAll(queue, id) + Nodes(task, id)
    ensures StartedNodes(queue + [task], id) == StartedNodes(queue, id) + (if task.id == id then 1 else 0)
  {
    if queue != [] {
      assert (queue + [task])[1..] == queue[1..] + [task];
      QueueAppend(queue[1..], task, id);
    } else {
      assert queue + [task] == [task];
      assert [task][1..] == [];
    }
  }

  lemma EnqueueCounts(s: Schedule, task: Task, id: nat)
    requires task.target < |s.queues| == |s.pushed|
    ensures Pending(Enqueue(s, task)) == Pending(s) + Size(task)
    ensures Occurrences(Enqueue(s, task), id) == Occurrences(s, id) + Nodes(task, id)
  {
    var k := task.target;
    QueueAppend(s.queues[k], task, id);
    NatSumUpdate(s.queues, k, s.queues[k] + [task], SizeAll);
    NatSumUpdate(s.queues, k, s.queues[k] + [task], PendingOf(id));
  }

  lemma {:induction false} PushAllCounts(s: Schedule, tasks: seq<Task>, id: nat)
    requires Valid(s) && TargetsAll(tasks, |s.queues|)
    ensures Pending(PushAll(s, tasks)) == Pending(s) + SizeAll(tasks)
    ensures Occurrences(PushAll(s, tasks), id) == Occurrences(s, id) + NodesAll(tasks, id)
    decreases |tasks|
  {
    if tasks == [] {
    } else {
      assert Targets(tasks[0], |s.queues|) && TargetsAll(tasks[1..], |s.queues|);
      EnqueueCounts(s, tasks[0], id);
      PushAllCounts(Push(s, tasks[0]), tasks[1..], id);
    }
  }

  /** Running a task uses up one pending task and moves one occurrence to the started ones. */
  lemma RunFrontCounts(s: Schedule, k: nat, id: nat)
    requires Valid(s) && k < |s.queues| && s.queues[k] != []
    ensures Pending(RunFront(s, k)) + 1 == Pending(s)
    ensures Occurrences(RunFront(s, k), id) == Occurrences(s, id)
  {
    var task := s.queues[k][0];
    QueueAppend(s.started[k], task, id);
    NatSumUpdate(s.queues, k, s.queues[k][1..], SizeAll);
    NatSumUpdate(s.queues, k, s.queues[k][1..], PendingOf(id));
    NatSumUpdate(s.started, k, s.started[k] + [task], StartedOf(id));
    FrontTargets(s, k);
    PushAllCounts(Pop(s, k), task.pushes, id);
  }

  lemma {:induction false} TurnCounts(s: Schedule, k: nat, budget: nat, id: nat)
    requires Valid(s) && k < |s.queues|
    ensures Occurrences(Turn(s, k, budget), id) == Occurrences(s, id)
    ensures Pending(Turn(s, k, budget)) <= Pending(s) <= Pending(Turn(s, k, budget)) + budget
    ensures budget > 0 && s.queues[k] != [] ==> Pending(Turn(s, k, budget)) < Pending(s)
    decreases budget
  {
    if budget > 0 && s.queues[k] != [] {
      RunFrontCounts(s, k, id);
      TurnCounts(RunFront(s, k), k, budget - 1, id);
    }
  }

  /** A call keeps every identity's count, runs at most `limit` tasks, and either runs a task or
      shortens the ready queue. */
  lemma WorkerCallCounts(s: Schedule, id: nat)
    requires Valid(s)
    ensures Occurrences(WorkerCall(s), id) == Occurrences(s, id)
    ensures Pending(WorkerCall(s)) <= Pending(s) <= Pending(WorkerCall(s)) + s.limit
    ensures s.ready != [] ==>
              || Pending(WorkerCall(s)) < Pending(s)
              || (Pending(WorkerCall(s)) == Pending(s) && |WorkerCall(s).ready| < |s.ready|)
  {
    if s.ready != [] {
      TurnCounts(s.(ready := s.ready[1..]), s.ready[0], s.limit, id);
    }
  }

  // ---- No work is forgotten --------------------------------------------------------------

  /** Every serializer with tasks is in the ready queue, `except` aside. */
  ghost predicate Awake(s: Schedule, except: Option<nat>) {
    forall k :: 0 <= k < |s.queues| && s.queues[k] != [] && except != Some(k) ==> k in s.ready
  }

  lemma {:induction false} PushAllAwake(s: Schedule, tasks: seq<Task>, k: nat)
    requires Valid(s) && TargetsAll(tasks, |s.queues|) && Awake(s, Some(k))
    ensures Awake(PushAll(s, tasks), Some(k))
    decreases |tasks|
  {
    if tasks == [] {
    } else {
      assert Targets(tasks[0], |s.queues|) && TargetsAll(tasks[1..], |s.queues|);
      PushAllAwake(Push(s, tasks[0]), tasks[1..], k);
    }
  }

  lemma {:induction false} TurnAwake(s: Schedule, k: nat, budget: nat)
    requires Valid(s) && k < |s.queues| && Awake(s, Some(k))
    ensures Awake(Turn(s, k, budget), Some(k))
    decreases budget
  {
    if budget > 0 && s.queues[k] != [] {
      FrontTargets(s, k);
      PushAllAwake(Pop(s, k), s.queues[k][0].pushes, k);
      TurnAwake(RunFront(s, k), k, budget - 1);
    }
  }

  lemma ProcessAwake(s: Schedule, k: nat)
    requires Valid(s) && k < |s.queues| && Awake(s, Some(k))
    ensures Awake(Process(s, k), None)
  {
    TurnAwake(s, k, s.limit);
  }

  /** No lost wakeup on one worker: calls and submissions keep every serializer that has
      tasks in the ready queue. */
  lemma NothingForgotten(s: Schedule, task: Task)
    requires Valid(s) && Awake(s, None) && Targets(task, |s.queues|)
    ensures Awake(WorkerCall(s), None)
    ensures Awake(Submit(s, task), None)
  {
    if s.ready != [] {
      ProcessAwake(s.(ready := s.ready[1..]), s.ready[0]);
    }
    if s.queues[task.target] == [] {
      assert Valid(Push(s, task));
      ProcessAwake(Enqueue(s, task), task.target);
    }
  }

  // ---- Termination -----------------------------------------------------------------------

  /** Worker calls until the ready queue is empty. They come to an end: each call runs a task
      or drops a stale entry of the ready queue. */
  ghost function Drain(s: Schedule): (r: Schedule)
    requires Valid(s)
    ensures Follows(s, r) && r.ready == []
    decreases Pending(s), |s.ready|
  {
    if s.ready == [] then s
    else
      WorkerCallCounts(s, 0);
      Drain(WorkerCall(s))
  }

  lemma EmptyQueues(s: Schedule, id: nat)
    requires forall k :: 0 <= k < |s.queues| ==> s.queues[k] == []
    ensures Pending(s) == 0 && NatSum(s.queues, PendingOf(id)) == 0
  {
    NatSumZero(s.queues, SizeAll);
    NatSumZero(s.queues, PendingOf(id));
  }

  /** When the worker runs out of ready serializers, every queue is empty, every task has run
      exactly as often as it occurred (once, if it occurred once), and each serializer has
      run what was pushed to it in the order it was pushed. */
  lemma {:induction false} DrainRunsEverything(s: Schedule, id: nat)
    requires Valid(s) && Awake(s, None)
    ensures var end := Drain(s);
            && (forall k :: 0 <= k < |end.queues| ==> end.queues[k] == [] && end.started[k] == end.pushed[k])
            && NatSum(end.started, StartedOf(id)) == Occurrences(s, id)
    decreases Pending(s), |s.ready|
  {
    if s.ready == [] {
      EmptyQueues(s, id);
      forall k | 0 <= k < |s.queues|
        ensures s.started[k] == s.pushed[k]
      {
        assert InOrder(s.started[k], s.queues[k], s.pushed[k]);
      }
    } else {
      WorkerCallCounts(s, id);
      ProcessAwake(s.(ready := s.ready[1..]), s.ready[0]);
      DrainRunsEverything(WorkerCall(s), id);
    }
  }

  // ---- Waiting ---------------------------------------------------------------------------

  /** What is added to the ready queue is added at the back, and serializers other than `k`
      only gain tasks at the back of their queues. */
  ghost predicate Grows(s: Schedule, r: Schedule, k: nat) {
    && |r.queues| == |s.queues| && |r.started| == |s.started|
    && s.ready <= r.ready
    && (forall j :: 0 <= j < |s.queues| && j != k ==> s.queues[j] <= r.queues[j])
    && (forall j :: 0 <= j < |s.started| && j != k ==> r.started[j] == s.started[j])
  }

  lemma {:induction false} PushAllGrows(s: Schedule, tasks: seq<Task>, k: nat)
    requires Valid(s) && TargetsAll(tasks, |s.queues|)
    ensures var r := PushAll(s, tasks);
            && Grows(s, r, k)
            && (k < |s.queues| ==> s.queues[k] <= r.queues[k] && r.started[k] == s.started[k])
    decreases |tasks|
  {
    if tasks == [] {
    } else {
      assert Targets(tasks[0], |s.queues|) && TargetsAll(tasks[1..], |s.queues|);
      PushAllGrows(Push(s, tasks[0]), tasks[1..], k);
    }
  }

  /** One task of `k`: it starts, its queue moves up, and all its pushes go to the back. */
  lemma RunFrontGrows(s: Schedule, k: nat)
    requires Valid(s) && k < |s.queues| && s.queues[k] != []
    ensures var r := RunFront(s, k);
            && Grows(s, r, k)
            && r.started[k] == s.started[k] + [s.queues[k][0]]
            && s.pushed[k] <= r.pushed[k]
  {
    FrontTargets(s, k);
    PushAllGrows(Pop(s, k), s.queues[k][0].pushes, k);
    var r := RunFront(s, k);
    assert InOrder(s.started[k], s.queues[k], s.pushed[k]) && InOrder(r.started[k], r.queues[k], r.pushed[k]);
    assert s.pushed[k] == r.started[k] + s.queues[k][1..];
  }

  lemma GrowsOn(s: Schedule, m: Schedule, r: Schedule, k: nat)
    requires Grows(s, m, k) && Grows(m, r, k)
    ensures Grows(s, r, k)
  {
    forall j | 0 <= j < |s.queues| && j != k
      ensures s.queues[j] <= r.queues[j]
    {
      assert s.queues[j] <= m.queues[j] <= r.queues[j];
    }
  }

  /** A turn of `k` takes tasks off its queue in order: as many as the budget allows or, at
      least, all that were there. */
  lemma {:induction false} TurnGrows(s: Schedule, k: nat, budget: nat)
    requires Valid(s) && k < |s.queues|
    ensures var r := Turn(s, k, budget);
            && Grows(s, r, k)
            && s.started[k] <= r.started[k] && s.pushed[k] <= r.pushed[k]
            && |r.started[k]| <= |s.started[k]| + budget
            && (|r.started[k]| == |s.started[k]| + budget || r.queues[k] == [])
    decreases budget
  {
    if budget > 0 && s.queues[k] != [] {
      var m := RunFront(s, k);
      RunFrontGrows(s, k);
      TurnGrows(m, k, budget - 1);
      GrowsOn(s, m, Turn(m, k, budget - 1), k);
    }
  }

  /** The serializer in front gets its turn; everything behind it moves up by one. */
  lemma WorkerCallAdvances(s: Schedule)
    requires Valid(s) && s.ready != []
    ensures s.ready[1..] <= WorkerCall(s).ready
    ensures Grows(s.(ready := s.ready[1..]), WorkerCall(s), s.ready[0])
  {
    TurnGrows(s.(ready := s.ready[1..]), s.ready[0], s.limit);
  }

  /** Bounded waiting for serializers: the entry at position `p` of the ready queue gets its
      turn on exactly the call after the next `p`, whatever the tasks push; */
  lemma {:induction false} EntryWaits(s: Schedule, p: nat)
    requires Valid(s) && p < |s.ready|
    ensures s.ready[p..] <= WorkerCalls(s, p).ready
    ensures WorkerCalls(s, p).ready[0] == s.ready[p]
  {
    hide WorkerCall, Valid;
    if p == 0 {
    } else {
      var m := WorkerCalls(s, p - 1);
      EntryWaits(s, p - 1);
      WorkerCallAdvances(m);
      TailOfPrefix(s.ready[p - 1..], m.ready);
      assert s.ready[p - 1..][1..] == s.ready[p..];
      PrefixOfPrefix(s.ready[p..], m.ready[1..], WorkerCall(m).ready);
    }
  }

  /** and those calls run at most `limit` tasks each. */
  lemma {:induction false} CallsRunAtMost(s: Schedule, n: nat)
    requires Valid(s)
    ensures Pending(s) <= Pending(WorkerCalls(s, n)) + n * s.limit
  {
    hide WorkerCall, Pending;
    if n == 0 {
    } else {
      CallsRunAtMost(s, n - 1);
      var m := WorkerCalls(s, n - 1);
      WorkerCallCounts(m, 0);
      AddCall(Pending(s), Pending(m), Pending(WorkerCall(m)), n - 1, s.limit);
    }
  }

  lemma AddCall(before: nat, middle: nat, after: nat, n: nat, limit: nat)
    requires before <= middle + n * limit && middle <= after + limit
    ensures before <= after + (n + 1) * limit
  {
    OneMore(n, limit);
  }

  lemma TailOfPrefix<A>(a: seq<A>, b: seq<A>)
    requires a != [] && a <= b
    ensures a[1..] <= b[1..]
  {
  }

  /** How many of the next `n` calls are turns of serializer `k`. */
  function TurnsOf(s: Schedule, k: nat, n: nat): nat
    requires Valid(s)
  {
    if n == 0 then 0
    else TurnsOf(s, k, n - 1) + if IsTurn(WorkerCalls(s, n - 1), k) then 1 else 0
  }

  predicate IsTurn(s: Schedule, k: nat) {
    s.ready != [] && s.ready[0] == k
  }

  /** One call and serializer `k`: its tasks start in queue order, `limit` or all of them if
      it is its turn, none if it is not. */
  lemma WorkerCallStarts(s: Schedule, k: nat)
    requires Valid(s) && k < |s.queues|
    ensures var r := WorkerCall(s);
            && s.pushed[k] <= r.pushed[k] && s.started[k] <= r.started[k]
            && (IsTurn(s, k) ==>
                  || |r.started[k]| == |s.started[k]| + s.limit
                  || |r.started[k]| >= |s.pushed[k]|)
  {
    if s.ready != [] {
      WorkerCallAdvances(s);
      TurnGrows(s.(ready := s.ready[1..]), s.ready[0], s.limit);
      var r := WorkerCall(s);
      assert InOrder(s.started[k], s.queues[k], s.pushed[k]) && InOrder(r.started[k], r.queues[k], r.pushed[k]);
    }
  }

  /** How many tasks of `k` the next `n` calls would run if its queue never ran empty. */
  function StartsDue(s: Schedule, k: nat, n: nat): nat
    requires Valid(s)
  {
    if n == 0 then 0
    else StartsDue(s, k, n - 1) + if IsTurn(WorkerCalls(s, n - 1), k) then s.limit else 0
  }

  lemma {:induction false} DueIsTurnsTimesLimit(s: Schedule, k: nat, n: nat)
    requires Valid(s)
    ensures StartsDue(s, k, n) == TurnsOf(s, k, n) * s.limit
  {
    if n == 0 {
    } else {
      hide WorkerCalls, IsTurn;
      DueIsTurnsTimesLimit(s, k, n - 1);
      OneMore(TurnsOf(s, k, n - 1), s.limit);
    }
  }

  lemma PrefixOfPrefix<A>(a: seq<A>, b: seq<A>, c: seq<A>)
    requires a <= b <= c
    ensures a <= c
  {
  }

  /** Many calls: the history of `k` grows at its end, and what is due has started, unless
      everything that was in the queue has. */
  lemma {:induction false} CallsStart(s: Schedule, k: nat, n: nat)
    requires Valid(s) && k < |s.queues|
    ensures var r := WorkerCalls(s, n);
            && s.pushed[k] <= r.pushed[k]
            && (|s.started[k]| + StartsDue(s, k, n) <= |r.started[k]| || |s.pushed[k]| <= |r.started[k]|)
  {
    hide WorkerCall;
    if n == 0 {
    } else {
      var m := WorkerCalls(s, n - 1);
      CallsStart(s, k, n - 1);
      WorkerCallStarts(m, k);
      PrefixOfPrefix(s.pushed[k], m.pushed[k], WorkerCall(m).pushed[k]);
    }
  }

  /** The task at depth `j` of a queue is found in its place among the started ones. */
  lemma InItsPlace<A>(pushed: seq<A>, started: seq<A>, queue: seq<A>,
                      pushed': seq<A>, started': seq<A>, queue': seq<A>, j: nat)
    requires pushed == started + queue && pushed' == started' + queue' && pushed <= pushed'
    requires j < |queue| && |started| + j < |started'|
    ensures started'[|started| + j] == queue[j]
  {
    assert pushed[|started| + j] == pushed'[|started| + j];
  }

  lemma DepthBelowTurns(j: nat, limit: nat, turns: nat)
    requires limit > 0 && j / limit + 1 <= turns
    ensures j < turns * limit
  {
    assert j < (j / limit + 1) * limit;
    assert (j / limit + 1) * limit <= turns * limit;
  }

  /** Bounded waiting for tasks: the task at depth `j` of a queue has run within
      `j / limit + 1` turns of its serializer, whatever is pushed meanwhile, and in its place. */
  lemma TaskWaits(s: Schedule, k: nat, n: nat, j: nat)
    requires Valid(s) && k < |s.queues| && j < |s.queues[k]|
    requires j / s.limit + 1 <= TurnsOf(s, k, n)
    ensures var r := WorkerCalls(s, n);
            && |r.started[k]| > |s.started[k]| + j
            && r.started[k][|s.started[k]| + j] == s.queues[k][j]
  {
    var r := WorkerCalls(s, n);
    CallsStart(s, k, n);
    DueIsTurnsTimesLimit(s, k, n);
    DepthBelowTurns(j, s.limit, TurnsOf(s, k, n));
    assert InOrder(s.started[k], s.queues[k], s.pushed[k]) && InOrder(r.started[k], r.queues[k], r.pushed[k]);
    InItsPlace(s.pushed[k], s.started[k], s.queues[k], r.pushed[k], r.started[k], r.queues[k], j);
  }
}
