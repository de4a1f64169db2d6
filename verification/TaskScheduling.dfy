/** Task scheduling on one worker thread, on values. A serializer is a FIFO queue of tasks; a
    distributor hands serializers with work to the worker, one turn of at most 30 tasks at a
    time (the bound is a parameter here). A running task may push further tasks to any
    serializer, its own included. */
module TaskScheduling {
  const MAX_PROCESS_TASK_COUNT: nat := 30

  /** A task: the serializer it is for, and the tasks it pushes when it runs. */
  datatype Task = Task(id: nat, target: nat, pushes: seq<Task>)

  /** `ready` is the distributor's queue of serializers and `limit` the number of tasks in a
      turn. Two histories: `pushed`, all tasks ever pushed to each serializer, and `started`,
      all that were popped from it and run. */
  datatype Schedule = Schedule(
    queues: seq<seq<Task>>, ready: seq<nat>, pushed: seq<seq<Task>>, started: seq<seq<Task>>, limit: nat)

  /** The task and all it will ever push are for one of `n` serializers. */
  predicate Targets(task: Task, n: nat) {
    && task.target < n
    && forall i {:trigger Targets(task.pushes[i], n)} :: 0 <= i < |task.pushes| ==> Targets(task.pushes[i], n)
  }

  predicate TargetsAll(tasks: seq<Task>, n: nat) {
    forall i {:trigger Targets(tasks[i], n)} :: 0 <= i < |tasks| ==> Targets(tasks[i], n)
  }

  /** A serializer has started what was pushed to it, in that order, up to what is queued. */
  ghost predicate InOrder(started: seq<Task>, queue: seq<Task>, pushed: seq<Task>) {
    pushed == started + queue
  }

  ghost predicate Valid(s: Schedule) {
    var n := |s.queues|;
    && |s.pushed| == |s.started| == n && s.limit > 0
    && (forall i :: 0 <= i < |s.ready| ==> s.ready[i] < n)
    && (forall k {:trigger TargetsAll(s.queues[k], n)} :: 0 <= k < n ==> TargetsAll(s.queues[k], n))
    && (forall k {:trigger InOrder(s.started[k], s.queues[k], s.pushed[k])} ::
          0 <= k < n ==> InOrder(s.started[k], s.queues[k], s.pushed[k]))
  }

  /** What every operation keeps. */
  ghost predicate Follows(s: Schedule, r: Schedule) {
    Valid(r) && |r.queues| == |s.queues| && r.limit == s.limit
  }

  function Enqueue(s: Schedule, task: Task): Schedule
    requires task.target < |s.queues| == |s.pushed|
  {
    var k := task.target;
    s.(queues := s.queues[k := s.queues[k] + [task]], pushed := s.pushed[k := s.pushed[k] + [task]])
  }

  lemma EnqueueValid(s: Schedule, task: Task)
    requires Valid(s) && Targets(task, |s.queues|)
    ensures Follows(s, Enqueue(s, task))
  {
    var k, r := task.target, Enqueue(s, task);
    assert InOrder(s.started[k], s.queues[k], s.pushed[k]) && TargetsAll(s.queues[k], |s.queues|);
    assert InOrder(s.started[k], r.queues[k], r.pushed[k]) && TargetsAll(r.queues[k], |s.queues|);
  }

  /** A push from inside a running task: the first task in a queue makes it ready. */
  function Push(s: Schedule, task: Task): (r: Schedule)
    requires Valid(s) && Targets(task, |s.queues|)
    ensures Follows(s, r)
  {
    EnqueueValid(s, task);
    var k, r := task.target, Enqueue(s, task);
    if s.queues[k] == [] then r.(ready := r.ready + [k]) else r
  }

  function PushAll(s: Schedule, tasks: seq<Task>): (r: Schedule)
    requires Valid(s) && TargetsAll(tasks, |s.queues|)
    ensures Follows(s, r)
    decreases |tasks|
  {
    if tasks == [] then s
    else
      assert Targets(tasks[0], |s.queues|) && TargetsAll(tasks[1..], |s.queues|);
      PushAll(Push(s, tasks[0]), tasks[1..])
  }

  /** Those of the tasks that are for serializer `k`, in order. */
  function TasksFor(tasks: seq<Task>, k: nat): seq<Task> {
    if tasks == [] then []
    else (if tasks[0].target == k then [tasks[0]] else []) + TasksFor(tasks[1..], k)
  }

  /** Every serializer gets its tasks in the order in which they are pushed, at the end. */
  lemma {:induction false} PushAllInOrder(s: Schedule, tasks: seq<Task>)
    requires Valid(s) && TargetsAll(tasks, |s.queues|)
    ensures forall k :: 0 <= k < |s.queues| ==> PushAll(s, tasks).queues[k] == s.queues[k] + TasksFor(tasks, k)
    decreases |tasks|
  {
    if tasks == [] {
    } else {
      assert Targets(tasks[0], |s.queues|) && TargetsAll(tasks[1..], |s.queues|);
      PushAllInOrder(Push(s, tasks[0]), tasks[1..]);
    }
  }

  lemma FrontTargets(s: Schedule, k: nat)
    requires Valid(s) && k < |s.queues| && s.queues[k] != []
    ensures TargetsAll(s.queues[k][0].pushes, |s.queues|)
  {
    assert TargetsAll(s.queues[k], |s.queues|) && Targets(s.queues[k][0], |s.queues|);
  }

  /** Pops the front task of serializer `k`. */
  function Pop(s: Schedule, k: nat): (r: Schedule)
    requires Valid(s) && k < |s.queues| && s.queues[k] != []
    ensures Follows(s, r)
  {
    assert InOrder(s.started[k], s.queues[k], s.pushed[k]) && TargetsAll(s.queues[k], |s.queues|);
    assert InOrder(s.started[k] + [s.queues[k][0]], s.queues[k][1..], s.pushed[k]);
    assert TargetsAll(s.queues[k][1..], |s.queues|);
    s.(queues := s.queues[k := s.queues[k][1..]], started := s.started[k := s.started[k] + [s.queues[k][0]]])
  }

  /** Pops and runs the front task of serializer `k`. */
  function RunFront(s: Schedule, k: nat): (r: Schedule)
    requires Valid(s) && k < |s.queues| && s.queues[k] != []
    ensures Follows(s, r)
  {
    FrontTargets(s, k);
    PushAll(Pop(s, k), s.queues[k][0].pushes)
  }

  /** Up to `budget` tasks of serializer `k`, those its tasks push to it on the way included. */
  function Turn(s: Schedule, k: nat, budget: nat): (r: Schedule)
    requires Valid(s) && k < |s.queues|
    ensures Follows(s, r)
    decreases budget
  {
    if budget == 0 || s.queues[k] == [] then s else Turn(RunFront(s, k), k, budget - 1)
  }

  /** A turn is its first task, then the rest of it. */
  lemma TurnFront(s: Schedule, k: nat, budget: nat)
    requires Valid(s) && k < |s.queues| && s.queues[k] != [] && budget > 0
    ensures TargetsAll(s.queues[k][0].pushes, |s.queues|)
    ensures Turn(s, k, budget) == Turn(PushAll(Pop(s, k), s.queues[k][0].pushes), k, budget - 1)
  {
    FrontTargets(s, k);
  }

  lemma TurnOver(s: Schedule, k: nat, budget: nat)
    requires Valid(s) && k < |s.queues| && (s.queues[k] == [] || budget == 0)
    ensures Turn(s, k, budget) == s
  {
  }

  /** A serializer with tasks left after its turn goes to the back of the ready queue. */
  function Finish(s: Schedule, k: nat): (r: Schedule)
    requires Valid(s) && k < |s.queues|
    ensures Follows(s, r)
  {
    if s.queues[k] != [] then s.(ready := s.ready + [k]) else s
  }

  function Process(s: Schedule, k: nat): (r: Schedule)
    requires Valid(s) && k < |s.queues|
    ensures Follows(s, r)
  {
    Finish(Turn(s, k, s.limit), k)
  }

  /** One call of the worker: the first ready serializer gets a turn. */
  function WorkerCall(s: Schedule): (r: Schedule)
    requires Valid(s)
    ensures Follows(s, r)
  {
    if s.ready == [] then s else Process(s.(ready := s.ready[1..]), s.ready[0])
  }

  /** A push from outside any task: into an empty queue it gets its turn at once. */
  function Submit(s: Schedule, task: Task): (r: Schedule)
    requires Valid(s) && Targets(task, |s.queues|)
    ensures Follows(s, r)
  {
    EnqueueValid(s, task);
    var k, r := task.target, Enqueue(s, task);
    if s.queues[k] == [] then Process(r, k) else r
  }

  function WorkerCalls(s: Schedule, n: nat): (r: Schedule)
    requires Valid(s)
    ensures Follows(s, r)
    decreases n
  {
    if n == 0 then s else WorkerCall(WorkerCalls(s, n - 1))
  }

  function Start(n: nat, limit: nat): (s: Schedule)
    requires limit > 0
    ensures Valid(s) && |s.queues| == n && s.limit == limit
  {
    Schedule(seq(n, _ => []), [], seq(n, _ => []), seq(n, _ => []), limit)
  }
}
