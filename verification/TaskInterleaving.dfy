/** What survives every interleaving of the scheduler's threads: turns do not nest, tasks
    start in push order and at most once; and exactly when a wakeup is lost. */
module TaskInterleaving {
  import opened Sums
  import opened TaskScheduling
  import opened TaskFairness
  import opened TaskMachine

  // ---- Run to completion and order -------------------------------------------------------

  /** In every run no entry assertion has failed on any thread, the pointer is set exactly from
      the entry of a turn to its end, and each serializer has started its tasks in the order
      they were pushed. */
  lemma RunToCompletion(n: nat, m: nat, limit: nat, schedule: seq<Move>, t: nat, k: nat)
    requires limit > 0 && t < m && k < n
    ensures var s := Run(Init(n, m, limit), schedule);
            && !s.threads[t].fault
            && (s.threads[t].current != None <==> InTurn(s.threads[t].pc))
            && s.shared.pushed[k] == s.shared.started[k] + s.shared.queues[k]
  {
    var s := Run(Init(n, m, limit), schedule);
    assert Disciplined(s.threads[t]);
    assert InOrder(s.shared.started[k], s.shared.queues[k], s.shared.pushed[k]);
  }

  /** Between the entry of a turn and its end, pushes by its tasks included. */
  predicate InTurn(pc: PC) {
    match pc
    case Idle | Entering(_) => false
    case Pushing(_, frame) => frame.Inside?
    case Tested(_, _, frame) => frame.Inside?
    case Scheduling(_, frame) => frame.Inside?
    case _ => true
  }

  /** Inside a task: it is running, or a push that it makes is. */
  predicate InTask(pc: PC) {
    pc.Invoking? || ((pc.Pushing? || pc.Tested? || pc.Scheduling?) && pc.frame.Inside?)
  }

  /** A task runs to its end: while a thread is inside it, its steps start no task, however
      many it pushes, and leave it in the turn of the same serializer; the next task of this
      thread starts only from the loop. */
  lemma InsideNothingStarts(s: State, move: Move)
    requires StateOk(s) && move.0 < |s.threads| && InTask(s.threads[move.0].pc)
    ensures var r := Step(s, move);
            && r.shared.started == s.shared.started
            && r.threads[move.0].current == s.threads[move.0].current
            && (InTask(r.threads[move.0].pc) || r.threads[move.0].pc.Looping? || r.threads[move.0].pc.Checking?)
  {
    assert ThreadOk(s.threads[move.0], |s.shared.queues|) && Disciplined(s.threads[move.0]);
    hide Valid;
  }

  /** How many tasks thread `t` starts in a run. */
  function StartedBy(s: State, schedule: seq<Move>, t: nat): nat
    requires StateOk(s)
    decreases |schedule|
  {
    if schedule == [] then 0
    else
      var next := Step(s, schedule[0]);
      (if schedule[0].0 == t && next.shared.started != s.shared.started then 1 else 0)
      + StartedBy(next, schedule[1..], t)
  }

  /** Thread `t` is inside a task before every step of the run. */
  ghost predicate StaysInside(s: State, schedule: seq<Move>, t: nat)
    requires StateOk(s)
    decreases |schedule|
  {
    schedule == []
    || (t < |s.threads| && InTask(s.threads[t].pc) && StaysInside(Step(s, schedule[0]), schedule[1..], t))
  }

  lemma OthersMove(s: State, move: Move, t: nat)
    requires StateOk(s) && t < |s.threads| && move.0 != t
    ensures Step(s, move).threads[t] == s.threads[t]
  {
  }

  /** From the pop of a task to its thread's return to the loop, whatever other threads do in
      between: the thread starts no other task and stays in the turn of the same serializer. */
  lemma {:induction false} NothingStartsInside(s: State, schedule: seq<Move>, t: nat)
    requires StateOk(s) && t < |s.threads| && StaysInside(s, schedule, t)
    ensures StartedBy(s, schedule, t) == 0
    ensures Run(s, schedule).threads[t].current == s.threads[t].current
    decreases |schedule|
  {
    if schedule == [] {
    } else {
      var next := Step(s, schedule[0]);
      if schedule[0].0 == t {
        InsideNothingStarts(s, schedule[0]);
      } else {
        OthersMove(s, schedule[0], t);
      }
      hide Step, StateOk, InTask;
      NothingStartsInside(next, schedule[1..], t);
    }
  }

  // ---- Every task at most once -----------------------------------------------------------

  function FrameNodes(frame: Frame, id: nat): nat {
    match frame
    case Outside => 0
    case Inside(_, rest) => NodesAll(rest, id)
  }

  /** Occurrences of `id` in what a thread is still to push. */
  function Held(th: Thread, id: nat): nat {
    match th.pc
    case Pushing(task, frame) => Nodes(task, id) + FrameNodes(frame, id)
    case Tested(task, _, frame) => Nodes(task, id) + FrameNodes(frame, id)
    case Scheduling(_, frame) => FrameNodes(frame, id)
    case Invoking(_, rest) => NodesAll(rest, id)
    case _ => 0
  }

  function HeldOf(id: nat): Thread -> nat {
    (th: Thread) => Held(th, id)
  }

  /** How often `id` has started, is queued, or is still to be pushed. */
  function Everywhere(s: State, id: nat): nat {
    Occurrences(s.shared, id) + NatSum(s.threads, HeldOf(id))
  }

  lemma PopCounts(s: Schedule, k: nat, id: nat)
    requires Valid(s) && k < |s.queues| && s.queues[k] != []
    ensures Occurrences(Pop(s, k), id) + NodesAll(s.queues[k][0].pushes, id) == Occurrences(s, id)
  {
    var task := s.queues[k][0];
    QueueAppend(s.started[k], task, id);
    NatSumUpdate(s.queues, k, s.queues[k][1..], PendingOf(id));
    NatSumUpdate(s.started, k, s.started[k] + [task], StartedOf(id));
  }

  /** Occurrences that a step submits. */
  function Submitted(sh: Schedule, th: Thread, choice: Choice, id: nat): nat {
    if th.pc.Idle? && choice.Submit? && Targets(choice.task, |sh.queues|) then Nodes(choice.task, id) else 0
  }

  /** A thread's step moves tasks between its hands and the queues; only a submission adds. */
  ghost predicate CountsKept(sh: Schedule, th: Thread, choice: Choice, sh': Schedule, th': Thread, id: nat) {
    Occurrences(sh', id) + Held(th', id) == Occurrences(sh, id) + Held(th, id) + Submitted(sh, th, choice, id)
  }

  lemma LocalCounts(sh: Schedule, th: Thread, choice: Choice, id: nat)
    requires Valid(sh) && ThreadOk(th, |sh.queues|) && Disciplined(th)
    ensures var (sh', th') := LocalStep(sh, th, choice); CountsKept(sh, th, choice, sh', th', id)
  {
    hide Valid, LocalStep, CountsKept;
    match th.pc {
      case Pushing(task, _) => PushingCounts(sh, th, choice, id);
      case Tested(task, _, _) => PushingCounts(sh, th, choice, id);
      case Looping(_) => PoppingCounts(sh, th, choice, id);
      case _ => OtherCounts(sh, th, choice, id);
    }
  }

  lemma PushingCounts(sh: Schedule, th: Thread, choice: Choice, id: nat)
    requires Valid(sh) && ThreadOk(th, |sh.queues|) && Disciplined(th) && (th.pc.Pushing? || th.pc.Tested?)
    ensures var (sh', th') := LocalStep(sh, th, choice); CountsKept(sh, th, choice, sh', th', id)
  {
    ValidLengths(sh);
    hide Valid, NatSum, Occurrences, Enqueue;
    EnqueueCounts(sh, th.pc.task, id);
  }

  lemma PoppingCounts(sh: Schedule, th: Thread, choice: Choice, id: nat)
    requires Valid(sh) && ThreadOk(th, |sh.queues|) && Disciplined(th) && th.pc.Looping?
    ensures var (sh', th') := LocalStep(sh, th, choice); CountsKept(sh, th, choice, sh', th', id)
  {
    hide Valid, NatSum, Occurrences, Pop;
    if sh.queues[th.current.value] != [] {
      PopCounts(sh, th.current.value, id);
    }
  }

  lemma OtherCounts(sh: Schedule, th: Thread, choice: Choice, id: nat)
    requires Valid(sh) && ThreadOk(th, |sh.queues|) && Disciplined(th)
    requires !th.pc.Pushing? && !th.pc.Tested? && !th.pc.Looping?
    ensures var (sh', th') := LocalStep(sh, th, choice); CountsKept(sh, th, choice, sh', th', id)
  {
    hide Valid, NatSum, Occurrences;
    SameOccurrences(sh, LocalStep(sh, th, choice).0, id);
  }

  lemma SameOccurrences(s: Schedule, r: Schedule, id: nat)
    requires r.queues == s.queues && r.started == s.started
    ensures Occurrences(r, id) == Occurrences(s, id)
  {
  }

  lemma ValidLengths(s: Schedule)
    requires Valid(s)
    ensures |s.pushed| == |s.queues|
  {
  }

  lemma StepCounts(s: State, move: Move, id: nat)
    requires StateOk(s) && Everywhere(s, id) == NodesAll(s.submitted, id)
    ensures Everywhere(Step(s, move), id) == NodesAll(Step(s, move).submitted, id)
  {
    var (t, choice) := move;
    if t < |s.threads| {
      var th := s.threads[t];
      assert ThreadOk(th, |s.shared.queues|) && Disciplined(th);
      hide Valid, NatSum, Occurrences;
      LocalCounts(s.shared, th, choice, id);
      NatSumUpdate(s.threads, t, LocalStep(s.shared, th, choice).1, HeldOf(id));
      if choice.Submit? {
        QueueAppend(s.submitted, choice.task, id);
      }
    }
  }

  lemma {:induction false} RunCounts(s: State, schedule: seq<Move>, id: nat)
    requires StateOk(s) && Everywhere(s, id) == NodesAll(s.submitted, id)
    ensures Everywhere(Run(s, schedule), id) == NodesAll(Run(s, schedule).submitted, id)
    decreases |schedule|
  {
    if schedule == [] {
    } else {
      hide Everywhere, Step;
      StepCounts(s, schedule[0], id);
      RunCounts(Step(s, schedule[0]), schedule[1..], id);
    }
  }

  lemma InitCounts(n: nat, m: nat, limit: nat, id: nat)
    requires limit > 0
    ensures Everywhere(Init(n, m, limit), id) == 0
  {
    var s := Init(n, m, limit);
    NatSumZero(s.shared.queues, PendingOf(id));
    NatSumZero(s.shared.started, StartedOf(id));
    NatSumZero(s.threads, HeldOf(id));
  }

  /** Tests and enqueues may be split as they like: no task is ever lost or run twice. Each
      identity has started, is queued or is still to be pushed as often as the submitted
      tasks contain it. */
  lemma NoTaskTwice(n: nat, m: nat, limit: nat, schedule: seq<Move>, id: nat)
    requires limit > 0
    ensures var s := Run(Init(n, m, limit), schedule);
            && Everywhere(s, id) == NodesAll(s.submitted, id)
            && NatSum(s.shared.started, StartedOf(id)) <= NodesAll(s.submitted, id)
  {
    InitCounts(n, m, limit, id);
    RunCounts(Init(n, m, limit), schedule, id);
  }

  // ---- Lost wakeups ----------------------------------------------------------------------

  /** The thread is about to schedule serializer `k`, or in a turn of it that will still look
      at its queue or put it back. */
  predicate Covers(th: Thread, k: nat) {
    match th.pc
    case Idle => false
    case Leaving => false
    case Scheduling(j, _) => j == k || th.current == Some(k)
    case Entering(j) => j == k
    case _ => th.current == Some(k)
  }

  ghost predicate Covered(threads: seq<Thread>, k: nat) {
    exists t {:trigger Covers(threads[t], k)} :: 0 <= t < |threads| && Covers(threads[t], k)
  }

  /** Somebody will see to serializer `k`. */
  ghost predicate Woken(s: State, k: nat) {
    k in s.shared.ready || Covered(s.threads, k)
  }

  /** No serializer with tasks is forgotten. */
  ghost predicate AllWoken(s: State) {
    forall k {:trigger Woken(s, k)} :: 0 <= k < |s.shared.queues| && s.shared.queues[k] != [] ==> Woken(s, k)
  }

  /** The step enqueues on the strength of an outdated test: the queue was not empty when it
      was tested, it is now, and nobody will look at it. */
  ghost predicate LosesWakeup(s: State, move: Move) {
    && move.0 < |s.threads|
    && s.threads[move.0].pc.Tested?
    && !s.threads[move.0].pc.wasEmpty
    && s.threads[move.0].pc.task.target < |s.shared.queues|
    && s.shared.queues[s.threads[move.0].pc.task.target] == []
    && !Woken(s, s.threads[move.0].pc.task.target)
  }

  /** What one step does for serializer `k`. A task arrives only by an enqueue; who covers `k`
      before the step does so after it, or has put it in the ready queue, or has seen its
      queue empty; and who takes it from the ready queue covers it. */
  lemma LocalWakes(sh: Schedule, th: Thread, choice: Choice, k: nat)
    requires Valid(sh) && ThreadOk(th, |sh.queues|) && Disciplined(th) && k < |sh.queues|
    ensures var (sh', th') := LocalStep(sh, th, choice);
            && |sh'.queues| == |sh.queues|
            && (k in sh.ready ==> k in sh'.ready || Covers(th', k))
            && (Covers(th, k) && sh'.queues[k] != [] ==> k in sh'.ready || Covers(th', k))
            && (sh.queues[k] == [] && sh'.queues[k] != [] ==>
                  || Covers(th', k)
                  || (th.pc.Tested? && !th.pc.wasEmpty && th.pc.task.target == k))
  {
    hide Valid;
    if th.pc.Idle? && sh.ready != [] {
      assert sh.ready == [sh.ready[0]] + sh.ready[1..];
    }
    LocalStepOk(sh, th, choice);
  }

  lemma CoveredByOther(threads: seq<Thread>, t: nat, th: Thread, k: nat)
    requires t < |threads| && Covered(threads, k)
    ensures Covers(threads[t], k) || Covered(threads[t := th], k)
  {
    var u :| 0 <= u < |threads| && Covers(threads[u], k);
    if u != t {
      assert Covers(threads[t := th][u], k);
    }
  }

  lemma CoveredBySelf(threads: seq<Thread>, t: nat, th: Thread, k: nat)
    requires t < |threads| && Covers(th, k)
    ensures Covered(threads[t := th], k)
  {
    assert Covers(threads[t := th][t], k);
  }

  /** If `k` is seen to before a step and has tasks after it, it is seen to after it. */
  lemma StaysWoken(s: State, move: Move, k: nat)
    requires StateOk(s) && k < |s.shared.queues| && Woken(s, k)
    requires Step(s, move).shared.queues[k] != []
    ensures Woken(Step(s, move), k)
  {
    var (t, choice) := move;
    if t < |s.threads| {
      var th := s.threads[t];
      assert ThreadOk(th, |s.shared.queues|) && Disciplined(th);
      LocalWakes(s.shared, th, choice, k);
      hide Valid, LocalStep;
      var th' := LocalStep(s.shared, th, choice).1;
      if Covered(s.threads, k) {
        CoveredByOther(s.threads, t, th', k);
      }
      if Covers(th', k) {
        CoveredBySelf(s.threads, t, th', k);
      }
    }
  }

  /** Exactly when a wakeup is lost: from a state in which nothing is forgotten, a step
      forgets a serializer if and only if it enqueues on an outdated test. */
  lemma LostWakeupIff(s: State, move: Move)
    requires StateOk(s) && AllWoken(s)
    ensures AllWoken(Step(s, move)) <==> !LosesWakeup(s, move)
  {
    var s' := Step(s, move);
    forall k | 0 <= k < |s.shared.queues| && s'.shared.queues[k] != [] && !LosesWakeup(s, move)
      ensures Woken(s', k)
    {
      NotLost(s, move, k);
    }
    if LosesWakeup(s, move) {
      Lost(s, move);
    }
  }

  lemma NotLost(s: State, move: Move, k: nat)
    requires StateOk(s) && AllWoken(s) && k < |s.shared.queues|
    requires Step(s, move).shared.queues[k] != [] && !LosesWakeup(s, move)
    ensures Woken(Step(s, move), k)
  {
    if Woken(s, k) {
      StaysWoken(s, move, k);
    } else {
      var (t, choice) := move;
      var th := s.threads[t];
      assert ThreadOk(th, |s.shared.queues|) && Disciplined(th);
      LocalWakes(s.shared, th, choice, k);
      CoveredBySelf(s.threads, t, LocalStep(s.shared, th, choice).1, k);
    }
  }

  lemma Lost(s: State, move: Move)
    requires StateOk(s) && LosesWakeup(s, move)
    ensures !AllWoken(Step(s, move))
  {
    var (t, choice) := move;
    var th := s.threads[t];
    var k := th.pc.task.target;
    assert ThreadOk(th, |s.shared.queues|) && Disciplined(th);
    var (sh', th') := LocalStep(s.shared, th, choice);
    assert sh'.queues[k] != [] && k !in sh'.ready;
    assert !Covers(th, k);
    forall u {:trigger Covers(s.threads[t := th'][u], k)} | 0 <= u < |s.threads|
      ensures !Covers(s.threads[t := th'][u], k)
    {
      assert !Covers(s.threads[u], k);
    }
    assert !Woken(Step(s, move), k);
  }

  /** Every push of the schedule tests and enqueues in one step. */
  ghost predicate AtomicPushes(s: State, schedule: seq<Move>)
    requires StateOk(s)
    decreases |schedule|
  {
    schedule == []
    || (&& (schedule[0].0 < |s.threads| && s.threads[schedule[0].0].pc.Pushing? ==> schedule[0].1 == Atomically)
        && AtomicPushes(Step(s, schedule[0]), schedule[1..]))
  }

  ghost predicate NobodyTested(s: State) {
    forall t {:trigger s.threads[t]} :: 0 <= t < |s.threads| ==> !s.threads[t].pc.Tested?
  }

  /** No lost wakeup under atomic pushes, whatever else is interleaved. */
  lemma {:induction false} AtomicPushesLoseNothing(s: State, schedule: seq<Move>)
    requires StateOk(s) && AllWoken(s) && NobodyTested(s) && AtomicPushes(s, schedule)
    ensures AllWoken(Run(s, schedule))
    decreases |schedule|
  {
    if schedule == [] {
    } else {
      LostWakeupIff(s, schedule[0]);
      assert NobodyTested(Step(s, schedule[0])) by {
        hide Valid, Woken, AllWoken;
      }
      AtomicPushesLoseNothing(Step(s, schedule[0]), schedule[1..]);
    }
  }

  /** When the ready queue is empty and all threads are idle, nothing is left: every queue is
      empty, every serializer has run all its tasks in push order, and every task has run
      exactly as often as it was submitted. */
  lemma QuietMeansDone(n: nat, m: nat, limit: nat, schedule: seq<Move>, id: nat)
    requires limit > 0 && AtomicPushes(Init(n, m, limit), schedule)
    requires var s := Run(Init(n, m, limit), schedule);
             s.shared.ready == [] && forall t :: 0 <= t < m ==> s.threads[t].pc == Idle
    ensures var s := Run(Init(n, m, limit), schedule);
            && (forall k :: 0 <= k < n ==> s.shared.queues[k] == [] && s.shared.started[k] == s.shared.pushed[k])
            && NatSum(s.shared.started, StartedOf(id)) == NodesAll(s.submitted, id)
  {
    var s := Run(Init(n, m, limit), schedule);
    AtomicPushesLoseNothing(Init(n, m, limit), schedule);
    forall k | 0 <= k < n
      ensures s.shared.queues[k] == [] && s.shared.started[k] == s.shared.pushed[k]
    {
      assert !Woken(s, k);
      assert InOrder(s.shared.started[k], s.shared.queues[k], s.shared.pushed[k]);
    }
    NoTaskTwice(n, m, limit, schedule, id);
    EmptyQueues(s.shared, id);
    NatSumZero(s.threads, HeldOf(id));
  }

  /** One more step at the end of a run. */
  lemma {:induction false} RunMore(s: State, schedule: seq<Move>, move: Move)
    requires StateOk(s)
    ensures Run(s, schedule + [move]) == Step(Run(s, schedule), move)
    decreases |schedule|
  {
    if schedule == [] {
      assert schedule + [move] == [move] && [move][1..] == [];
    } else {
      assert (schedule + [move])[1..] == schedule[1..] + [move];
      RunMore(Step(s, schedule[0]), schedule[1..], move);
    }
  }

  /** One serializer and two threads: its queue, and where the threads stand. */
  ghost predicate Shows(s: State, queue: seq<Task>, first: Thread, second: Thread) {
    && StateOk(s) && |s.shared.queues| == 1 && |s.threads| == 2
    && s.shared.queues[0] == queue && s.shared.ready == []
    && s.threads[0] == first && s.threads[1] == second && s.shared.limit > 1
  }

  /** Thread 0 has pushed a task and processes its serializer at once. */
  lemma FirstEnters(limit: nat) returns (schedule: seq<Move>)
    requires limit > 1
    ensures Shows(Run(Init(1, 2, limit), schedule), [Task(1, 0, [])],
                  Thread(Entering(0), None, false), Thread(Idle, None, false))
  {
    var start, first, idle := Init(1, 2, limit), Task(1, 0, []), Thread(Idle, None, false);
    schedule := [];
    assert Run(start, schedule) == start;
    hide Run, StateOk, Valid;
    schedule := Then(start, schedule, (0, Submit(first)), [], Thread(Pushing(first, Outside), None, false), idle);
    schedule := Then(start, schedule, (0, Atomically), [first], Thread(Scheduling(0, Outside), None, false), idle);
    schedule := Then(start, schedule, (0, Go), [first], Thread(Entering(0), None, false), idle);
  }

  /** Thread 0 is about to pop it; thread 1 submits a second task. */
  lemma SecondSubmits(limit: nat) returns (schedule: seq<Move>)
    requires limit > 1
    ensures Shows(Run(Init(1, 2, limit), schedule), [Task(1, 0, [])], Thread(Looping(0), Some(0), false),
                  Thread(Pushing(Task(2, 0, []), Outside), None, false))
  {
    var start, first, second := Init(1, 2, limit), Task(1, 0, []), Task(2, 0, []);
    var looping := Thread(Looping(0), Some(0), false);
    schedule := FirstEnters(limit);
    hide Run, StateOk, Valid, Init;
    schedule := Then(start, schedule, (0, Go), [first], looping, Thread(Idle, None, false));
    schedule := Then(start, schedule, (1, Submit(second)), [first], looping,
                     Thread(Pushing(second, Outside), None, false));
  }

  /** Thread 1 has tested the queue for it. */
  lemma SecondTests(limit: nat) returns (schedule: seq<Move>)
    requires limit > 1
    ensures Shows(Run(Init(1, 2, limit), schedule), [Task(1, 0, [])], Thread(Looping(0), Some(0), false),
                  Thread(Tested(Task(2, 0, []), false, Outside), None, false))
  {
    var start, tested := Init(1, 2, limit), Thread(Tested(Task(2, 0, []), false, Outside), None, false);
    schedule := SecondSubmits(limit);
    hide Run, StateOk, Valid, Init;
    schedule := Then(start, schedule, (1, Go), [Task(1, 0, [])], Thread(Looping(0), Some(0), false), tested);
  }

  /** Thread 0 has run it and found the queue empty. */
  lemma FirstFindsNothing(limit: nat) returns (schedule: seq<Move>)
    requires limit > 1
    ensures Shows(Run(Init(1, 2, limit), schedule), [], Thread(Checking, Some(0), false),
                  Thread(Tested(Task(2, 0, []), false, Outside), None, false))
  {
    var start, tested := Init(1, 2, limit), Thread(Tested(Task(2, 0, []), false, Outside), None, false);
    schedule := SecondTests(limit);
    hide Run, StateOk, Valid, Init;
    schedule := Then(start, schedule, (0, Go), [], Thread(Invoking(0, []), Some(0), false), tested);
    schedule := Then(start, schedule, (0, Go), [], Thread(Looping(1), Some(0), false), tested);
    schedule := Then(start, schedule, (0, Go), [], Thread(Checking, Some(0), false), tested);
  }

  lemma FirstIsDone(limit: nat) returns (schedule: seq<Move>)
    requires limit > 1
    ensures Shows(Run(Init(1, 2, limit), schedule), [], Thread(Idle, None, false),
                  Thread(Tested(Task(2, 0, []), false, Outside), None, false))
  {
    var start, tested := Init(1, 2, limit), Thread(Tested(Task(2, 0, []), false, Outside), None, false);
    schedule := FirstFindsNothing(limit);
    hide Run, StateOk, Valid, Init;
    schedule := Then(start, schedule, (0, Go), [], Thread(Leaving, Some(0), false), tested);
    schedule := Then(start, schedule, (0, Go), [], Thread(Idle, None, false), tested);
  }

  /** A wakeup that is lost: thread 1 tests the queue while thread 0 has not yet popped its
      only task, and enqueues after thread 0 has found it empty. All threads are idle, nothing
      is ready, and the task waits. */
  lemma LostWakeup(limit: nat) returns (schedule: seq<Move>)
    requires limit > 1
    ensures Shows(Run(Init(1, 2, limit), schedule), [Task(2, 0, [])],
                  Thread(Idle, None, false), Thread(Idle, None, false))
  {
    var start, idle := Init(1, 2, limit), Thread(Idle, None, false);
    schedule := FirstIsDone(limit);
    hide Run, StateOk, Valid, Init;
    schedule := Then(start, schedule, (1, Go), [Task(2, 0, [])], idle, idle);
  }

  lemma Then(start: State, before: seq<Move>, move: Move, queue: seq<Task>, first: Thread, second: Thread)
      returns (schedule: seq<Move>)
    requires StateOk(start) && Shows(Step(Run(start, before), move), queue, first, second)
    ensures schedule == before + [move] && Shows(Run(start, schedule), queue, first, second)
  {
    schedule := before + [move];
    RunMore(start, before, move);
  }
}
