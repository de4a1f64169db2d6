/** Task scheduling with any number of threads. Each test, push and pop of a queue is one
    atomic step of one thread; worker threads poll the ready queue, and any idle thread may
    push a task from outside. The thread-local pointer to the serializer in process and the
    assertions on it are part of the state. */
module TaskMachine {
  import opened Sums
  import opened TaskScheduling

  /** Where a push returns to: outside any task, or into a running task that still has
      `rest` to push and is the `count`-th of its turn. */
  datatype Frame = Outside | Inside(count: nat, rest: seq<Task>)

  datatype PC =
    | Idle
    | Pushing(task: Task, frame: Frame)
    | Tested(task: Task, wasEmpty: bool, frame: Frame)
    | Scheduling(serializer: nat, frame: Frame)
    | Entering(serializer: nat)
    | Looping(count: nat)
    | Invoking(count: nat, rest: seq<Task>)
    | Checking
    | Requeuing
    | Leaving

  /** `current` is the thread-local pointer; `fault` is set when an assertion on it fails. */
  datatype Thread = Thread(pc: PC, current: Option<nat>, fault: bool)

  /** `submitted` lists the tasks pushed from outside. */
  datatype State = State(shared: Schedule, threads: seq<Thread>, submitted: seq<Task>)

  /** An idle thread is told to submit or to poll; a push tests and enqueues `Atomically` or,
      with `Go`, in two steps. */
  datatype Choice = Submit(task: Task) | Poll | Go | Atomically

  predicate FrameOk(frame: Frame, n: nat) {
    frame.Inside? ==> TargetsAll(frame.rest, n)
  }

  /** Pointers are to existing serializers, and the pointer is set where it is followed. */
  predicate ThreadOk(th: Thread, n: nat) {
    && (th.current.Some? ==> th.current.value < n)
    && match th.pc
       case Idle => true
       case Pushing(task, frame) => Targets(task, n) && FrameOk(frame, n)
       case Tested(task, _, frame) => Targets(task, n) && FrameOk(frame, n)
       case Scheduling(k, frame) => k < n && FrameOk(frame, n)
       case Entering(k) => k < n
       case Invoking(_, rest) => th.current.Some? && TargetsAll(rest, n)
       case _ => th.current.Some?
  }

  function Return(frame: Frame): PC {
    match frame
    case Outside => Idle
    case Inside(count, rest) => Invoking(count, rest)
  }

  function AfterPush(k: nat, wasEmpty: bool, frame: Frame): PC {
    if wasEmpty then Scheduling(k, frame) else Return(frame)
  }

  /** One atomic step of one thread. */
  function LocalStep(sh: Schedule, th: Thread, choice: Choice): (r: (Schedule, Thread))
    requires Valid(sh) && ThreadOk(th, |sh.queues|)
    requires th.pc.Pushing? || th.pc.Tested? ==> th.pc.frame.Outside? || th.current.Some?
    requires th.pc.Scheduling? ==> th.pc.frame.Outside? || th.current.Some?
  {
    match th.pc
    case Idle =>
      (match choice
       case Submit(task) =>
         if Targets(task, |sh.queues|) then (sh, th.(pc := Pushing(task, Outside))) else (sh, th)
       case Poll =>
         var polling := th.(fault := th.fault || th.current != None);
         if sh.ready == [] then (sh, polling)
         else (sh.(ready := sh.ready[1..]), polling.(pc := Entering(sh.ready[0])))
       case _ => (sh, th))
    case Pushing(task, frame) =>
      var wasEmpty := sh.queues[task.target] == [];
      if choice == Atomically
      then (Enqueue(sh, task), th.(pc := AfterPush(task.target, wasEmpty, frame)))
      else (sh, th.(pc := Tested(task, wasEmpty, frame)))
    case Tested(task, wasEmpty, frame) =>
      (Enqueue(sh, task), th.(pc := AfterPush(task.target, wasEmpty, frame)))
    case Scheduling(k, frame) =>
      if th.current == None then (sh, th.(pc := Entering(k)))
      else (sh.(ready := sh.ready + [k]), th.(pc := Return(frame)))
    case Entering(k) =>
      (sh, Thread(Looping(0), Some(k), th.fault || th.current != None))
    case Looping(count) =>
      var k := th.current.value;
      if sh.queues[k] == [] then (sh, th.(pc := Checking))
      else (Pop(sh, k), th.(pc := Invoking(count, sh.queues[k][0].pushes)))
    case Invoking(count, rest) =>
      if rest != [] then (sh, th.(pc := Pushing(rest[0], Inside(count, rest[1..]))))
      else if count + 1 >= sh.limit then (sh, th.(pc := Checking))
      else (sh, th.(pc := Looping(count + 1)))
    case Checking =>
      (sh, th.(pc := if sh.queues[th.current.value] != [] then Requeuing else Leaving))
    case Requeuing => (sh.(ready := sh.ready + [th.current.value]), th.(pc := Leaving))
    case Leaving => (sh, th.(pc := Idle, current := None))
  }

  /** The discipline every thread keeps: no assertion has failed, and the pointer is set
      exactly from the entry of a turn to its end. */
  predicate Disciplined(th: Thread) {
    && !th.fault
    && match th.pc
       case Idle | Entering(_) => th.current == None
       case Pushing(_, frame) => frame.Outside? <==> th.current == None
       case Tested(_, _, frame) => frame.Outside? <==> th.current == None
       case Scheduling(_, frame) => frame.Outside? <==> th.current == None
       case _ => th.current != None
  }

  ghost predicate StateOk(s: State) {
    && Valid(s.shared)
    && (forall t {:trigger ThreadOk(s.threads[t], |s.shared.queues|)} ::
          0 <= t < |s.threads| ==> ThreadOk(s.threads[t], |s.shared.queues|))
    && (forall t {:trigger Disciplined(s.threads[t])} :: 0 <= t < |s.threads| ==> Disciplined(s.threads[t]))
  }

  /** Run to completion: the discipline survives every step, so the entry assertions never
      fail and turns never nest. */
  lemma LocalStepOk(sh: Schedule, th: Thread, choice: Choice)
    requires Valid(sh) && ThreadOk(th, |sh.queues|) && Disciplined(th)
    ensures var (sh', th') := LocalStep(sh, th, choice);
            Follows(sh, sh') && ThreadOk(th', |sh.queues|) && Disciplined(th')
  {
    hide Valid;
    match th.pc {
      case Idle =>
        if choice == Poll && sh.ready != [] {
          ReadyInRange(sh);
        }
      case Pushing(task, _) => EnqueueValid(sh, task);
      case Tested(task, _, _) => EnqueueValid(sh, task);
      case Scheduling(k, _) => ReadyMore(sh, k);
      case Looping(_) =>
        if sh.queues[th.current.value] != [] {
          FrontTargets(sh, th.current.value);
        }
      case Invoking(_, rest) =>
        if rest != [] {
          assert Targets(rest[0], |sh.queues|) && TargetsAll(rest[1..], |sh.queues|);
        }
      case Requeuing => ReadyMore(sh, th.current.value);
      case _ =>
    }
  }

  lemma ReadyInRange(s: Schedule)
    requires Valid(s) && s.ready != []
    ensures s.ready[0] < |s.queues| && Valid(s.(ready := s.ready[1..]))
  {
  }

  lemma ReadyMore(s: Schedule, k: nat)
    requires Valid(s) && k < |s.queues|
    ensures Valid(s.(ready := s.ready + [k]))
  {
  }

  type Move = (nat, Choice)

  function Step(s: State, move: Move): (r: State)
    requires StateOk(s)
    ensures StateOk(r) && |r.threads| == |s.threads| && Follows(s.shared, r.shared)
  {
    var (t, choice) := move;
    if t >= |s.threads| then s
    else
      assert ThreadOk(s.threads[t], |s.shared.queues|) && Disciplined(s.threads[t]);
      LocalStepOk(s.shared, s.threads[t], choice);
      var (sh, th) := LocalStep(s.shared, s.threads[t], choice);
      var accepted := s.threads[t].pc == Idle && choice.Submit? && Targets(choice.task, |s.shared.queues|);
      State(sh, s.threads[t := th], if accepted then s.submitted + [choice.task] else s.submitted)
  }

  function Run(s: State, schedule: seq<Move>): (r: State)
    requires StateOk(s)
    ensures StateOk(r) && |r.threads| == |s.threads| && Follows(s.shared, r.shared)
    decreases |schedule|
  {
    if schedule == [] then s else Run(Step(s, schedule[0]), schedule[1..])
  }

  /** `n` serializers, `m` threads, nothing submitted. */
  function Init(n: nat, m: nat, limit: nat): (s: State)
    requires limit > 0
    ensures StateOk(s) && |s.threads| == m && |s.shared.queues| == n
  {
    State(Start(n, limit), seq(m, _ => Thread(Idle, None, false)), [])
  }
}
