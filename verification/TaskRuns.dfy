/** The scheduler of one worker and the machine of many threads are the same scheduler: a
    whole worker call and a whole submission are runs in which a single thread moves. */
module TaskRuns {
  import opened Sums
  import opened TaskScheduling
  import opened TaskMachine
  import opened TaskInterleaving

  /** Only thread `t` moves, and it submits nothing. */
  predicate Alone(schedule: seq<Move>, t: nat) {
    forall move <- schedule :: move.0 == t && !move.1.Submit?
  }

  /** The state in which thread `t` has changed to `th` and the shared part to `sh`. */
  function At(s: State, t: nat, sh: Schedule, th: Thread): State
    requires t < |s.threads|
  {
    State(sh, s.threads[t := th], s.submitted)
  }

  /** A thread between two calls. */
  function Resting(): Thread {
    Thread(Idle, None, false)
  }

  lemma IdleRests(s: State, t: nat)
    requires StateOk(s) && t < |s.threads| && s.threads[t].pc == Idle
    ensures s.threads[t] == Resting()
    ensures forall sh :: At(s, t, sh, Resting()) == s.(shared := sh)
  {
    assert Disciplined(s.threads[t]);
    assert s.threads[t := Resting()] == s.threads;
  }

  /** Thread `t` has come from `s` to `th` on its own, and the shared part to `sh`. */
  ghost predicate Came(s: State, t: nat, schedule: seq<Move>, sh: Schedule, th: Thread) {
    && StateOk(s) && t < |s.threads| && Alone(schedule, t)
    && Run(s, schedule) == At(s, t, sh, th)
    && Valid(sh) && ThreadOk(th, |sh.queues|) && Disciplined(th)
  }

  /** One more step of the thread. */
  lemma On(s: State, t: nat, before: seq<Move>, sh: Schedule, th: Thread, choice: Choice) returns (after: seq<Move>)
    requires Came(s, t, before, sh, th) && !choice.Submit?
    ensures after == before + [(t, choice)]
    ensures var (sh', th') := LocalStep(sh, th, choice); Came(s, t, after, sh', th')
  {
    after := before + [(t, choice)];
    RunMore(s, before, (t, choice));
    var r := At(s, t, sh, th);
    assert StateOk(r) && r.threads[t] == th;
    var (sh', th') := LocalStep(sh, th, choice);
    LocalStepOk(sh, th, choice);
    assert r.threads[t := th'] == s.threads[t := th'];
  }

  /** Inside a task: its pushes, one after the other, each in one step. */
  lemma {:induction false} PushesAreARun(
    s: State, t: nat, before: seq<Move>, sh: Schedule, k: nat, count: nat, rest: seq<Task>) returns (after: seq<Move>)
    requires Came(s, t, before, sh, Thread(Invoking(count, rest), Some(k), false))
    requires TargetsAll(rest, |sh.queues|)
    ensures Came(s, t, after, PushAll(sh, rest), Thread(Invoking(count, []), Some(k), false))
    decreases |rest|
  {
    if rest == [] {
      after := before;
    } else {
      assert Targets(rest[0], |sh.queues|) && TargetsAll(rest[1..], |sh.queues|);
      after := PushIsARun(s, t, before, sh, k, count, rest);
      after := PushesAreARun(s, t, after, Push(sh, rest[0]), k, count, rest[1..]);
    }
  }

  lemma PushIsARun(
    s: State, t: nat, before: seq<Move>, sh: Schedule, k: nat, count: nat, rest: seq<Task>) returns (after: seq<Move>)
    requires Came(s, t, before, sh, Thread(Invoking(count, rest), Some(k), false))
    requires rest != [] && Targets(rest[0], |sh.queues|)
    ensures Came(s, t, after, Push(sh, rest[0]), Thread(Invoking(count, rest[1..]), Some(k), false))
  {
    hide Came, Valid;
    var task, frame := rest[0], Inside(count, rest[1..]);
    var pushing := Thread(Pushing(task, frame), Some(k), false);
    CameOk(s, t, before, sh, Thread(Invoking(count, rest), Some(k), false));
    after := On(s, t, before, sh, Thread(Invoking(count, rest), Some(k), false), Go);
    CameOk(s, t, after, sh, pushing);
    after := On(s, t, after, sh, pushing, Atomically);
    if sh.queues[task.target] == [] {
      var scheduling := Thread(Scheduling(task.target, frame), Some(k), false);
      CameOk(s, t, after, Enqueue(sh, task), scheduling);
      after := On(s, t, after, Enqueue(sh, task), scheduling, Go);
    }
  }

  lemma CameOk(s: State, t: nat, schedule: seq<Move>, sh: Schedule, th: Thread)
    requires Came(s, t, schedule, sh, th)
    ensures StateOk(s) && t < |s.threads| && Valid(sh) && ThreadOk(th, |sh.queues|) && Disciplined(th)
  {
  }

  /** The rest of a turn that has run `count` tasks. */
  lemma {:induction false} TurnIsARun(s: State, t: nat, before: seq<Move>, sh: Schedule, k: nat, count: nat)
    returns (after: seq<Move>)
    requires Came(s, t, before, sh, Thread(Looping(count), Some(k), false))
    requires k < |sh.queues| && count < sh.limit
    ensures Came(s, t, after, Turn(sh, k, sh.limit - count), Thread(Checking, Some(k), false))
    decreases sh.limit - count
  {
    hide Came, Valid, Turn, PushAll;
    CameOk(s, t, before, sh, Thread(Looping(count), Some(k), false));
    after := On(s, t, before, sh, Thread(Looping(count), Some(k), false), Go);
    if sh.queues[k] == [] {
      TurnOver(sh, k, sh.limit - count);
    } else {
      var pushes := sh.queues[k][0].pushes;
      TurnFront(sh, k, sh.limit - count);
      after := PushesAreARun(s, t, after, Pop(sh, k), k, count, pushes);
      var sh' := PushAll(Pop(sh, k), pushes);
      var invoked := Thread(Invoking(count, []), Some(k), false);
      CameOk(s, t, after, sh', invoked);
      after := On(s, t, after, sh', invoked, Go);
      if count + 1 < sh'.limit {
        after := TurnIsARun(s, t, after, sh', k, count + 1);
      } else {
        TurnOver(sh', k, 0);
      }
    }
  }

  /** A turn from its entry to its end. */
  lemma ProcessIsARun(s: State, t: nat, before: seq<Move>, sh: Schedule, k: nat) returns (after: seq<Move>)
    requires Came(s, t, before, sh, Thread(Entering(k), None, false))
    ensures k < |sh.queues| && Valid(sh) && Came(s, t, after, Process(sh, k), Resting())
  {
    hide Came, Valid, Turn;
    CameOk(s, t, before, sh, Thread(Entering(k), None, false));
    LimitPositive(sh);
    after := On(s, t, before, sh, Thread(Entering(k), None, false), Go);
    after := TurnIsARun(s, t, after, sh, k, 0);
    var sh' := Turn(sh, k, sh.limit);
    var checking := Thread(Checking, Some(k), false);
    CameOk(s, t, after, sh', checking);
    after := On(s, t, after, sh', checking, Go);
    if sh'.queues[k] != [] {
      CameOk(s, t, after, sh', Thread(Requeuing, Some(k), false));
      after := On(s, t, after, sh', Thread(Requeuing, Some(k), false), Go);
    }
    var sh'' := Finish(sh', k);
    CameOk(s, t, after, sh'', Thread(Leaving, Some(k), false));
    after := On(s, t, after, sh'', Thread(Leaving, Some(k), false), Go);
  }

  lemma LimitPositive(s: Schedule)
    requires Valid(s)
    ensures s.limit > 0
  {
  }

  lemma Nothing(s: State, t: nat)
    requires StateOk(s) && t < |s.threads|
    ensures Came(s, t, [], s.shared, s.threads[t])
  {
    assert ThreadOk(s.threads[t], |s.shared.queues|) && Disciplined(s.threads[t]);
    assert s.threads[t := s.threads[t]] == s.threads;
  }

  /** A worker call, from any state, is a run of its thread alone. */
  lemma WorkerCallIsARun(s: State, t: nat) returns (schedule: seq<Move>)
    requires StateOk(s) && t < |s.threads| && s.threads[t].pc == Idle
    ensures Alone(schedule, t) && Run(s, schedule) == s.(shared := WorkerCall(s.shared))
  {
    IdleRests(s, t);
    Nothing(s, t);
    var sh := s.shared;
    if sh.ready == [] {
      schedule := [];
    } else {
      schedule := On(s, t, [], sh, Resting(), Poll);
      schedule := ProcessIsARun(s, t, schedule, sh.(ready := sh.ready[1..]), sh.ready[0]);
    }
  }

  lemma {:induction false} RunAppend(s: State, a: seq<Move>, b: seq<Move>)
    requires StateOk(s)
    ensures Run(s, a + b) == Run(Run(s, a), b)
    decreases |a|
  {
    if a == [] {
      assert a + b == b;
    } else {
      hide Step;
      assert (a + b)[1..] == a[1..] + b;
      RunAppend(Step(s, a[0]), a[1..], b);
    }
  }

  lemma AloneAppend(a: seq<Move>, b: seq<Move>, t: nat)
    requires Alone(a, t) && Alone(b, t)
    ensures Alone(a + b, t)
  {
  }

  lemma SharedIsValid(s: State)
    requires StateOk(s)
    ensures Valid(s.shared)
  {
  }

  lemma CallsNext(s: Schedule, n: nat)
    requires Valid(s) && n > 0
    ensures WorkerCalls(s, n) == WorkerCall(WorkerCalls(s, n - 1))
  {
  }

  /** One more call at the end of a run of this thread. */
  lemma OneMoreCall(s: State, t: nat, before: seq<Move>, sh: Schedule) returns (after: seq<Move>)
    requires StateOk(s) && t < |s.threads| && s.threads[t].pc == Idle && Alone(before, t)
    requires Run(s, before) == s.(shared := sh)
    ensures Valid(sh) && Alone(after, t) && Run(s, after) == s.(shared := WorkerCall(sh))
  {
    hide Run, WorkerCall, Valid, Alone;
    var r := Run(s, before);
    SharedIsValid(r);
    var last := WorkerCallIsARun(r, t);
    after := before + last;
    RunAppend(s, before, last);
    AloneAppend(before, last, t);
  }

  /** So is any number of calls in a row. */
  lemma {:induction false} WorkerCallsAreARun(s: State, t: nat, n: nat) returns (schedule: seq<Move>)
    requires StateOk(s) && t < |s.threads| && s.threads[t].pc == Idle
    ensures Alone(schedule, t) && Run(s, schedule) == s.(shared := WorkerCalls(s.shared, n))
  {
    SharedIsValid(s);
    if n == 0 {
      schedule := [];
    } else {
      hide Run, WorkerCall, StateOk, Valid, Alone, WorkerCalls;
      schedule := WorkerCallsAreARun(s, t, n - 1);
      schedule := OneMoreCall(s, t, schedule, WorkerCalls(s.shared, n - 1));
      CallsNext(s.shared, n);
    }
  }

  /** A first step, then a run of the same thread. */
  lemma ThenRest(s: State, first: Move, rest: seq<Move>, t: nat, sh: Schedule)
    requires StateOk(s) && first.0 == t && Came(Step(s, first), t, rest, sh, Resting())
    ensures forall move <- [first] + rest :: move.0 == t
    ensures Run(s, [first] + rest) == At(Step(s, first), t, sh, Resting())
  {
    hide Step;
    assert ([first] + rest)[1..] == rest;
  }

  /** A submission, from any state, is a run of its thread alone: it submits the task and
      then, if the queue was empty, gives it its turn. */
  lemma SubmitIsARun(s: State, t: nat, task: Task) returns (schedule: seq<Move>)
    requires StateOk(s) && t < |s.threads| && s.threads[t].pc == Idle && Targets(task, |s.shared.queues|)
    ensures forall move <- schedule :: move.0 == t
    ensures Run(s, schedule)
            == s.(shared := TaskScheduling.Submit(s.shared, task), submitted := s.submitted + [task])
  {
    IdleRests(s, t);
    var first := (t, Choice.Submit(task));
    var s1 := Step(s, first);
    var pushing := Thread(Pushing(task, Outside), None, false);
    assert s1 == At(s.(submitted := s.submitted + [task]), t, s.shared, pushing);
    hide Step, Valid, Process, Came;
    Nothing(s1, t);
    CameOk(s1, t, [], s.shared, pushing);
    var rest := On(s1, t, [], s.shared, pushing, Atomically);
    var sh := Enqueue(s.shared, task);
    if s.shared.queues[task.target] == [] {
      var scheduling := Thread(Scheduling(task.target, Outside), None, false);
      CameOk(s1, t, rest, sh, scheduling);
      rest := On(s1, t, rest, sh, scheduling, Go);
      rest := ProcessIsARun(s1, t, rest, sh, task.target);
    }
    schedule := [first] + rest;
    ThenRest(s, first, rest, t, TaskScheduling.Submit(s.shared, task));
    assert s1.threads[t := Resting()] == s.threads;
  }
}
