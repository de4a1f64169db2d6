/** The scheduler in place: one worker thread, its thread-local current serializer, the
    serializers' queues and the ready queue. Every method computes what `TaskScheduling` says. */
module TaskRunning {
  import opened Sums
  import opened TaskScheduling

  class TaskSerializer {
    var taskQueue: seq<Task>

    constructor ()
      ensures taskQueue == []
    {
      taskQueue := [];
    }

    predicate Empty()
      reads this
    {
      taskQueue == []
    }

    method Pop() returns (task: Option<Task>)
      modifies this
      ensures old(taskQueue) == [] ==> task == None && taskQueue == []
      ensures old(taskQueue) != [] ==> task == Some(old(taskQueue)[0]) && taskQueue == old(taskQueue)[1..]
    {
      if taskQueue == [] {
        return None;
      }
      task := Some(taskQueue[0]);
      taskQueue := taskQueue[1..];
    }
  }

  /** The queues of a list of serializers. */
  ghost function QueuesOf(serializers: seq<TaskSerializer>): (queues: seq<seq<Task>>)
    reads serializers
    ensures |queues| == |serializers|
    ensures forall k :: 0 <= k < |queues| ==> queues[k] == serializers[k].taskQueue
  {
    if serializers == [] then [] else [serializers[0].taskQueue] + QueuesOf(serializers[1..])
  }

  class TaskDistributor {
    /** All serializers; a pointer to one is its index. */
    const serializers: seq<TaskSerializer>
    /** Tasks in a turn: `MAX_PROCESS_TASK_COUNT`, set by the constructor. */
    const limit: nat
    var serializerQueue: seq<nat>
    var current: Option<nat>
    ghost var pushed: seq<seq<Task>>
    ghost var started: seq<seq<Task>>

    ghost function Contents(): Schedule
      reads this, serializers
    {
      Schedule(QueuesOf(serializers), serializerQueue, pushed, started, limit)
    }

    ghost predicate Distinct() {
      forall i, j :: 0 <= i < j < |serializers| ==> serializers[i] != serializers[j]
    }

    ghost predicate Valid()
      reads this, serializers
    {
      Distinct() && TaskScheduling.Valid(Contents())
    }

    constructor (serializers: seq<TaskSerializer>)
      requires forall i, j :: 0 <= i < j < |serializers| ==> serializers[i] != serializers[j]
      requires forall i :: 0 <= i < |serializers| ==> serializers[i].Empty()
      ensures Valid() && current == None && this.serializers == serializers
      ensures limit == 30 && serializerQueue == [] && Contents() == Start(|serializers|, limit)
    {
      limit := MAX_PROCESS_TASK_COUNT;
      this.serializers, serializerQueue, current := serializers, [], None;
      pushed, started := seq(|serializers|, _ => []), seq(|serializers|, _ => []);
      new;
      assert QueuesOf(serializers) == seq(|serializers|, _ => []);
    }

    /** The queue of serializer `k` has changed and no other has. */
    twostate lemma OneQueueChanged(k: nat)
      requires Distinct() && k < |serializers|
      requires forall i :: 0 <= i < |serializers| && i != k ==> unchanged(serializers[i])
      ensures QueuesOf(serializers) == old(QueuesOf(serializers))[k := serializers[k].taskQueue]
    {
    }

    method AddTaskSerializer(k: nat)
      modifies this`serializerQueue
      ensures serializerQueue == old(serializerQueue) + [k]
    {
      serializerQueue := serializerQueue + [k];
    }

    method Enqueue(task: Task)
      requires Valid() && task.target < |serializers|
      modifies this`pushed, serializers
      ensures Contents() == TaskScheduling.Enqueue(old(Contents()), task)
    {
      var serializer := serializers[task.target];
      serializer.taskQueue := serializer.taskQueue + [task];
      pushed := pushed[task.target := pushed[task.target] + [task]];
      OneQueueChanged(task.target);
    }

    /** `TaskSerializer::push`: from outside any task the first task in a queue is processed at
        once; from inside one it makes its serializer ready. */
    method Push(task: Task)
      requires Valid() && Targets(task, |serializers|)
      modifies this, serializers
      ensures Valid() && current == old(current)
      ensures Contents() == if old(current) == None then Submit(old(Contents()), task)
                            else TaskScheduling.Push(old(Contents()), task)
      decreases if current == None then 5 else 0
    {
      var wasEmpty := serializers[task.target].Empty();
      ghost var before := Contents();
      PushCases(before, task);
      hide TaskScheduling.Valid, TaskScheduling.Push, TaskScheduling.Enqueue, Submit, Process;
      Enqueue(task);
      if wasEmpty {
        if current == None {
          ProcessTaskSerializer(task.target);
        } else {
          AddTaskSerializer(task.target);
        }
      }
    }

    /** What a push adds to enqueueing: nothing, an entry or a turn. */
    static lemma PushCases(s: Schedule, task: Task)
      requires TaskScheduling.Valid(s) && Targets(task, |s.queues|)
      ensures Follows(s, TaskScheduling.Enqueue(s, task))
      ensures var k, r := task.target, TaskScheduling.Enqueue(s, task);
              if s.queues[k] == [] then
                Submit(s, task) == Process(r, k) && TaskScheduling.Push(s, task) == r.(ready := r.ready + [k])
              else Submit(s, task) == TaskScheduling.Push(s, task) == r
    {
      EnqueueValid(s, task);
    }

    /** Running a task: it pushes what it has to push, in order. */
    method Invoke(task: Task)
      requires Valid() && current != None && TargetsAll(task.pushes, |serializers|)
      modifies this, serializers
      ensures Valid() && current == old(current)
      ensures Contents() == PushAll(old(Contents()), task.pushes)
      ensures forall k :: 0 <= k < |serializers| ==>
                Contents().queues[k] == old(Contents().queues[k]) + TasksFor(task.pushes, k)
      decreases 1
    {
      PushAllInOrder(Contents(), task.pushes);
      var i := 0;
      while i < |task.pushes|
        invariant 0 <= i <= |task.pushes| && Valid() && current == old(current)
        invariant TargetsAll(task.pushes[i..], |serializers|)
        invariant PushAll(Contents(), task.pushes[i..]) == PushAll(old(Contents()), task.pushes)
      {
        assert Targets(task.pushes[i..][0], |serializers|);
        assert task.pushes[i..][1..] == task.pushes[i + 1..];
        Push(task.pushes[i]);
        i := i + 1;
      }
    }

    /** Pops the front task of serializer `k`, which thereby starts. */
    method PopFrom(k: nat) returns (task: Option<Task>)
      requires Valid() && k < |serializers|
      modifies this`started, serializers
      ensures Valid()
      ensures old(Contents()).queues[k] == [] ==> task == None && Contents() == old(Contents())
      ensures old(Contents()).queues[k] != [] ==>
                && task == Some(old(Contents()).queues[k][0])
                && Contents() == TaskScheduling.Pop(old(Contents()), k)
                && TargetsAll(task.value.pushes, |serializers|)
    {
      ghost var before := Contents();
      assert k < |started|;
      hide TaskScheduling.Valid;
      task := serializers[k].Pop();
      OneQueueChanged(k);
      if task != None {
        FrontTargets(before, k);
        started := started[k := started[k] + [task.value]];
        assert Contents() == TaskScheduling.Pop(before, k);
      } else {
        assert before.queues[k := before.queues[k]] == before.queues;
      }
    }

    /** The body of the loop: pops the front task of serializer `k`, if there is one, and runs
        it. With `left` tasks allowed, what remains is the turn for one less. */
    method RunOne(k: nat, ghost left: nat) returns (ran: bool)
      requires Valid() && k < |serializers| && current == Some(k) && left > 0
      modifies this, serializers
      ensures Valid() && current == Some(k)
      ensures ran <==> old(Contents()).queues[k] != []
      ensures !ran ==> Contents() == old(Contents())
      ensures ran ==> Turn(Contents(), k, left - 1) == Turn(old(Contents()), k, left)
      decreases 2
    {
      ghost var before := Contents();
      hide TaskScheduling.Valid, TaskScheduling.Pop, Turn, PushAll, QueuesOf;
      var task := PopFrom(k);
      ran := task != None;
      if ran {
        TurnFront(before, k, left);
        Invoke(task.value);
      }
    }

    /** The loop of a turn: up to 30 tasks of serializer `k`. */
    method RunTurn(k: nat)
      requires Valid() && k < |serializers| && current == Some(k)
      modifies this, serializers
      ensures Valid() && current == Some(k)
      ensures Contents() == Turn(old(Contents()), k, limit)
      decreases 3
    {
      assert limit > 0;
      hide TaskScheduling.Valid, Turn, QueuesOf;
      ghost var end := Turn(Contents(), k, limit);
      var processCount := 0;
      while true
        invariant Valid() && current == Some(k) && processCount < limit
        invariant Turn(Contents(), k, limit - processCount) == end
        decreases limit - processCount
      {
        var ran := RunOne(k, limit - processCount);
        if !ran {
          TurnOver(Contents(), k, limit - processCount);
          break;
        }
        processCount := processCount + 1;
        if processCount >= limit {
          TurnOver(Contents(), k, 0);
          break;
        }
      }
    }

    /** One turn, then back into the ready queue if some tasks are left. The entry assertion
        holds of every call. */
    method ProcessTaskSerializer(k: nat)
      requires Valid() && k < |serializers|
      requires current == None
      modifies this, serializers
      ensures Valid() && current == None
      ensures Contents() == Process(old(Contents()), k)
      decreases 4
    {
      assert current == None;
      current := Some(k);
      RunTurn(k);
      if !serializers[k].Empty() {
        AddTaskSerializer(k);
      }
      current := None;
      assert Contents() == Process(old(Contents()), k);
    }

    /** What a worker thread calls in every iteration. */
    method ProcessNext()
      requires Valid() && current == None
      modifies this, serializers
      ensures Valid() && current == None
      ensures Contents() == WorkerCall(old(Contents()))
    {
      assert current == None;
      if serializerQueue == [] {
        return;
      }
      var k := serializerQueue[0];
      serializerQueue := serializerQueue[1..];
      ProcessTaskSerializer(k);
    }
  }
}
