/** The request queue of a worker thread and its submission ring. */
module IORequests {
  import opened Sums
  import opened IOProtocol
  import opened RoundRobin

  /** `push_request` gives up after this many attempts. */
  const PUSH_ATTEMPTS := 11

  class IORequestQueue {
    var requests: seq<Operation>
    var prepared: seq<Operation>
    var submitted: seq<Operation>

    constructor ()
      ensures requests == prepared == submitted == []
    {
      requests, prepared, submitted := [], [], [];
    }

    /** Pushes an operation. `refusals` is how often the queue would refuse it before taking
        it; an operation refused eleven times is lost without a word. */
    method PushRequest(op: Operation, refusals: nat)
      modifies this`requests
      ensures requests == if refusals < 11 then old(requests) + [op] else old(requests)
    {
      var pushed, count, left := false, 0, refusals;
      var retry := true;
      while retry
        invariant 0 <= count <= PUSH_ATTEMPTS && pushed == (refusals < count)
        invariant left == if pushed then 0 else refusals - count
        invariant retry <==> !pushed && count < PUSH_ATTEMPTS
        invariant requests == if pushed then old(requests) + [op] else old(requests)
        decreases PUSH_ATTEMPTS - count
      {
        if left == 0 {
          requests := requests + [op];
          pushed := true;
        } else {
          left := left - 1;
        }
        count := count + 1;
        retry := !pushed && count < PUSH_ATTEMPTS;
      }
    }

    method Submit()
      modifies this`prepared, this`submitted
      ensures submitted == old(submitted + prepared) && prepared == []
    {
      submitted, prepared := submitted + prepared, [];
    }

    /** Takes a submission entry for the operation; a close submits at once. */
    method RequestIo(op: Operation)
      modifies this`prepared, this`submitted
      ensures submitted + prepared == old(submitted + prepared) + [op]
      ensures op.body == Close ==> prepared == []
      ensures op.body != Close ==> submitted == old(submitted)
    {
      prepared := prepared + [op];
      if op.body == Close {
        Submit();
      }
    }

    /** Every queued operation is submitted, in queue order and behind those submitted before. */
    method FlushRequests()
      modifies this
      ensures requests == []
      ensures submitted + prepared == old(submitted + prepared + requests)
      ensures old(requests) != [] || old(prepared) == [] ==> prepared == []
    {
      if requests == [] {
        return;
      }
      while requests != []
        invariant submitted + prepared + requests == old(submitted + prepared + requests)
        decreases |requests|
      {
        var op := requests[0];
        requests := requests[1..];
        RequestIo(op);
      }
      Submit();
    }
  }

  /** A thread that flushes step by step, while other threads do nothing. */
  function FlushSteps(t: nat, n: nat): seq<Move> {
    seq(n, _ => Work(t, Flush))
  }

  /** The worker once its queue has been flushed. */
  function Flushed(w: Worker): Worker {
    w.(phase := Tasking, requests := [], prepared := [], submitted := w.submitted + w.prepared + w.requests)
  }

  /** The worker after one operation. */
  function FlushedOne(w: Worker): (r: Worker)
    requires w.requests != []
    ensures |r.requests| < |w.requests|
    ensures Flushed(r) == Flushed(w)
  {
    var all := w.prepared + [w.requests[0]];
    assert w.submitted + all + w.requests[1..] == w.submitted + w.prepared + w.requests;
    assert w.submitted + all + [] + w.requests[1..] == w.submitted + all + w.requests[1..];
    if w.requests[0].body == Close
    then w.(requests := w.requests[1..], prepared := [], submitted := w.submitted + all)
    else w.(requests := w.requests[1..], prepared := all)
  }

  lemma FlushStep(s: State, t: nat)
    requires t < |s.workers| && s.workers[t].todo == [] && s.workers[t].phase == Flushing
    ensures var w := s.workers[t];
            Step(s, Work(t, Flush)) == SetWorker(s, t, if w.requests == [] then Flushed(w) else FlushedOne(w))
    ensures var w, v := s.workers[t], Step(s, Work(t, Flush)).workers[t];
            w.requests != [] ==>
              && v.requests == w.requests[1..]
              && v.submitted + v.prepared == w.submitted + w.prepared + [w.requests[0]]
              && (w.requests[0].body == Close ==> v.prepared == [])
              && (w.requests[0].body != Close ==> v.submitted == w.submitted)
  {
    var w := s.workers[t];
    assert w.submitted + w.prepared + [] == w.submitted + w.prepared;
  }

  /** A worker goes through its phases in turn, and no step changes the phase of another. It runs
      tasks only when everything that was queued has been submitted, it waits again only when
      nothing is left to do, and then it holds no operation. */
  lemma PhasesInTurn(s: State, move: Move, t: nat)
    requires t < |s.workers|
    ensures var w, v := s.workers[t], Step(s, move).workers[t];
            v.phase != w.phase ==>
              && move.Work? && move.worker == t && w.todo == []
              && match w.phase
                 case Waiting => v.phase == Flushing
                 case Flushing =>
                   v.phase == Tasking && w.requests == [] && v.prepared == [] && v.submitted == w.submitted + w.prepared
                 case Tasking => v.phase == Waiting && v.held == None
  {
    hide ActionStep;
    if move.Work? && move.worker < |s.workers| && s.workers[move.worker].todo != [] && move.choice.Proceed? {
      ActionKeepsPhases(s, move.worker, move.choice.slot, move.choice.demands, t);
    }
  }

  lemma ActionKeepsPhases(s: State, u: nat, slot: Option<nat>, demands: seq<Demand>, t: nat)
    requires u < |s.workers| && s.workers[u].todo != [] && t < |s.workers|
    ensures ActionStep(s, u, slot, demands).workers[t].phase == s.workers[t].phase
  {
    hide Handled, Reactions, ThreadIndex, Request;
    var rest := s.workers[u].todo[1..];
    forall session, body
      ensures |Request(s, u, rest, session, body, slot).workers| == |s.workers|
      ensures Request(s, u, rest, session, body, slot).workers[t].phase == s.workers[t].phase
    {
      RequestKeepsPhases(s, u, rest, session, body, slot, t);
    }
  }

  lemma RequestKeepsPhases(s: State, u: nat, rest: seq<Action>, session: nat, body: Body, slot: Option<nat>, t: nat)
    requires u < |s.workers| && t < |s.workers|
    ensures |Request(s, u, rest, session, body, slot).workers| == |s.workers|
    ensures Request(s, u, rest, session, body, slot).workers[t].phase == s.workers[t].phase
  {
  }

  lemma RunFirst(s: State, move: Move, rest: seq<Move>)
    ensures Run(s, [move] + rest) == Run(Step(s, move), rest)
    ensures Run(s, []) == s
  {
    hide Step;
    assert ([move] + rest)[1..] == rest;
  }

  /** The loop of `FlushRequests` is a run of the protocol machine: one step for every queued
      operation and one that submits. */
  lemma {:induction false} FlushIsARun(s: State, t: nat)
    requires t < |s.workers| && s.workers[t].todo == [] && s.workers[t].phase == Flushing
    ensures var w := s.workers[t];
            Run(s, FlushSteps(t, |w.requests| + 1)) == SetWorker(s, t, Flushed(w))
    decreases |s.workers[t].requests|
  {
    var w, move := s.workers[t], Work(t, Flush);
    assert FlushSteps(t, |w.requests| + 1) == [move] + FlushSteps(t, |w.requests|);
    FlushStep(s, t);
    RunFirst(s, move, FlushSteps(t, |w.requests|));
    hide Run, Step, Flushed;
    if w.requests == [] {
      RunFirst(Step(s, move), move, []);
      assert FlushSteps(t, 0) == [];
    } else {
      var next := SetWorker(s, t, FlushedOne(w));
      FlushIsARun(next, t);
      assert s.workers[t := FlushedOne(w)][t := Flushed(w)] == s.workers[t := Flushed(w)];
    }
  }
}
