/** The service: its request counter, its idle sessions, and the spreading of requests over the
    request queues of its worker threads. */
module Services {
  import opened Sums
  import opened RoundRobin
  import opened IOProtocol
  import opened IOTokens
  import opened IORequests

  /** The counter is a 32-bit atomic: it wraps around. */
  function Incremented(index: int): (next: int)
    requires -INT32_MAX_PLUS_1 <= index < INT32_MAX_PLUS_1
    ensures forall ticket: nat :: index == Wrapped(ticket) ==> next == Wrapped(ticket + 1)
  {
    if index == INT32_MAX_PLUS_1 - 1 then -INT32_MAX_PLUS_1 else index + 1
  }

  /** How many of the first `m` requests the pool has an operation for. */
  function Granted(slots: seq<Option<nat>>, m: nat): (n: nat)
    requires m <= |slots|
    ensures n <= m
  {
    if m == 0 then 0 else Granted(slots, m - 1) + if slots[m - 1].Some? then 1 else 0
  }

  /** The accepts that end up with thread `j` when sessions 0 to `m - 1` are taken in order;
      `slots` are the pool's answers. */
  function AcceptsFor(m: nat, threads: nat, j: nat, slots: seq<Option<nat>>): seq<Operation>
    requires threads > 0 && m <= |slots|
  {
    if m == 0 then []
    else
      AcceptsFor(m - 1, threads, j, slots)
      + if slots[m - 1].Some? && ThreadIndex(Granted(slots, m - 1), threads) == j
        then [NewOperation(slots[m - 1].value, m - 1, Accept)] else []
  }

  /** The thread that ticket `p` is dealt to, and its place there. */
  function SeatOf(p: nat, threads: nat): nat
    requires threads > 0
  {
    p % threads
  }

  function RoundOf(p: nat, threads: nat): nat
    requires threads > 0
  {
    p / threads
  }

  /** The sessions that get an operation are dealt out like cards: the `g`-th of them listens on
      thread `g % threads`, behind those that this thread was dealt before. */
  lemma {:induction false} AcceptsAreDealt(m: nat, threads: nat, slots: seq<Option<nat>>, p: nat)
    requires 0 < threads && p < m <= |slots| && m <= INT32_MAX_PLUS_1 && slots[p].Some?
    ensures var g := Granted(slots, p);
            var accepts := AcceptsFor(m, threads, SeatOf(g, threads), slots);
            && RoundOf(g, threads) < |accepts|
            && accepts[RoundOf(g, threads)] == NewOperation(slots[p].value, p, Accept)
  {
    if p < m - 1 {
      hide SeatOf, RoundOf, ThreadIndex, Granted;
      AcceptsAreDealt(m - 1, threads, slots, p);
    } else {
      var g := Granted(slots, p);
      AcceptsCounted(p, threads, SeatOf(g, threads), slots);
      InRangeIndex(g, threads);
      hide ThreadIndex, Granted;
    }
  }

  /** Every thread gets its share of them. */
  lemma {:induction false} AcceptsCounted(m: nat, threads: nat, j: nat, slots: seq<Option<nat>>)
    requires 0 < threads && j < threads && m <= |slots| && m <= INT32_MAX_PLUS_1
    ensures |AcceptsFor(m, threads, j, slots)|
            == Granted(slots, m) / threads + if j < Granted(slots, m) % threads then 1 else 0
  {
    if m == 0 {
      QuotientUnique(0, threads, 0, 0);
    } else {
      hide ThreadIndex;
      AcceptsCounted(m - 1, threads, j, slots);
      InRangeIndex(Granted(slots, m - 1), threads);
      NextQuotient(Granted(slots, m - 1), threads);
    }
  }

  class Service {
    const threadCount: nat
    const sessionCount: nat
    const queues: seq<IORequestQueue>
    var requestIndex: int
    var sessionsQueue: seq<nat>
    ghost var tickets: nat

    ghost predicate Valid()
      reads this
    {
      && 0 < threadCount == |queues|
      && requestIndex == Wrapped(tickets)
      && forall i, j :: 0 <= i < j < |queues| ==> queues[i] != queues[j]
    }

    /** `initialize`: makes the threads and the sessions and requests `backlog` accepts. `slots`
        are the answers of the accept pool; a session for which it has no operation leaves the
        idle queue all the same. */
    constructor (threads: nat, sessions: nat, backlog: nat, slots: seq<Option<nat>>)
      requires threads > 0 && backlog == |slots|
      ensures Valid() && threadCount == threads && sessionCount == sessions
      ensures forall j :: 0 <= j < threads ==> fresh(queues[j])
      ensures var m := if backlog < sessions then backlog else sessions;
              && tickets == Granted(slots, m)
              && sessionsQueue == UpTo(sessions)[m..]
              && forall j :: 0 <= j < threads ==> queues[j].requests == AcceptsFor(m, threads, j, slots)
    {
      hide ThreadIndex, TruncatedRemainder;
      threadCount, sessionCount := threads, sessions;
      requestIndex, sessionsQueue, tickets := 0, [], 0;
      var made := InitializeThreads(threads);
      queues := made;
      new;
      for i := 0 to sessions
        invariant sessionsQueue == UpTo(i) && tickets == 0 && requestIndex == 0
        invariant forall j :: 0 <= j < threads ==> queues[j].requests == []
      {
        sessionsQueue := sessionsQueue + [i];
      }
      RequestBacklog(backlog, slots);
    }

    /** The loop of `initialize` that requests the accepts. */
    method RequestBacklog(backlog: nat, slots: seq<Option<nat>>)
      requires Valid() && backlog == |slots| && tickets == 0 && sessionsQueue == UpTo(sessionCount)
      requires forall j :: 0 <= j < threadCount ==> queues[j].requests == []
      modifies this`requestIndex, this`tickets, this`sessionsQueue, queues
      ensures Valid()
      ensures var m := if backlog < sessionCount then backlog else sessionCount;
              && tickets == Granted(slots, m)
              && sessionsQueue == UpTo(sessionCount)[m..]
              && forall j :: 0 <= j < threadCount ==> queues[j].requests == AcceptsFor(m, threadCount, j, slots)
    {
      hide ThreadIndex, TruncatedRemainder;
      ghost var taken := 0;
      for i := 0 to backlog
        invariant Valid()
        invariant taken == if i < sessionCount then i else sessionCount
        invariant tickets == Granted(slots, taken) && sessionsQueue == UpTo(sessionCount)[taken..]
        invariant forall j :: 0 <= j < threadCount ==>
                    queues[j].requests == AcceptsFor(taken, threadCount, j, slots)
      {
        RequestAcceptOne(slots[i], 0);
        taken := if i < sessionCount then i + 1 else sessionCount;
      }
    }

    static method InitializeThreads(threads: nat) returns (made: seq<IORequestQueue>)
      ensures |made| == threads
      ensures forall j :: 0 <= j < threads ==> fresh(made[j]) && made[j].requests == []
      ensures forall i, j :: 0 <= i < j < threads ==> made[i] != made[j]
    {
      made := [];
      for i := 0 to threads
        invariant |made| == i
        invariant forall j :: 0 <= j < i ==> fresh(made[j]) && made[j].requests == []
        invariant forall k, j :: 0 <= k < j < i ==> made[k] != made[j]
      {
        var queue := new IORequestQueue();
        made := made + [queue];
      }
    }

    /** `request_io`: draws a ticket and queues the operation with the thread it names, if any. */
    method RequestIo(op: Operation, refusals: nat)
      requires Valid()
      modifies this`requestIndex, this`tickets, queues
      ensures Valid() && tickets == old(tickets) + 1
      ensures forall j :: 0 <= j < threadCount ==>
                queues[j].requests
                == old(queues[j].requests)
                   + if ThreadIndex(old(tickets), threadCount) == j && refusals < PUSH_ATTEMPTS then [op] else []
    {
      var index := TruncatedRemainder(requestIndex, threadCount);
      requestIndex := Incremented(requestIndex);
      tickets := tickets + 1;
      if index < 0 || index >= threadCount {
        return;
      }
      queues[index].PushRequest(op, refusals);
    }

    /** `request_accept_one`: the session at the head of the idle queue is taken even when the
        pool has no operation for it. */
    method RequestAcceptOne(slot: Option<nat>, refusals: nat)
      requires Valid()
      modifies this`requestIndex, this`tickets, this`sessionsQueue, queues
      ensures Valid()
      ensures old(sessionsQueue) == [] || slot == None ==>
                tickets == old(tickets)
                && forall j :: 0 <= j < threadCount ==> queues[j].requests == old(queues[j].requests)
      ensures sessionsQueue == if old(sessionsQueue) == [] then [] else old(sessionsQueue)[1..]
      ensures old(sessionsQueue) != [] && slot != None ==>
                && tickets == old(tickets) + 1
                && forall j :: 0 <= j < threadCount ==>
                     queues[j].requests
                     == old(queues[j].requests)
                        + if ThreadIndex(old(tickets), threadCount) == j && refusals < PUSH_ATTEMPTS
                          then [NewOperation(slot.value, old(sessionsQueue)[0], Accept)] else []
    {
      if sessionsQueue == [] {
        return;
      }
      var session := sessionsQueue[0];
      sessionsQueue := sessionsQueue[1..];
      if slot.Some? {
        RequestIo(NewOperation(slot.value, session, Accept), refusals);
      }
    }

    /** `on_session_closed`: the session goes to the end of the idle queue, and the one that
        has waited longest listens. */
    method OnSessionClosed(session: nat, slot: Option<nat>, refusals: nat)
      requires Valid()
      modifies this`requestIndex, this`tickets, this`sessionsQueue, queues
      ensures Valid()
      ensures sessionsQueue == (old(sessionsQueue) + [session])[1..]
      ensures slot == None ==> tickets == old(tickets)
      ensures forall j :: 0 <= j < threadCount ==>
                queues[j].requests
                == old(queues[j].requests)
                   + if slot.Some? && ThreadIndex(old(tickets), threadCount) == j && refusals < PUSH_ATTEMPTS
                     then [NewOperation(slot.value, (old(sessionsQueue) + [session])[0], Accept)] else []
    {
      sessionsQueue := sessionsQueue + [session];
      RequestAcceptOne(slot, refusals);
    }
  }

  /** The machine after thread `t` has requested `op`: a ticket is drawn, and the operation is in
      the queue that it names, or refused. */
  function Requested(s: State, t: nat, op: Operation, rest: seq<Action>): State
    requires t < |s.workers|
  {
    var j := ThreadIndex(s.tickets, |s.workers|);
    var r := SetWorker(s.(tickets := s.tickets + 1), t, s.workers[t].(todo := rest));
    if j < 0 then
      r.(dropped := s.dropped + [op], failed := s.failed + if op.body == Accept then {op.session} else {})
    else SetWorker(r, j, r.workers[j].(requests := r.workers[j].requests + [op]))
  }

  /** `RequestIo` is a run of the protocol machine, in which nothing else changes. */
  lemma RequestIoIsARun(s: State, t: nat, op: Operation, rest: seq<Action>) returns (schedule: seq<Move>)
    requires t < |s.workers| && s.workers[t].todo == [Route(op)] + rest
    ensures Run(s, schedule) == Requested(s, t, op, rest)
    ensures forall j :: 0 <= j < |s.workers| ==>
              Requested(s, t, op, rest).workers[j].requests
              == s.workers[j].requests + if ThreadIndex(s.tickets, |s.workers|) == j then [op] else []
  {
    var next := Work(t, Proceed(None, []));
    var drawn := Step(s, next);
    assert [next][1..] == [] && Run(drawn, []) == drawn;
    if ThreadIndex(s.tickets, |s.workers|) < 0 {
      schedule := [next];
    } else {
      schedule := [next] + [next];
      assert schedule[1..] == [next] && Run(drawn, [next]) == Step(drawn, next);
      var j := ThreadIndex(s.tickets, |s.workers|);
      assert drawn.workers[t].todo[1..] == rest;
      assert drawn.workers[t := drawn.workers[t].(todo := rest)] == s.workers[t := s.workers[t].(todo := rest)];
    }
  }
}
