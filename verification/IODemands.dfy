/** What demands come to. Handlers and tasks ask for sends and closes; every demand becomes one
    operation of its own kind, in order, in the request queue of the thread that its ticket
    names. */
module IODemands {
  import opened Sums
  import opened RoundRobin
  import opened IOProtocol
  import opened IORequests
  import opened Services

  /** The operation that meets a demand. */
  function OperationFor(demand: Demand, slot: nat): Operation {
    match demand
    case SendOn(i) => Operation(OpId(SendPool, slot), i, Send)
    case CloseOf(i) => Operation(OpId(ClosePool, slot), i, Close)
  }

  /** In the step from `s` to `r` thread `t` acquires `op`, counts its reference and routes it
      next; no thread, session or queue sees anything else. */
  ghost predicate Acquires(s: State, r: State, t: nat, op: Operation)
    requires t < |s.workers| && s.workers[t].todo != []
  {
    && r.acquired == s.acquired + {op.id} && r.references == s.references + multiset{op.id}
    && r == s.(workers := s.workers[t := s.workers[t].(todo := [Route(op)] + s.workers[t].todo[1..])],
               acquired := r.acquired, references := r.references)
  }

  /** The request is dropped; an accept that is dropped is noted. */
  ghost predicate Drops(s: State, r: State, t: nat, session: nat, body: Body)
    requires t < |s.workers| && s.workers[t].todo != []
  {
    r == s.(workers := s.workers[t := s.workers[t].(todo := s.workers[t].todo[1..])],
            failed := s.failed + if body == Accept then {session} else {})
  }

  /** Whenever a thread runs this action and the pool offers a slot, it acquires this operation;
      a slot that is taken is no use to it. */
  ghost predicate Makes(action: Action, pool: Pool, session: nat, body: Body) {
    forall s: State, t: nat, slot: nat, demands: seq<Demand>
      {:trigger Step(s, Work(t, Proceed(Some(slot), demands)))} ::
      t < |s.workers| && s.workers[t].todo != [] && s.workers[t].todo[0] == action ==>
        if OpId(pool, slot) !in s.acquired
        then Acquires(s, Step(s, Work(t, Proceed(Some(slot), demands))), t, Operation(OpId(pool, slot), session, body))
        else Drops(s, Step(s, Work(t, Proceed(Some(slot), demands))), t, session, body)
  }

  ghost predicate MakesFor(action: Action, demand: Demand) {
    match demand
    case SendOn(i) => Makes(action, SendPool, i, Send)
    case CloseOf(i) => Makes(action, ClosePool, i, Close)
  }

  lemma SendMakes(i: nat)
    ensures Makes(RequestSend(i), SendPool, i, Send)
  {
  }

  lemma CloseMakes(i: nat)
    ensures Makes(RequestClose(i), ClosePool, i, Close)
  {
  }

  lemma AcceptMakes(i: nat)
    ensures Makes(RequestAccept(i), AcceptPool, i, Accept)
  {
  }

  lemma ActionsMake(demands: seq<Demand>)
    ensures |Actions(demands)| == |demands|
    ensures forall d :: 0 <= d < |demands| ==> MakesFor(Actions(demands)[d], demands[d])
  {
    hide Makes;
    forall d | 0 <= d < |demands|
      ensures MakesFor(Actions(demands)[d], demands[d])
    {
      SendMakes(demands[d].session);
      CloseMakes(demands[d].session);
    }
  }

  /** Application code plans, for each of its demands in turn, an action that makes the
      operation for it. */
  lemma ApplicationPlans(s: State, t: nat, demands: seq<Demand>)
    requires t < |s.workers| && s.workers[t].todo == [] && s.workers[t].phase == Tasking
    ensures var todo := Step(s, Work(t, Application(demands))).workers[t].todo;
            |todo| == |demands| && forall d :: 0 <= d < |demands| ==> MakesFor(todo[d], demands[d])
  {
    ActionsMake(demands);
  }

  /** The handler of a receive plans the demands of the message handlers, then the next receive.
      After an error it plans a close if there is an actor, and nothing else. */
  lemma ReceivePlans(s: State, t: nat, c: Completion, rest: seq<Action>, slot: Option<nat>, demands: seq<Demand>)
    requires t < |s.workers| && s.workers[t].todo == [Handle(c)] + rest
    requires c.op.body.Recv? && c.op.session < |s.sessions|
    ensures var todo := Step(s, Work(t, Proceed(slot, demands))).workers[t].todo;
            && (c.result >= 0 ==>
                  && |todo| == |demands| + 1 + |rest|
                  && todo[|demands|..] == [RequestReceive(c.op.session)] + rest
                  && forall d :: 0 <= d < |demands| ==> MakesFor(todo[d], demands[d]))
            && (c.result < 0 && s.sessions[c.op.session].hasActor ==>
                  todo != [] && Makes(todo[0], ClosePool, c.op.session, Close) && todo[1..] == rest)
            && (c.result < 0 && !s.sessions[c.op.session].hasActor ==> todo == rest)
  {
    hide Makes, MakesFor, Handled, Actions;
    ActionsMake(demands);
    CloseMakes(c.op.session);
  }

  /** The handler of an accept plans a receive and the next accept, or after an error nothing. */
  lemma AcceptPlans(s: State, t: nat, c: Completion, rest: seq<Action>, slot: Option<nat>, demands: seq<Demand>)
    requires t < |s.workers| && s.workers[t].todo == [Handle(c)] + rest && c.op.body.Accept?
    ensures Step(s, Work(t, Proceed(slot, demands))).workers[t].todo
            == (if c.result < 0 then [] else [RequestReceive(c.op.session), AcceptOne]) + rest
  {
    hide Handled;
  }

  /** The handlers of a close and of a send do nothing at all. */
  lemma OthersPlanNothing(s: State, t: nat, c: Completion, rest: seq<Action>, slot: Option<nat>, demands: seq<Demand>)
    requires t < |s.workers| && s.workers[t].todo == [Handle(c)] + rest && (c.op.body.Close? || c.op.body.Send?)
    ensures Step(s, Work(t, Proceed(slot, demands)))
            == s.(workers := s.workers[t := s.workers[t].(todo := rest)])
  {
    assert [] + rest == rest && s.failed + {} == s.failed;
    if c.op.session < |s.sessions| {
      assert s.sessions[c.op.session := s.sessions[c.op.session]] == s.sessions;
    }
  }

  /** A receive is requested for all the room that its session has at that moment. */
  lemma ReceiveMakes(s: State, t: nat, i: nat, rest: seq<Action>, slot: nat, demands: seq<Demand>)
    requires t < |s.workers| && s.workers[t].todo == [RequestReceive(i)] + rest && i < |s.sessions|
    requires OpId(RecvPool, slot) !in s.acquired
    ensures var committed := s.sessions[i].buffer.committed;
            Acquires(s, Step(s, Work(t, Proceed(Some(slot), demands))), t,
                     Operation(OpId(RecvPool, slot), i, Recv(committed, 4096 - committed)))
  {
  }

  /** The next accept is for the session that has waited longest. */
  lemma AcceptOnePlans(s: State, t: nat, rest: seq<Action>, slot: Option<nat>, demands: seq<Demand>)
    requires t < |s.workers| && s.workers[t].todo == [AcceptOne] + rest
    ensures var r := Step(s, Work(t, Proceed(slot, demands)));
            if s.idle == [] then r.workers[t].todo == rest && r.idle == []
            else
              && r.idle == s.idle[1..] && r.workers[t].todo != [] && r.workers[t].todo[1..] == rest
              && Makes(r.workers[t].todo[0], AcceptPool, s.idle[0], Accept)
  {
    hide Makes;
    if s.idle != [] {
      AcceptMakes(s.idle[0]);
    }
  }

  // ---- From a demand to a queue ----------------------------------------------------------

  function OperationsFor(demands: seq<Demand>, slots: seq<nat>): (ops: seq<Operation>)
    requires |demands| == |slots|
  {
    seq(|demands|, d requires 0 <= d < |demands| => OperationFor(demands[d], slots[d]))
  }

  /** The pools can offer all of these. */
  predicate Free(s: State, ops: seq<Operation>) {
    && (forall d :: 0 <= d < |ops| ==> ops[d].id !in s.acquired)
    && forall d, e :: 0 <= d < e < |ops| ==> ops[d].id != ops[e].id
  }

  /** Those of these operations whose tickets, from `ticket` on, name thread `j`. */
  function DealtTo(ops: seq<Operation>, ticket: nat, threads: nat, j: nat): seq<Operation>
    requires threads > 0
    decreases |ops|
  {
    if ops == [] then []
    else (if ThreadIndex(ticket, threads) == j then [ops[0]] else []) + DealtTo(ops[1..], ticket + 1, threads, j)
  }

  /** From `s` to `r` thread `t` has acquired `ops` and has `rest` left to do; every queue has
      got those that were dealt to it, in order, and nothing else has happened to any thread or
      session. */
  ghost predicate Served(s: State, r: State, t: nat, ops: seq<Operation>, rest: seq<Action>) {
    && t < |s.workers| == |r.workers|
    && r.acquired == s.acquired + (set op | op in ops :: op.id) && r.tickets == s.tickets + |ops|
    && r.sessions == s.sessions && r.idle == s.idle
    && forall j :: 0 <= j < |s.workers| ==>
         r.workers[j] == s.workers[j].(requests := s.workers[j].requests + DealtTo(ops, s.tickets, |s.workers|, j),
                                       todo := if j == t then rest else s.workers[j].todo)
  }

  /** One demand, from its action to a queue. */
  lemma ServeOne(s: State, t: nat, action: Action, demand: Demand, slot: nat, rest: seq<Action>)
      returns (schedule: seq<Move>)
    requires t < |s.workers| && s.workers[t].todo == [action] + rest
    requires MakesFor(action, demand) && OperationFor(demand, slot).id !in s.acquired
    ensures Served(s, Run(s, schedule), t, [OperationFor(demand, slot)], rest)
  {
    var op, first := OperationFor(demand, slot), Work(t, Proceed(Some(slot), []));
    var r := Step(s, first);
    assert Acquires(s, r, t, op);
    hide Makes, MakesFor, Step, Run;
    var last := RequestIoIsARun(r, t, op, rest);
    schedule := [first] + last;
    RunFirst(s, first, last);
    RequestedServes(s, r, t, op, rest);
  }

  lemma RequestedServes(s: State, r: State, t: nat, op: Operation, rest: seq<Action>)
    requires t < |s.workers| && s.workers[t].todo != [] && s.workers[t].todo[1..] == rest && Acquires(s, r, t, op)
    ensures Served(s, Requested(r, t, op, rest), t, [op], rest)
  {
    hide ThreadIndex, DealtTo;
    OneDealt(op, s.tickets, |s.workers|);
  }

  lemma OneDealt(op: Operation, ticket: nat, threads: nat)
    requires threads > 0
    ensures forall j :: DealtTo([op], ticket, threads, j) == if ThreadIndex(ticket, threads) == j then [op] else []
    ensures (set o | o in [op] :: o.id) == {op.id}
  {
    hide ThreadIndex;
    assert [op][1..] == [];
  }

  lemma {:induction false} RunAppend(s: State, a: seq<Move>, b: seq<Move>)
    ensures Run(s, a + b) == Run(Run(s, a), b)
    decreases |a|
  {
    if a == [] {
      assert a + b == b;
    } else {
      hide Step;
      assert (a + b)[1..] == a[1..] + b;
      RunAppend(Step(s, a[0]), a[1..], b);
    }
  }

  lemma StillFree(s: State, r: State, t: nat, op: Operation, later: seq<Operation>, rest: seq<Action>)
    requires Free(s, [op] + later) && Served(s, r, t, [op], rest)
    ensures Free(r, later)
  {
    var all := [op] + later;
    forall d | 0 <= d < |later|
      ensures later[d].id !in r.acquired
    {
      assert all[d + 1] == later[d] && all[0] == op;
    }
    forall d, e | 0 <= d < e < |later|
      ensures later[d].id != later[e].id
    {
      assert all[d + 1] == later[d] && all[e + 1] == later[e];
    }
  }

  lemma ServedInTurn(s: State, r: State, q: State, t: nat, op: Operation, later: seq<Operation>,
                     between: seq<Action>, rest: seq<Action>)
    requires Served(s, r, t, [op], between) && Served(r, q, t, later, rest)
    ensures Served(s, q, t, [op] + later, rest)
  {
    var all := [op] + later;
    assert (set o | o in all :: o.id) == (set o | o in [op] :: o.id) + (set o | o in later :: o.id);
    hide DealtTo;
    forall j | 0 <= j < |s.workers|
      ensures q.workers[j] == s.workers[j].(
                requests := s.workers[j].requests + DealtTo(all, s.tickets, |s.workers|, j),
                todo := if j == t then rest else s.workers[j].todo)
    {
      DealtInTurn(s.workers[j].requests, op, later, s.tickets, |s.workers|, j);
      assert r.workers[j].requests == s.workers[j].requests + DealtTo([op], s.tickets, |s.workers|, j);
    }
  }

  lemma DealtInTurn(queued: seq<Operation>, op: Operation, later: seq<Operation>, ticket: nat, threads: nat, j: nat)
    requires threads > 0
    ensures queued + DealtTo([op] + later, ticket, threads, j)
            == queued + DealtTo([op], ticket, threads, j) + DealtTo(later, ticket + 1, threads, j)
  {
    hide ThreadIndex;
    assert ([op] + later)[1..] == later && [op][1..] == [];
  }

  /** A list of demands, one after the other. */
  lemma {:induction false} ServeAll(s: State, t: nat, actions: seq<Action>, demands: seq<Demand>, slots: seq<nat>,
                                    rest: seq<Action>) returns (schedule: seq<Move>)
    requires t < |s.workers| && s.workers[t].todo == actions + rest
    requires |actions| == |demands| == |slots| && Free(s, OperationsFor(demands, slots))
    requires forall d :: 0 <= d < |demands| ==> MakesFor(actions[d], demands[d])
    ensures Served(s, Run(s, schedule), t, OperationsFor(demands, slots), rest)
    decreases |demands|
  {
    hide MakesFor, Step, Run, Free, DealtTo, OperationFor;
    var ops := OperationsFor(demands, slots);
    if demands == [] {
      schedule := [];
      NothingServed(s, t, rest);
    } else {
      var later := OperationsFor(demands[1..], slots[1..]);
      assert ops == [ops[0]] + later;
      ServeFront(s, t, actions, ops[0], later, rest);
      var first := ServeOne(s, t, actions[0], demands[0], slots[0], actions[1..] + rest);
      var r := Run(s, first);
      StillFree(s, r, t, ops[0], later, actions[1..] + rest);
      var others := ServeAll(r, t, actions[1..], demands[1..], slots[1..], rest);
      schedule := first + others;
      RunAppend(s, first, others);
      ServedInTurn(s, r, Run(r, others), t, ops[0], later, actions[1..] + rest, rest);
    }
  }

  lemma NothingServed(s: State, t: nat, rest: seq<Action>)
    requires t < |s.workers| && s.workers[t].todo == [] + rest
    ensures Run(s, []) == s && Served(s, s, t, [], rest)
  {
    assert [] + rest == rest;
  }

  lemma ServeFront(s: State, t: nat, actions: seq<Action>, op: Operation, later: seq<Operation>, rest: seq<Action>)
    requires actions != [] && Free(s, [op] + later)
    ensures actions + rest == [actions[0]] + (actions[1..] + rest)
    ensures op.id !in s.acquired
  {
    assert ([op] + later)[0] == op;
  }

  /** What application code asks for ends up in the queues: from the moment it runs until its
      thread has nothing left to do, the moves of this thread acquire one operation for every
      demand, of its kind and session, and queue each with the thread that its ticket names. */
  lemma ApplicationServed(s: State, t: nat, demands: seq<Demand>, slots: seq<nat>) returns (schedule: seq<Move>)
    requires t < |s.workers| && s.workers[t].todo == [] && s.workers[t].phase == Tasking
    requires |demands| == |slots| && Free(s, OperationsFor(demands, slots))
    ensures Served(s, Run(s, schedule), t, OperationsFor(demands, slots), [])
  {
    var first := Work(t, Application(demands));
    var r := Step(s, first);
    ApplicationPlans(s, t, demands);
    assert r.workers[t].todo + [] == r.workers[t].todo;
    var others := ServeAll(r, t, r.workers[t].todo, demands, slots, []);
    schedule := [first] + others;
    RunFirst(s, first, others);
    hide Step, Run, MakesFor, OperationsFor;
  }

  /** So does what message handlers ask for while a receive is handled; the next receive is
      requested after that. */
  lemma ReceiveServed(s: State, t: nat, c: Completion, rest: seq<Action>, demands: seq<Demand>, slots: seq<nat>)
      returns (schedule: seq<Move>)
    requires t < |s.workers| && s.workers[t].todo == [Handle(c)] + rest
    requires c.op.body.Recv? && c.op.session < |s.sessions| && c.result >= 0
    requires |demands| == |slots| && Free(s, OperationsFor(demands, slots))
    ensures var handled := Step(s, Work(t, Proceed(None, demands)));
            Served(handled, Run(s, schedule), t, OperationsFor(demands, slots),
                   [RequestReceive(c.op.session)] + rest)
  {
    var first := Work(t, Proceed(None, demands));
    var r := Step(s, first);
    ReceivePlans(s, t, c, rest, None, demands);
    hide Handled, Actions, MakesFor, OperationsFor, Run;
    var todo, left := r.workers[t].todo, [RequestReceive(c.op.session)] + rest;
    assert todo == todo[..|demands|] + left;
    var others := ServeAll(r, t, todo[..|demands|], demands, slots, left);
    schedule := [first] + others;
    RunFirst(s, first, others);
  }
}
