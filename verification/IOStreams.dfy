/** Bytes from the kernel to the dispatcher, under every interleaving: every receive fills the
    buffer exactly behind the committed bytes, and the messages dispatched are those of the
    stream that arrived. */
module IOStreams {
  import opened Sums
  import opened Framing
  import opened ReceiveBuffer
  import opened RoundRobin
  import opened IOProtocol
  import opened IOFlow
  import opened IOTokens

  // ---- What must hold of a session and of its pending receive ------------------------------

  /** The span of the receive is the space left in the buffer of its session. */
  predicate SpanFits(session: Session, op: Operation) {
    && op.body.Recv? && session.buffer.Valid()
    && op.body.offset == session.buffer.committed
    && op.body.length == session.buffer.Remain()
  }

  /** The bytes of a completed receive are right behind the committed ones, and are all that
      has arrived and is not yet consumed; a failed receive has stored none. */
  predicate Landed(session: Session, c: Completion) {
    && SpanFits(session, c.op)
    && |c.data| == (if c.result < 0 then 0 else c.result) <= c.op.body.length
    && session.stream == session.consumed + c.data
    && session.buffer.bytes[session.buffer.committed..session.buffer.committed + |c.data|] == c.data
  }

  /** What has been dispatched and what is left in the buffer is the parse of the bytes
      consumed. */
  ghost predicate Parsed(session: Session) {
    && session.buffer.Valid()
    && session.dispatched == Frames(session.consumed)
    && session.buffer.Received() == Residue(session.consumed)
  }

  predicate BadOp(sessions: seq<Session>, skip: nat, op: Operation) {
    op.body.Recv? && op.session < |sessions| && op.session != skip && !SpanFits(sessions[op.session], op)
  }

  predicate BadCompletion(sessions: seq<Session>, skip: nat, c: Completion) {
    c.op.body.Recv? && c.op.session < |sessions| && c.op.session != skip && !Landed(sessions[c.op.session], c)
  }

  /** Receives that do not fit their session, session `skip` left out. */
  function BadMeasure(sessions: seq<Session>, skip: nat): Measure {
    Measure(
      (op: Operation) => if BadOp(sessions, skip, op) then 1 else 0,
      (c: Completion) => if BadCompletion(sessions, skip, c) then 1 else 0,
      (c: Completion) => if BadCompletion(sessions, skip, c) then 1 else 0,
      (j: nat) => 0, (j: nat) => 0, 0, (op: Operation) => 0)
  }

  /** Completed receives of session `i` that have not been handled. */
  function DoneMeasure(i: nat): Measure {
    ReceiveMeasure(i).(op := (op: Operation) => 0)
  }

  ghost predicate SoundSession(s: State, i: nat)
    requires i < |s.sessions|
  {
    && Parsed(s.sessions[i])
    && (s.sessions[i].stream == s.sessions[i].consumed || Total(s, DoneMeasure(i)) > 0)
  }

  ghost predicate Sound(s: State) {
    && OneEach(s)
    && Total(s, BadMeasure(s.sessions, |s.sessions|)) == 0
    && forall i {:trigger SoundSession(s, i)} :: 0 <= i < |s.sessions| ==> SoundSession(s, i)
  }

  // ---- What a step does to the sessions ----------------------------------------------------

  /** The step delivers a receive of session `i`. */
  predicate Delivers(s: State, move: Move, i: nat)
    requires move.worker < |s.workers|
  {
    && move.Deliver? && move.index < |s.workers[move.worker].submitted|
    && Reportable(s.workers[move.worker].submitted[move.index], move.result, move.data)
    && s.workers[move.worker].submitted[move.index].body.Recv?
    && s.workers[move.worker].submitted[move.index].session == i
  }

  /** The step runs a completion handler for session `i`. */
  predicate Handles(s: State, move: Move, i: nat)
    requires move.worker < |s.workers|
  {
    && move.Work? && move.choice.Proceed?
    && s.workers[move.worker].todo != [] && s.workers[move.worker].todo[0].Handle?
    && s.workers[move.worker].todo[0].completion.op.session == i
  }

  predicate HandlesReceive(s: State, move: Move, i: nat)
    requires move.worker < |s.workers|
  {
    Handles(s, move, i) && s.workers[move.worker].todo[0].completion.op.body.Recv?
  }

  function NextSession(s: State, move: Move, i: nat): Session
    requires move.worker < |s.workers| && i < |s.sessions|
  {
    var w, session := s.workers[move.worker], s.sessions[i];
    if Delivers(s, move, i) then Stored(session, w.submitted[move.index], move.data)
    else if Handles(s, move, i) then Handled(session, w.todo[0].completion)
    else if Closes(s, move, i) then Session(session.buffer.(committed := 0), false, [], [], [])
    else session
  }

  lemma StepSession(s: State, move: Move, i: nat)
    requires move.worker < |s.workers| && i < |s.sessions|
    ensures Step(s, move).sessions[i] == NextSession(s, move, i)
  {
    if move.Work? {
      hide DeliverStep;
      if s.workers[move.worker].todo == [] {
        PhaseSession(s, move, i);
      } else if move.choice.Proceed? {
        ActionSession(s, move, i);
      }
    } else {
      hide ActionStep, PhaseStep, Reportable;
    }
  }

  lemma PhaseSession(s: State, move: Move, i: nat)
    requires move.Work? && move.worker < |s.workers| && i < |s.sessions| && s.workers[move.worker].todo == []
    ensures PhaseStep(s, move.worker, move.choice).sessions[i] == NextSession(s, move, i)
  {
    hide Actions;
  }

  lemma ActionSession(s: State, move: Move, i: nat)
    requires move.Work? && move.choice.Proceed? && move.worker < |s.workers| && i < |s.sessions|
    requires s.workers[move.worker].todo != []
    ensures ActionStep(s, move.worker, move.choice.slot, move.choice.demands).sessions[i] == NextSession(s, move, i)
  {
    hide Reactions, Handled, ThreadIndex, Offered, NewOperation;
  }

  // ---- Pending receives are good -----------------------------------------------------------

  lemma SubmittedIsGood(s: State, t: nat, k: nat)
    requires Sound(s) && t < |s.workers| && k < |s.workers[t].submitted|
    ensures !BadOp(s.sessions, |s.sessions|, s.workers[t].submitted[k])
  {
    hide BadOp, BadCompletion, OneEach;
    var m := BadMeasure(s.sessions, |s.sessions|);
    NatSumMember(s.workers, t, LoadOf(m));
    NatSumMember(s.workers[t].submitted, k, m.op);
  }

  lemma HandledIsGood(s: State, t: nat)
    requires Sound(s) && t < |s.workers| && s.workers[t].todo != [] && s.workers[t].todo[0].Handle?
    ensures !BadCompletion(s.sessions, |s.sessions|, s.workers[t].todo[0].completion)
  {
    hide BadOp, BadCompletion, OneEach;
    var m := BadMeasure(s.sessions, |s.sessions|);
    NatSumMember(s.workers, t, LoadOf(m));
    NatSumMember(s.workers[t].todo, 0, PlannedOf(m));
  }

  // ---- The sessions ------------------------------------------------------------------------

  /** At most one completed receive of a session waits to be handled. */
  lemma AtMostOneDone(s: State, i: nat)
    requires OneEach(s)
    ensures Total(s, DoneMeasure(i)) <= 1
  {
    assert Tokens(s, i) <= 1;
    TotalBounded(s, DoneMeasure(i), TokenMeasure(i), NoWeight());
    NoTotal(s);
  }

  lemma DoneFlow(s: State, move: Move, i: nat)
    requires move.worker < |s.workers| && AllWaitEmpty(s)
    ensures !HandlesReceive(s, move, i) ==> Total(Step(s, move), DoneMeasure(i)) >= Total(s, DoneMeasure(i))
    ensures Delivers(s, move, i) ==> Total(Step(s, move), DoneMeasure(i)) == Total(s, DoneMeasure(i)) + 1
  {
    hide Total, Step, ThreadIndex, Offered, Reportable;
    StepFlow(s, move, DoneMeasure(i));
  }

  /** Bytes land behind the committed ones. */
  lemma StoredLands(session: Session, op: Operation, result: int, data: seq<byte>)
    requires Parsed(session) && SpanFits(session, op) && Reportable(op, result, data)
    requires session.stream == session.consumed
    ensures Parsed(Stored(session, op, data))
    ensures Landed(Stored(session, op, data), Completion(op, result, data))
  {
    hide Frames, Residue;
    var stored := Stored(session, op, data);
    assert stored.buffer.Received() == session.buffer.Received();
  }

  /** Handling a landed receive parses one piece more of the stream. */
  lemma HandledParses(session: Session, c: Completion)
    requires Parsed(session) && Landed(session, c)
    ensures Parsed(Handled(session, c))
    ensures Handled(session, c).consumed == Handled(session, c).stream == session.stream
  {
    hide Frames, Residue;
    if c.result >= 0 {
      var committed := Commit(session.buffer, c.result);
      assert committed.Received() == session.buffer.Received() + c.data;
      FramesAppend(session.consumed, c.data);
    } else {
      assert session.consumed + c.data == session.consumed;
    }
  }

  lemma StepSoundSession(s: State, move: Move, i: nat)
    requires Sound(s) && OneEach(Step(s, move)) && move.worker < |s.workers| && i < |s.sessions|
    ensures SoundSession(Step(s, move), i)
  {
    hide Step, Total, Parsed, Frames, Residue, Reportable;
    var w, session := s.workers[move.worker], s.sessions[i];
    assert SoundSession(s, i);
    StepSession(s, move, i);
    DoneFlow(s, move, i);
    if Delivers(s, move, i) {
      SubmittedIsGood(s, move.worker, move.index);
      AtMostOneDone(Step(s, move), i);
      StoredLands(session, w.submitted[move.index], move.result, move.data);
    } else if HandlesReceive(s, move, i) {
      HandledIsGood(s, move.worker);
      HandledParses(session, w.todo[0].completion);
    } else if Closes(s, move, i) {
      ClosedParses(session);
    } else {
      SameParse(session, NextSession(s, move, i));
    }
  }

  lemma ClosedParses(session: Session)
    requires Parsed(session)
    ensures Parsed(Session(session.buffer.(committed := 0), false, [], [], []))
  {
  }

  lemma SameParse(session: Session, next: Session)
    requires Parsed(session) && next == session.(hasActor := next.hasActor)
    ensures Parsed(next)
  {
  }

  // ---- The pending receives ----------------------------------------------------------------

  /** Receives that fit stay so, as long as their session does not change. */
  lemma BadFlow(s: State, move: Move, skip: nat)
    requires move.worker < |s.workers| && AllWaitEmpty(s)
    requires forall i {:trigger s.sessions[i]} :: 0 <= i < |s.sessions| ==> s.sessions[i].buffer.Valid()
    requires forall i {:trigger Changes(s, move, i)} :: 0 <= i < |s.sessions| && Changes(s, move, i) ==> i == skip
    ensures Total(Step(s, move), BadMeasure(s.sessions, skip)) <= Total(s, BadMeasure(s.sessions, skip))
  {
    hide Total, Step, ThreadIndex, Offered, Reportable, Landed;
    if move.Deliver? && move.index < |s.workers[move.worker].submitted| {
      assert Changes(s, move, s.workers[move.worker].submitted[move.index].session)
             <==> Delivers(s, move, s.workers[move.worker].submitted[move.index].session);
    }
    StepFlow(s, move, BadMeasure(s.sessions, skip));
  }

  /** Receives of session `i`, completion `c` left out. */
  function OtherMeasure(i: nat, c: Completion): Measure {
    var all := ReceiveMeasure(i);
    all.(done := (d: Completion) => if d == c then 0 else all.done(d))
  }

  /** Delivering the one receive of a session leaves no other. */
  lemma NoOtherAfterDelivery(s: State, move: Move, i: nat)
    requires OneEach(s) && move.worker < |s.workers| && Delivers(s, move, i)
    ensures var c := Completion(s.workers[move.worker].submitted[move.index], move.result, move.data);
            Total(Step(s, move), OtherMeasure(i, c)) == 0
  {
    hide Total, Step, Reportable;
    var c := Completion(s.workers[move.worker].submitted[move.index], move.result, move.data);
    StepFlow(s, move, OtherMeasure(i, c));
    OthersAreReceives(s, i, c);
    ReceivesAreTokens(s, i);
    assert Tokens(s, i) <= 1;
  }

  lemma OthersAreReceives(s: State, i: nat, c: Completion)
    ensures Total(s, OtherMeasure(i, c)) <= Total(s, ReceiveMeasure(i))
  {
    TotalBounded(s, OtherMeasure(i, c), ReceiveMeasure(i), NoWeight());
    NoTotal(s);
  }

  /** Handling the one receive of a session, or closing a session that has none, leaves none. */
  lemma NoneAfterHandling(s: State, move: Move, i: nat)
    requires OneEach(s) && move.worker < |s.workers|
    requires HandlesReceive(s, move, i) || (Closes(s, move, i) && Tokens(s, i) == 0)
    ensures Total(Step(s, move), ReceiveMeasure(i)) == 0
  {
    hide Total, Step;
    StepFlow(s, move, ReceiveMeasure(i));
    ReceivesAreTokens(s, i);
    assert Tokens(s, i) <= 1;
  }

  /** Whatever is pending of the other sessions stays as good as it was; what is pending of
      session `i` is nothing but perhaps the completion `c`, which fits. */
  lemma BadAfterChange(r: State, before: seq<Session>, i: nat, others: Measure)
    requires |before| == |r.sessions|
    requires forall j {:trigger before[j]} :: 0 <= j < |before| && j != i ==> SameBuffer(before[j], r.sessions[j])
    requires Total(r, BadMeasure(before, i)) == 0 && Total(r, others) == 0
    requires i >= |before|
             || others == ReceiveMeasure(i)
             || exists c :: others == OtherMeasure(i, c) && !BadCompletion(r.sessions, |before|, c)
    ensures Total(r, BadMeasure(r.sessions, |r.sessions|)) == 0
  {
    var bad, kept := BadMeasure(r.sessions, |r.sessions|), BadMeasure(before, i);
    forall op: Operation
      ensures BadOp(r.sessions, |r.sessions|, op) ==> BadOp(before, i, op) || (op.session == i && op.body.Recv?)
    {
      BadOpBefore(r.sessions, before, i, op);
    }
    forall c: Completion
      ensures BadCompletion(r.sessions, |r.sessions|, c) ==>
                BadCompletion(before, i, c) || (c.op.session == i && c.op.body.Recv?)
    {
      BadCompletionBefore(r.sessions, before, i, c);
    }
    NoneOutside(r.sessions, i);
    hide BadOp, BadCompletion, SameBuffer;
    assert Bounded(bad, kept, others);
    TotalBounded(r, bad, kept, others);
  }

  lemma BadOpBefore(after: seq<Session>, before: seq<Session>, i: nat, op: Operation)
    requires |before| == |after|
    requires forall j {:trigger before[j]} :: 0 <= j < |before| && j != i ==> SameBuffer(before[j], after[j])
    ensures BadOp(after, |after|, op) ==> BadOp(before, i, op) || (op.session == i && op.body.Recv?)
  {
  }

  lemma BadCompletionBefore(after: seq<Session>, before: seq<Session>, i: nat, c: Completion)
    requires |before| == |after|
    requires forall j {:trigger before[j]} :: 0 <= j < |before| && j != i ==> SameBuffer(before[j], after[j])
    ensures BadCompletion(after, |after|, c) ==> BadCompletion(before, i, c) || (c.op.session == i && c.op.body.Recv?)
  {
  }

  lemma NoneOutside(sessions: seq<Session>, i: nat)
    ensures i >= |sessions| ==>
              && (forall op: Operation {:trigger BadOp(sessions, |sessions|, op)} ::
                    op.session == i ==> !BadOp(sessions, |sessions|, op))
              && (forall c: Completion {:trigger BadCompletion(sessions, |sessions|, c)} ::
                    c.op.session == i ==> !BadCompletion(sessions, |sessions|, c))
  {
  }

  predicate SameBuffer(a: Session, b: Session) {
    a.buffer == b.buffer && a.stream == b.stream && a.consumed == b.consumed
  }

  predicate Changes(s: State, move: Move, i: nat)
    requires move.worker < |s.workers|
  {
    Delivers(s, move, i) || HandlesReceive(s, move, i) || Closes(s, move, i)
  }

  lemma OnlyTouchedChanges(s: State, move: Move, i: nat)
    requires move.worker < |s.workers| && Changes(s, move, i)
    ensures i == Touched(s, move)
  {
  }

  /** The session whose buffer or stream a step may change. */
  function Touched(s: State, move: Move): nat
    requires move.worker < |s.workers|
  {
    var w := s.workers[move.worker];
    match move
    case Deliver(_, k, _, _) => if k < |w.submitted| then w.submitted[k].session else |s.sessions|
    case Work(_, choice) =>
      if w.todo != [] then if w.todo[0].Handle? then w.todo[0].completion.op.session else |s.sessions|
      else if choice.SessionClosed? then choice.session
      else |s.sessions|
  }

  lemma OthersUntouched(s: State, move: Move, j: nat)
    requires move.worker < |s.workers| && j < |s.sessions|
    requires !Changes(s, move, j)
    ensures SameBuffer(s.sessions[j], Step(s, move).sessions[j])
  {
    hide Step;
    StepSession(s, move, j);
  }

  lemma SkipBounded(s: State, skip: nat)
    ensures Total(s, BadMeasure(s.sessions, skip)) <= Total(s, BadMeasure(s.sessions, |s.sessions|))
  {
    var bad, kept := BadMeasure(s.sessions, skip), BadMeasure(s.sessions, |s.sessions|);
    assert Bounded(bad, kept, NoWeight());
    TotalBounded(s, bad, kept, NoWeight());
    NoTotal(s);
  }

  ghost predicate PoliteStep(s: State, move: Move) {
    forall i :: Closes(s, move, i) ==> Tokens(s, i) == 0
  }

  lemma StepGood(s: State, move: Move)
    requires Sound(s) && PoliteStep(s, move) && OneEach(Step(s, move)) && move.worker < |s.workers|
    ensures var r := Step(s, move);
            Total(r, BadMeasure(r.sessions, |r.sessions|)) == 0
  {
    hide Step, Total, SameBuffer, Parsed, Reportable;
    var w, r, i := s.workers[move.worker], Step(s, move), Touched(s, move);
    SkipBounded(s, i);
    SkipBounded(s, |s.sessions|);
    BuffersValid(s);
    forall j | Changes(s, move, j)
      ensures j == i
    {
      OnlyTouchedChanges(s, move, j);
    }
    if i < |s.sessions| && Delivers(s, move, i) {
      UntouchedBut(s, move, i);
      BadFlow(s, move, i);
      DeliveredIsGood(s, move, i);
      NoOtherAfterDelivery(s, move, i);
      BadAfterChange(r, s.sessions, i, OtherMeasure(i, Completion(w.submitted[move.index], move.result, move.data)));
    } else if i < |s.sessions| && (HandlesReceive(s, move, i) || Closes(s, move, i)) {
      UntouchedBut(s, move, i);
      BadFlow(s, move, i);
      NoneAfterHandling(s, move, i);
      BadAfterChange(r, s.sessions, i, ReceiveMeasure(i));
    } else {
      UntouchedBut(s, move, |s.sessions|);
      BadFlow(s, move, |s.sessions|);
      NoTotal(r);
      BadAfterChange(r, s.sessions, |s.sessions|, NoWeight());
    }
  }

  lemma BuffersValid(s: State)
    requires Sound(s)
    ensures forall i {:trigger s.sessions[i]} :: 0 <= i < |s.sessions| ==> s.sessions[i].buffer.Valid()
  {
    forall i | 0 <= i < |s.sessions|
      ensures s.sessions[i].buffer.Valid()
    {
      assert SoundSession(s, i);
    }
  }

  /** Only the touched session changes. */
  lemma UntouchedBut(s: State, move: Move, i: nat)
    requires move.worker < |s.workers|
    requires forall j {:trigger Changes(s, move, j)} :: 0 <= j < |s.sessions| && Changes(s, move, j) ==> j == i
    ensures var r := Step(s, move);
            forall j {:trigger s.sessions[j]} ::
              0 <= j < |s.sessions| && j != i ==> SameBuffer(s.sessions[j], r.sessions[j])
  {
    hide Step, SameBuffer, Changes;
    forall j | 0 <= j < |s.sessions| && j != i
      ensures SameBuffer(s.sessions[j], Step(s, move).sessions[j])
    {
      OthersUntouched(s, move, j);
    }
  }

  lemma DeliveredIsGood(s: State, move: Move, i: nat)
    requires Sound(s) && OneEach(Step(s, move)) && move.worker < |s.workers| && i < |s.sessions| && Delivers(s, move, i)
    ensures var c := Completion(s.workers[move.worker].submitted[move.index], move.result, move.data);
            !BadCompletion(Step(s, move).sessions, |s.sessions|, c)
  {
    hide Step, Total, Parsed, Reportable;
    assert SoundSession(s, i);
    StepSession(s, move, i);
    DoneFlow(s, move, i);
    SubmittedIsGood(s, move.worker, move.index);
    AtMostOneDone(Step(s, move), i);
    StoredLands(s.sessions[i], s.workers[move.worker].submitted[move.index], move.result, move.data);
  }

  lemma StepSound(s: State, move: Move)
    requires Sound(s) && PoliteStep(s, move)
    ensures Sound(Step(s, move))
  {
    if move.worker < |s.workers| {
      hide Step, SoundSession, Total, Parsed;
      StepOneEach(s, move);
      StepGood(s, move);
      forall i | 0 <= i < |s.sessions|
        ensures SoundSession(Step(s, move), i)
      {
        StepSoundSession(s, move, i);
      }
    }
  }

  lemma {:induction false} RunSound(s: State, schedule: seq<Move>)
    requires Sound(s) && Polite(s, schedule)
    ensures Sound(Run(s, schedule))
    decreases |schedule|
  {
    if schedule == [] {
    } else {
      hide Step, Sound;
      StepSound(s, schedule[0]);
      RunSound(Step(s, schedule[0]), schedule[1..]);
    }
  }

  lemma InitialSound(threads: nat, sessions: nat, backlog: nat)
    requires threads > 0
    ensures Sound(Initial(threads, sessions, backlog))
  {
    var s := Initial(threads, sessions, backlog);
    InitialOneEach(threads, sessions, backlog);
    InitialTotal(threads, sessions, backlog, BadMeasure(s.sessions, |s.sessions|));
    FreshParsed();
  }

  lemma FreshParsed()
    ensures Parsed(FreshSession())
  {
  }

  // ---- The theorems ------------------------------------------------------------------------

  /** Every receive that thread `w` has on its way, to a queue or in one, prepared or submitted,
      has the span that its session has free now; and every receive that is completed or is
      about to be handled has landed. */
  ghost predicate SpansFit(sessions: seq<Session>, w: Worker) {
    && (forall op <- w.requests + w.prepared + w.submitted :: Fits(sessions, op))
    && (forall c <- w.completed :: HasLanded(sessions, c))
    && (forall action <- w.todo ::
          && (action.Route? || action.Enqueue? ==> Fits(sessions, action.op))
          && (action.Handle? ==> HasLanded(sessions, action.completion)))
  }

  predicate Fits(sessions: seq<Session>, op: Operation) {
    op.body.Recv? && op.session < |sessions| ==> SpanFits(sessions[op.session], op)
  }

  predicate HasLanded(sessions: seq<Session>, c: Completion) {
    c.op.body.Recv? && c.op.session < |sessions| ==> Landed(sessions[c.op.session], c)
  }

  lemma SoundSpansFit(s: State, t: nat)
    requires Sound(s) && t < |s.workers|
    ensures SpansFit(s.sessions, s.workers[t])
  {
    var m, w := BadMeasure(s.sessions, |s.sessions|), s.workers[t];
    NatSumMember(s.workers, t, LoadOf(m));
    hide SpanFits, Landed, Sound;
    forall op <- w.requests + w.prepared + w.submitted
      ensures Fits(s.sessions, op)
    {
      WeighsNothing(w.requests, op, m.op);
      WeighsNothing(w.prepared, op, m.op);
      WeighsNothing(w.submitted, op, m.op);
    }
    forall c <- w.completed
      ensures HasLanded(s.sessions, c)
    {
      WeighsNothing(w.completed, c, m.done);
    }
    forall action <- w.todo
      ensures action.Route? || action.Enqueue? ==> Fits(s.sessions, action.op)
      ensures action.Handle? ==> HasLanded(s.sessions, action.completion)
    {
      WeighsNothing(w.todo, action, PlannedOf(m));
    }
  }

  /** In every run: a receive anywhere on its way through request, queue, ring and handler has
      the span that its session has free now, so its bytes land exactly behind the committed
      ones. */
  lemma SpansStayCurrent(threads: nat, sessions: nat, backlog: nat, schedule: seq<Move>, t: nat)
    requires threads > 0 && Polite(Initial(threads, sessions, backlog), schedule)
    requires t < threads
    ensures var s := Run(Initial(threads, sessions, backlog), schedule);
            SpansFit(s.sessions, s.workers[t])
  {
    var start := Initial(threads, sessions, backlog);
    InitialSound(threads, sessions, backlog);
    RunSound(start, schedule);
    SoundSpansFit(Run(start, schedule), t);
  }

  lemma WeighsNothing<A>(xs: seq<A>, x: A, f: A -> nat)
    ensures x in xs && NatSum(xs, f) == 0 ==> f(x) == 0
  {
    if x in xs {
      var k :| 0 <= k < |xs| && xs[k] == x;
      NatSumMember(xs, k, f);
    }
  }

  /** In every run the messages dispatched are those of the bytes consumed and the buffer
      holds the rest of them; and whenever no completed receive is waiting, of all the bytes
      that have arrived on the connection. */
  lemma DispatchedIsParsed(threads: nat, sessions: nat, backlog: nat, schedule: seq<Move>, i: nat)
    requires threads > 0 && i < sessions && Polite(Initial(threads, sessions, backlog), schedule)
    ensures var s := Run(Initial(threads, sessions, backlog), schedule);
            var session := s.sessions[i];
            && session.buffer.Valid()
            && session.dispatched == Frames(session.consumed)
            && session.buffer.Received() == Residue(session.consumed)
            && (Total(s, DoneMeasure(i)) == 0 ==>
                  session.dispatched == Frames(session.stream) && session.buffer.Received() == Residue(session.stream))
  {
    var start := Initial(threads, sessions, backlog);
    InitialSound(threads, sessions, backlog);
    RunSound(start, schedule);
    assert SoundSession(Run(start, schedule), i);
  }

  /** End to end: whatever the threads do, a peer's messages come out of the dispatcher one by
      one, in order and byte for byte, once all their bytes have arrived and been handled. */
  lemma MessagesArrive(threads: nat, sessions: nat, backlog: nat, schedule: seq<Move>, i: nat, ms: seq<Message>)
    requires threads > 0 && i < sessions && Polite(Initial(threads, sessions, backlog), schedule)
    requires forall m <- ms :: Encodable(m)
    requires var s := Run(Initial(threads, sessions, backlog), schedule);
             Total(s, DoneMeasure(i)) == 0 && s.sessions[i].stream == Concat(EncodeAll(ms))
    ensures var session := Run(Initial(threads, sessions, backlog), schedule).sessions[i];
            && session.buffer.Valid() && session.buffer.Received() == []
            && |session.dispatched| == |ms|
            && forall k :: 0 <= k < |ms| ==> IsFrame(session.dispatched[k]) && Decode(session.dispatched[k]) == ms[k]
  {
    DispatchedIsParsed(threads, sessions, backlog, schedule, i);
    StreamRoundTrip(ms);
  }

  /** No connection of a peer that sends messages of at most 4096 bytes ever asks the kernel
      for zero bytes: its buffer has room at every point of the stream. */
  lemma ReceivesAskForBytes(threads: nat, sessions: nat, backlog: nat, schedule: seq<Move>, i: nat,
                            ms: seq<Message>, rest: seq<byte>)
    requires threads > 0 && i < sessions && Polite(Initial(threads, sessions, backlog), schedule)
    requires forall m <- ms :: Encodable(m) && HEADER_SIZE + |m.payload| <= MAX_RECEIVE_BUFFER_SIZE
    requires Run(Initial(threads, sessions, backlog), schedule).sessions[i].consumed + rest == Concat(EncodeAll(ms))
    ensures var session := Run(Initial(threads, sessions, backlog), schedule).sessions[i];
            session.buffer.Valid() && session.buffer.Remain() > 0
  {
    var session := Run(Initial(threads, sessions, backlog), schedule).sessions[i];
    DispatchedIsParsed(threads, sessions, backlog, schedule, i);
    ResidueHasNoFrame(session.consumed);
    PrefixHasGoodHeader(ms, session.consumed, rest);
    FullMeansBadHeader(session.buffer);
  }
}
