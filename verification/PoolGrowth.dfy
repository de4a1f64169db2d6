/** How far a pool can grow under every interleaving. A thread adds a chunk only after it has
    seen the free queue empty, and each thread at most one for each time. */
module PoolGrowth {
  import opened Sums
  import opened PoolMachine
  import opened PoolSafety

  // ---- Slots in use or with some thread --------------------------------------------------

  /** How many slots a thread has, cached or in transit. */
  function InHand(th: Thread): nat {
    |th.cache| +
    match th.pc
    case Stealing(batch) => |batch|
    case Returning(batch) => |batch|
    case Constructing(_) | PushingBack(_) | Releasing(_) | PushingFull(_) => 1
    case _ => 0
  }

  function Used(s: State): nat {
    |s.shared.live| + NatSum(s.threads, InHand)
  }

  /** A step moves slots between the free queue, the callers and its thread, and adds the one
      that it publishes. */
  predicate SizesKept(sh: Shared, th: Thread, sh': Shared, th': Thread) {
    |sh'.freeQueue| + |sh'.live| + InHand(th')
    == |sh.freeQueue| + |sh.live| + InHand(th) + if Publishes(th) then 1 else 0
  }

  lemma LocalSizes(cfg: Config, sh: Shared, th: Thread, choice: Choice)
    requires BatchFits(cfg) && ThreadOk(cfg, sh, th)
    ensures var (sh', th') := LocalStep(cfg, sh, th, choice); SizesKept(sh, th, sh', th')
  {
    if InGrowth(th.pc) {
      GrowthSizes(cfg, sh, th, choice);
    } else if InRelease(th.pc) {
      ReleaseSizes(cfg, sh, th);
    } else if !th.pc.Idle? {
      AcquireSizes(cfg, sh, th, choice);
    } else {
      StartSizes(sh, th, choice);
    }
  }

  lemma StartSizes(sh: Shared, th: Thread, choice: Choice)
    requires th.pc.Idle?
    ensures var (sh', th') := StartCall(sh, th, choice); SizesKept(sh, th, sh', th')
  {
  }

  lemma GrowthSizes(cfg: Config, sh: Shared, th: Thread, choice: Choice)
    requires InGrowth(th.pc)
    ensures var (sh', th') := GrowthStep(cfg, sh, th, choice); SizesKept(sh, th, sh', th')
  {
  }

  lemma AcquireSizes(cfg: Config, sh: Shared, th: Thread, choice: Choice)
    requires BatchFits(cfg) && ThreadOk(cfg, sh, th)
    requires !th.pc.Idle? && !InGrowth(th.pc) && !InRelease(th.pc)
    ensures var (sh', th') := AcquireStep(cfg, sh, th, choice); SizesKept(sh, th, sh', th')
  {
  }

  lemma ReleaseSizes(cfg: Config, sh: Shared, th: Thread)
    requires InRelease(th.pc)
    ensures var (sh', th') := ReleaseStep(cfg, sh, th); SizesKept(sh, th, sh', th')
  {
  }

  // ---- Threads that will grow the pool ---------------------------------------------------

  /** The thread has seen the free queue empty and has not added a chunk since. */
  function Poised(th: Thread): nat {
    match th.pc
    case Stealing(batch) => if batch == [] then 1 else 0
    case Flagging | Creating => 1
    case _ => 0
  }

  /** The thread is about to look at the free queue, and the queue is empty. */
  predicate SeesEmpty(sh: Shared, th: Thread) {
    th.pc.Popping? && sh.freeQueue == []
  }

  /** A new chunk is of the configured size. */
  predicate ChunkOk(cfg: Config, th: Thread) {
    th.pc.Filling? || th.pc.Loading? || th.pc.Linking? ==> th.pc.chunk.count == cfg.chunkSize
  }

  /** Memory grows only by what a poised thread adds; only seeing the queue empty makes a
      thread poised. */
  lemma LocalPoised(cfg: Config, sh: Shared, th: Thread, choice: Choice)
    requires ChunkOk(cfg, th)
    ensures var (sh', th') := LocalStep(cfg, sh, th, choice);
            && ChunkOk(cfg, th')
            && (|| (sh'.memoryTop == sh.memoryTop
                    && Poised(th') <= Poised(th) + if SeesEmpty(sh, th) then 1 else 0)
                || (sh'.memoryTop == sh.memoryTop + cfg.chunkSize && Poised(th') + 1 == Poised(th)
                    && !SeesEmpty(sh, th)))
  {
    if InGrowth(th.pc) {
      hide StartCall, AcquireStep, ReleaseStep;
    } else if InRelease(th.pc) {
      hide StartCall, AcquireStep, GrowthStep;
    } else if !th.pc.Idle? {
      hide StartCall, GrowthStep, ReleaseStep;
    } else {
      hide AcquireStep, GrowthStep, ReleaseStep;
    }
  }

  /** Memory allocated so far and what poised threads may still add. */
  function Potential(cfg: Config, s: State): nat {
    s.shared.memoryTop + cfg.chunkSize * NatSum(s.threads, Poised)
  }

  ghost predicate GrowthInv(cfg: Config, s: State) {
    && Inv(cfg, s)
    && |s.shared.freeQueue| + Used(s) == Published(s)
    && forall t {:trigger s.threads[t]} :: 0 <= t < |s.threads| ==> ChunkOk(cfg, s.threads[t])
  }

  lemma {:induction false} RoomForAll(cfg: Config, threads: seq<Thread>)
    requires forall th <- threads :: ChunkOk(cfg, th)
    ensures NatSum(threads, Reserved) + cfg.chunkSize * NatSum(threads, Poised)
            <= NatSum(threads, Unlinked) + cfg.chunkSize * |threads|
  {
    if threads == [] {
    } else {
      var c, th, rest := cfg.chunkSize, threads[0], threads[1..];
      assert th in threads;
      RoomForAll(cfg, rest);
      Distribute(c, Poised(th), NatSum(rest, Poised));
      Distribute(c, 1, |rest|);
      assert NatSum(threads, Poised) == Poised(th) + NatSum(rest, Poised) && |threads| == 1 + |rest|;
    }
  }

  lemma Distribute(c: nat, a: nat, b: nat)
    ensures c * (a + b) == c * a + c * b
    ensures a == 0 ==> c * a == 0
    ensures a == 1 ==> c * a == c
  {
  }

  /** At every moment: memory, and what poised threads may add, is at most the slots published
      and one chunk for each thread. */
  lemma PotentialBelowPublished(cfg: Config, s: State)
    requires GrowthInv(cfg, s)
    ensures Potential(cfg, s) <= Published(s) + cfg.chunkSize * |s.threads|
  {
    RoomForAll(cfg, s.threads);
  }

  lemma StepGrowthInv(cfg: Config, s: State, move: Move)
    requires BatchFits(cfg) && GrowthInv(cfg, s)
    ensures GrowthInv(cfg, Step(cfg, s, move))
  {
    if move.0 < |s.threads| {
      var th := s.threads[move.0];
      assert ThreadOk(cfg, s.shared, th);
      StepKeeps(cfg, s, move);
      StepBalances(cfg, s, move);
      LocalSizes(cfg, s.shared, th, move.1);
      LocalPoised(cfg, s.shared, th, move.1);
      hide LocalStep, Inv, Published, InHand, ChunkOk;
      NatSumUpdate(s.threads, move.0, LocalStep(cfg, s.shared, th, move.1).1, InHand);
    }
  }

  /** The potential grows only when a thread sees the queue empty; and then all published slots
      are in use or with some thread. */
  lemma StepPotential(cfg: Config, s: State, move: Move)
    requires BatchFits(cfg) && GrowthInv(cfg, s) && move.0 < |s.threads|
    ensures var r := Step(cfg, s, move);
            if SeesEmpty(s.shared, s.threads[move.0]) then Potential(cfg, r) <= Used(s) + cfg.chunkSize * |s.threads|
            else Potential(cfg, r) <= Potential(cfg, s)
  {
    var th, r := s.threads[move.0], Step(cfg, s, move);
    StepGrowthInv(cfg, s, move);
    PotentialBelowPublished(cfg, r);
    StepBalances(cfg, s, move);
    LocalPoised(cfg, s.shared, th, move.1);
    hide LocalStep, GrowthInv, Published, Used, Poised;
    var th' := LocalStep(cfg, s.shared, th, move.1).1;
    NatSumUpdate(s.threads, move.0, th', Poised);
    SumMoves(cfg.chunkSize, NatSum(s.threads, Poised), NatSum(r.threads, Poised), Poised(th), Poised(th'));
  }

  lemma SumMoves(c: nat, before: nat, after: nat, was: nat, now: nat)
    requires after + was == before + now
    ensures now <= was ==> c * after <= c * before
    ensures now + 1 == was ==> c * after + c == c * before
  {
    if now + 1 == was {
      Distribute(c, after, 1);
    } else if now <= was {
      Distribute(c, after, was - now);
    }
  }

  // ---- Whole runs ------------------------------------------------------------------------

  /** The most slots in use or with some thread at any time when a thread saw the free queue
      empty. */
  function PeakUsed(cfg: Config, s: State, schedule: seq<Move>, peak: nat): nat
    decreases |schedule|
  {
    if schedule == [] then peak
    else
      var (t, _) := schedule[0];
      var seen := if t < |s.threads| && SeesEmpty(s.shared, s.threads[t]) && Used(s) > peak then Used(s) else peak;
      PeakUsed(cfg, Step(cfg, s, schedule[0]), schedule[1..], seen)
  }

  predicate Bounded(cfg: Config, s: State, initialCount: nat, peak: nat) {
    Potential(cfg, s) <= initialCount || Potential(cfg, s) <= peak + cfg.chunkSize * |s.threads|
  }

  lemma {:induction false} RunBounded(cfg: Config, s: State, schedule: seq<Move>, initialCount: nat, peak: nat)
    requires BatchFits(cfg) && GrowthInv(cfg, s) && Bounded(cfg, s, initialCount, peak)
    ensures var r := Run(cfg, s, schedule);
            GrowthInv(cfg, r) && Bounded(cfg, r, initialCount, PeakUsed(cfg, s, schedule, peak))
    decreases |schedule|
  {
    if schedule == [] {
    } else {
      hide Step, GrowthInv, SeesEmpty, Used, Potential;
      var move := schedule[0];
      StepGrowthInv(cfg, s, move);
      var seen := if move.0 < |s.threads| && SeesEmpty(s.shared, s.threads[move.0]) && Used(s) > peak
                  then Used(s) else peak;
      if move.0 < |s.threads| {
        StepPotential(cfg, s, move);
      } else {
        NobodyMoves(cfg, s, move);
      }
      RunBounded(cfg, Step(cfg, s, move), schedule[1..], initialCount, seen);
    }
  }

  lemma NobodyMoves(cfg: Config, s: State, move: Move)
    requires move.0 >= |s.threads|
    ensures Step(cfg, s, move) == s
  {
  }

  lemma InitGrowth(cfg: Config, n: nat, initialCount: nat, memory: bool)
    ensures var s := Init(n, initialCount, memory);
            GrowthInv(cfg, s) && Potential(cfg, s) <= initialCount && |s.threads| == n
  {
    var s := Init(n, initialCount, memory);
    InitKeeps(cfg, n, initialCount, memory);
    NatSumZero(s.threads, InHand);
    NatSumZero(s.threads, Poised);
    NatSumZero(s.threads, Unlinked);
  }

  lemma AllocatedBelow(cfg: Config, s: State)
    requires GrowthInv(cfg, s)
    ensures s.shared.totalAllocated <= Potential(cfg, s)
  {
    hide Places, LinkedSum, NatSum;
  }

  /** Growth bound under every interleaving: the slots allocated never exceed the first chunk,
      or the slots that were in use or kept by threads at some moment when a thread saw the
      free queue empty, and one chunk for each thread. */
  lemma InterleavedGrowthBound(cfg: Config, n: nat, initialCount: nat, memory: bool, schedule: seq<Move>)
    requires BatchFits(cfg)
    ensures var start := Init(n, initialCount, memory);
            var total := Run(cfg, start, schedule).shared.totalAllocated;
            || total <= initialCount
            || total <= PeakUsed(cfg, start, schedule, 0) + cfg.chunkSize * n
  {
    var start := Init(n, initialCount, memory);
    InitGrowth(cfg, n, initialCount, memory);
    hide Init, Run, GrowthInv, Potential, PeakUsed;
    RunBounded(cfg, start, schedule, initialCount, 0);
    AllocatedBelow(cfg, Run(cfg, start, schedule));
  }
}
