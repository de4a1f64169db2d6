/** No slot is ever lost or handed out twice, growth is exclusive and the books balance, in
    every state that any interleaving of any number of threads can reach. */
module PoolSafety {
  import opened Sums
  import opened PoolMachine

  /** How often `x` is in a thread's local variables. */
  function LocalCount(pc: PC, x: Slot): nat {
    match pc
    case Stealing(batch) => Count(batch, x)
    case Returning(batch) => Count(batch, x)
    case Constructing(y) => if x == y then 1 else 0
    case PushingBack(y) => if x == y then 1 else 0
    case Releasing(y) => if x == y then 1 else 0
    case PushingFull(y) => if x == y then 1 else 0
    case _ => 0
  }

  /** How often a thread has `x`, cached or in transit. */
  function Holds(th: Thread, x: Slot): nat {
    Count(th.cache, x) + LocalCount(th.pc, x)
  }

  function HasSlot(x: Slot): Thread -> nat {
    (th: Thread) => Holds(th, x)
  }

  /** How often `x` is in the pool: in the free queue, in use, or with some thread. */
  function Places(s: State, x: Slot): nat {
    Count(s.shared.freeQueue, x) + s.shared.live[x] + NatSum(s.threads, HasSlot(x))
  }

  /** Between setting and clearing the growth flag. */
  function Growing(th: Thread): nat {
    match th.pc
    case Creating | Failing | Filling(_, _) | Loading(_) | Linking(_, _) | Counting(_) | Unflagging => 1
    case _ => 0
  }

  /** Slots pushed to the free queue from a chunk that is not in the list yet. */
  function Unlinked(th: Thread): nat {
    match th.pc
    case Filling(_, i) => i
    case Loading(chunk) => chunk.count
    case Linking(chunk, _) => chunk.count
    case _ => 0
  }

  /** The size of a chunk that exists but is not in the list yet. */
  function Reserved(th: Thread): nat {
    match th.pc
    case Filling(chunk, _) => chunk.count
    case Loading(chunk) => chunk.count
    case Linking(chunk, _) => chunk.count
    case _ => 0
  }

  /** Slots of a linked chunk that are not in `totalAllocated` yet. */
  function Uncounted(th: Thread): nat {
    match th.pc
    case Counting(count) => count
    case _ => 0
  }

  function LinkedSum(chunks: seq<Chunk>): nat {
    if chunks == [] then 0 else chunks[0].count + LinkedSum(chunks[1..])
  }

  /** The slots ever pushed from a chunk: addresses `0` to `Published(s) - 1`. */
  function Published(s: State): nat {
    LinkedSum(s.shared.chunkHead) + NatSum(s.threads, Unlinked)
  }

  /** The configurations under which a batch always fits the cache. */
  predicate BatchFits(cfg: Config) {
    cfg.batchSize <= DEFAULT_BATCH_SIZE && cfg.batchSize <= cfg.cacheSize + 1
  }

  /** What holds at each step of one thread. The first line is the fact that makes
      `AddBatch` safe: stealing is only reached with an empty cache. */
  predicate ThreadOk(cfg: Config, sh: Shared, th: Thread) {
    && (th.pc.Stealing? ==> th.cache == [] && |th.pc.batch| <= cfg.batchSize)
    && (th.pc.Popping? ==> th.cache == [])
    && (th.pc.Filling? ==> th.pc.filled <= th.pc.chunk.count)
    && (th.pc.Filling? || th.pc.Loading? || th.pc.Linking? ==> th.pc.chunk.base == LinkedSum(sh.chunkHead))
  }

  /** Every published slot is in exactly one place. */
  ghost predicate Inv(cfg: Config, s: State) {
    (forall x: Slot :: Places(s, x) == if x < Published(s) then 1 else 0) && Books(cfg, s)
  }

  /** No slot is in two places, and none that is not published is in any. */
  ghost predicate NothingTwice(cfg: Config, s: State) {
    (forall x: Slot :: Places(s, x) <= if x < Published(s) then 1 else 0) && Books(cfg, s)
  }

  /** The accounts of growth, and what holds of each thread. */
  ghost predicate Books(cfg: Config, s: State) {
    && (forall t :: 0 <= t < |s.threads| ==> ThreadOk(cfg, s.shared, s.threads[t]))
    && NatSum(s.threads, Growing) == (if s.shared.allocating then 1 else 0)
    && s.shared.totalAllocated + NatSum(s.threads, Uncounted) == LinkedSum(s.shared.chunkHead)
    && s.shared.memoryTop == LinkedSum(s.shared.chunkHead) + NatSum(s.threads, Reserved)
  }

  /** The step pushes a slot of a new chunk. */
  predicate Publishes(th: Thread) {
    th.pc.Filling? && th.pc.filled < th.pc.chunk.count
  }

  function NewSlot(th: Thread, x: Slot): nat {
    if Publishes(th) && x == th.pc.chunk.base + th.pc.filled then 1 else 0
  }

  lemma {:induction false} TakeBackSplits(cache: seq<Slot>, n: nat, x: Slot)
    requires n <= |cache|
    ensures Count(cache[..|cache| - n], x) + Count(TakeBack(cache, n), x) == Count(cache, x)
  {
    if n == 0 {
      assert cache[..|cache|] == cache;
    } else {
      var k := |cache| - n;
      TakeBackSplits(cache, n - 1, x);
      assert cache[..k + 1] == cache[..k] + [cache[k]];
      assert TakeBack(cache, n) == TakeBack(cache, n - 1) + [cache[k]];
      CountPush<Slot>(cache[..k], cache[k], x);
      CountPush<Slot>(TakeBack(cache, n - 1), cache[k], x);
    }
  }

  /** A step moves slots between the free queue, the callers, its thread's cache and locals,
      and adds the new one if it fills a chunk: none vanishes, none is copied. */
  predicate Conserves(sh: Shared, th: Thread, sh': Shared, th': Thread, x: Slot) {
    Count(sh'.freeQueue, x) + sh'.live[x] + Holds(th', x)
    == Count(sh.freeQueue, x) + sh.live[x] + Holds(th, x) + NewSlot(th, x)
  }

  lemma StartConserves(sh: Shared, th: Thread, choice: Choice, x: Slot)
    requires th.pc.Idle?
    ensures var (sh', th') := StartCall(sh, th, choice); Conserves(sh, th, sh', th', x)
  {
    if th.cache != [] {
      var last := |th.cache| - 1;
      assert th.cache == th.cache[..last] + [th.cache[last]];
      CountPush<Slot>(th.cache[..last], th.cache[last], x);
    }
  }

  lemma StealingConserves(cfg: Config, sh: Shared, th: Thread, choice: Choice, x: Slot)
    requires th.pc.Stealing? && ThreadOk(cfg, sh, th) && BatchFits(cfg)
    ensures var (sh', th') := AcquireStep(cfg, sh, th, choice); Conserves(sh, th, sh', th', x)
  {
    var batch := th.pc.batch;
    if |batch| < cfg.batchSize && sh.freeQueue != [] {
      CountPush<Slot>(batch, sh.freeQueue[0], x);
    } else if batch != [] {
      assert AddBatch(cfg, th.cache, batch[1..]) == batch[1..];
    }
  }

  lemma AcquireConserves(cfg: Config, sh: Shared, th: Thread, choice: Choice, x: Slot)
    requires !th.pc.Idle? && !InGrowth(th.pc) && !InRelease(th.pc) && !th.pc.Stealing?
    ensures var (sh', th') := AcquireStep(cfg, sh, th, choice); Conserves(sh, th, sh', th', x)
  {
    if th.pc.PushingBack? {
      CountPush<Slot>(sh.freeQueue, th.pc.slot, x);
    }
  }

  lemma GrowthConserves(cfg: Config, sh: Shared, th: Thread, choice: Choice, x: Slot)
    requires InGrowth(th.pc)
    ensures var (sh', th') := GrowthStep(cfg, sh, th, choice); Conserves(sh, th, sh', th', x)
  {
    if Publishes(th) {
      CountPush<Slot>(sh.freeQueue, th.pc.chunk.base + th.pc.filled, x);
    }
  }

  lemma ReturnConserves(cfg: Config, sh: Shared, th: Thread, x: Slot)
    requires th.pc.Checking?
    ensures var (sh', th') := ReleaseStep(cfg, sh, th); Conserves(sh, th, sh', th', x)
  {
    if |th.cache| > cfg.Threshold() {
      TakeBackSplits(th.cache, cfg.ReturnSize(|th.cache|), x);
    }
  }

  lemma ReleaseConserves(cfg: Config, sh: Shared, th: Thread, x: Slot)
    requires InRelease(th.pc) && !th.pc.Checking?
    ensures var (sh', th') := ReleaseStep(cfg, sh, th); Conserves(sh, th, sh', th', x)
  {
    match th.pc {
      case Releasing(y) => CountPush<Slot>(th.cache, y, x);
      case PushingFull(y) => CountPush<Slot>(sh.freeQueue, y, x);
      case Returning(batch) =>
        if batch != [] {
          CountPush<Slot>(sh.freeQueue, batch[0], x);
        }
    }
  }

  lemma LocalConserves(cfg: Config, sh: Shared, th: Thread, choice: Choice, x: Slot)
    requires ThreadOk(cfg, sh, th) && (th.pc.Stealing? ==> BatchFits(cfg))
    ensures var (sh', th') := LocalStep(cfg, sh, th, choice); Conserves(sh, th, sh', th', x)
  {
    if th.pc.Idle? {
      StartConserves(sh, th, choice, x);
    } else if InGrowth(th.pc) {
      GrowthConserves(cfg, sh, th, choice, x);
    } else if th.pc.Checking? {
      ReturnConserves(cfg, sh, th, x);
    } else if InRelease(th.pc) {
      ReleaseConserves(cfg, sh, th, x);
    } else if th.pc.Stealing? {
      StealingConserves(cfg, sh, th, choice, x);
    } else {
      AcquireConserves(cfg, sh, th, choice, x);
    }
  }

  /** Whatever the batch size: what does not fit the cache is lost, but nothing is copied. */
  lemma LocalCopiesNothing(cfg: Config, sh: Shared, th: Thread, choice: Choice, x: Slot)
    requires ThreadOk(cfg, sh, th)
    ensures var (sh', th') := LocalStep(cfg, sh, th, choice);
            Count(sh'.freeQueue, x) + sh'.live[x] + Holds(th', x)
            <= Count(sh.freeQueue, x) + sh.live[x] + Holds(th, x) + NewSlot(th, x)
  {
    if th.pc.Stealing? {
      StealingCopiesNothing(cfg, sh, th, choice, x);
    } else {
      LocalConserves(cfg, sh, th, choice, x);
    }
  }

  lemma StealingCopiesNothing(cfg: Config, sh: Shared, th: Thread, choice: Choice, x: Slot)
    requires th.pc.Stealing? && ThreadOk(cfg, sh, th)
    ensures var (sh', th') := AcquireStep(cfg, sh, th, choice);
            Count(sh'.freeQueue, x) + sh'.live[x] + Holds(th', x)
            <= Count(sh.freeQueue, x) + sh.live[x] + Holds(th, x)
  {
    var batch := th.pc.batch;
    if |batch| < cfg.batchSize && sh.freeQueue != [] {
      CountPush<Slot>(batch, sh.freeQueue[0], x);
    } else if batch != [] {
      var kept, rest := AddBatch(cfg, th.cache, batch[1..]), batch[1..];
      assert kept == rest[..|kept|];
      assert rest == rest[..|kept|] + rest[|kept|..];
      CountAppend(rest[..|kept|], rest[|kept|..], x);
    }
  }

  /** A step keeps its thread's share of every balance. */
  predicate Balances(sh: Shared, th: Thread, sh': Shared, th': Thread) {
    && LinkedSum(sh'.chunkHead) + Unlinked(th')
       == LinkedSum(sh.chunkHead) + Unlinked(th) + (if Publishes(th) then 1 else 0)
    && sh'.totalAllocated + Uncounted(th') + LinkedSum(sh.chunkHead)
       == sh.totalAllocated + Uncounted(th) + LinkedSum(sh'.chunkHead)
    && sh'.memoryTop + LinkedSum(sh.chunkHead) + Reserved(th)
       == sh.memoryTop + LinkedSum(sh'.chunkHead) + Reserved(th')
    && (if sh'.allocating then 1 else 0) + Growing(th) == (if sh.allocating then 1 else 0) + Growing(th')
  }

  /** A step outside `allocate_chunk` touches none of what growth is about. */
  lemma OtherStepsLeaveGrowth(cfg: Config, sh: Shared, th: Thread, choice: Choice)
    requires !InGrowth(th.pc)
    ensures var (sh', th') := LocalStep(cfg, sh, th, choice);
            && sh' == sh.(freeQueue := sh'.freeQueue, live := sh'.live)
            && (InGrowth(th'.pc) ==> th'.pc.Flagging?)
            && (th'.pc.Stealing? || th'.pc.Popping? ==> ThreadOk(cfg, sh, th) ==> ThreadOk(cfg, sh, th'))
  {
    if InRelease(th.pc) {
      ReleaseLeavesGrowth(cfg, sh, th);
    } else if !th.pc.Idle? {
      AcquireLeavesGrowth(cfg, sh, th, choice);
    } else {
      hide GrowthStep, ReleaseStep, AcquireStep, LinkedSum;
    }
  }

  lemma ReleaseLeavesGrowth(cfg: Config, sh: Shared, th: Thread)
    requires InRelease(th.pc)
    ensures var (sh', th') := ReleaseStep(cfg, sh, th);
            && sh' == sh.(freeQueue := sh'.freeQueue, live := sh'.live)
            && !InGrowth(th'.pc) && !th'.pc.Stealing? && !th'.pc.Popping?
  {
  }

  lemma AcquireLeavesGrowth(cfg: Config, sh: Shared, th: Thread, choice: Choice)
    requires !th.pc.Idle? && !InGrowth(th.pc) && !InRelease(th.pc)
    ensures var (sh', th') := AcquireStep(cfg, sh, th, choice);
            && sh' == sh.(freeQueue := sh'.freeQueue, live := sh'.live)
            && (InGrowth(th'.pc) ==> th'.pc.Flagging?)
            && (th'.pc.Stealing? || th'.pc.Popping? ==> ThreadOk(cfg, sh, th) ==> ThreadOk(cfg, sh, th'))
  {
    hide LinkedSum;
  }

  lemma GrowthBalances(cfg: Config, sh: Shared, th: Thread, choice: Choice)
    requires InGrowth(th.pc) && ThreadOk(cfg, sh, th)
    requires Growing(th) == 1 ==> sh.allocating
    requires Growing(th) == 1 ==> sh.memoryTop == LinkedSum(sh.chunkHead) + Reserved(th)
    ensures var (sh', th') := GrowthStep(cfg, sh, th, choice);
            && Balances(sh, th, sh', th')
            && ThreadOk(cfg, sh', th')
            && (LinkedSum(sh'.chunkHead) != LinkedSum(sh.chunkHead) ==> Growing(th) == 1)
  {
    if th.pc.Linking? {
      assert ([th.pc.chunk] + th.pc.oldHead)[1..] == th.pc.oldHead;
    } else {
      hide LinkedSum;
    }
  }

  lemma LocalBalances(cfg: Config, sh: Shared, th: Thread, choice: Choice)
    requires ThreadOk(cfg, sh, th)
    requires Growing(th) == 1 ==> sh.allocating
    requires Growing(th) == 1 ==> sh.memoryTop == LinkedSum(sh.chunkHead) + Reserved(th)
    ensures var (sh', th') := LocalStep(cfg, sh, th, choice);
            && Balances(sh, th, sh', th')
            && ThreadOk(cfg, sh', th')
            && (LinkedSum(sh'.chunkHead) != LinkedSum(sh.chunkHead) ==> Growing(th) == 1)
  {
    if InGrowth(th.pc) {
      GrowthBalances(cfg, sh, th, choice);
    } else {
      OtherStepsLeaveGrowth(cfg, sh, th, choice);
    }
  }

  /** While one thread grows the pool, no other does. */
  lemma GrowsAlone(cfg: Config, s: State, t: nat)
    requires Books(cfg, s) && t < |s.threads| && Growing(s.threads[t]) == 1
    ensures s.shared.allocating
    ensures forall u :: 0 <= u < |s.threads| && u != t ==> Growing(s.threads[u]) == 0
    ensures NatSum(s.threads, Unlinked) == Unlinked(s.threads[t])
    ensures NatSum(s.threads, Reserved) == Reserved(s.threads[t])
    ensures NatSum(s.threads, Uncounted) == Uncounted(s.threads[t])
  {
    NatSumMember(s.threads, t, Growing);
    forall u | 0 <= u < |s.threads| && u != t
      ensures Growing(s.threads[u]) == 0
    {
      if u < t {
        NatSumPair(s.threads, u, t, Growing);
      } else {
        NatSumPair(s.threads, t, u, Growing);
      }
    }
    NatSumOnly(s.threads, t, Unlinked);
    NatSumOnly(s.threads, t, Reserved);
    NatSumOnly(s.threads, t, Uncounted);
  }

  /** Over all threads: a step changes the places of no slot but the new one, if there is one. */
  lemma StepConserves(cfg: Config, s: State, move: Move, x: Slot)
    requires BatchFits(cfg) && move.0 < |s.threads| && ThreadOk(cfg, s.shared, s.threads[move.0])
    ensures Places(Step(cfg, s, move), x) == Places(s, x) + NewSlot(s.threads[move.0], x)
  {
    var (t, choice) := move;
    LocalConserves(cfg, s.shared, s.threads[t], choice, x);
    NatSumUpdate(s.threads, t, LocalStep(cfg, s.shared, s.threads[t], choice).1, HasSlot(x));
  }

  /** Over all threads: the numbers of `Books`, */
  lemma StepNumbers(cfg: Config, s: State, move: Move)
    requires Books(cfg, s) && move.0 < |s.threads|
    ensures var s' := Step(cfg, s, move);
            && Published(s') == Published(s) + (if Publishes(s.threads[move.0]) then 1 else 0)
            && NatSum(s'.threads, Growing) == (if s'.shared.allocating then 1 else 0)
            && s'.shared.totalAllocated + NatSum(s'.threads, Uncounted) == LinkedSum(s'.shared.chunkHead)
            && s'.shared.memoryTop == LinkedSum(s'.shared.chunkHead) + NatSum(s'.threads, Reserved)
  {
    var (t, choice) := move;
    var th := s.threads[t];
    if Growing(th) == 1 {
      GrowsAlone(cfg, s, t);
    }
    LocalBalances(cfg, s.shared, th, choice);
    hide LocalStep, NatSum, LinkedSum, ThreadOk, Places;
    var th' := LocalStep(cfg, s.shared, th, choice).1;
    NatSumUpdate(s.threads, t, th', Growing);
    NatSumUpdate(s.threads, t, th', Unlinked);
    NatSumUpdate(s.threads, t, th', Reserved);
    NatSumUpdate(s.threads, t, th', Uncounted);
  }

  /** and what holds of each thread. */
  lemma StepThreads(cfg: Config, s: State, move: Move)
    requires Books(cfg, s) && move.0 < |s.threads|
    ensures var s' := Step(cfg, s, move);
            forall u :: 0 <= u < |s'.threads| ==> ThreadOk(cfg, s'.shared, s'.threads[u])
  {
    var (t, choice) := move;
    var th := s.threads[t];
    if Growing(th) == 1 {
      GrowsAlone(cfg, s, t);
    }
    LocalBalances(cfg, s.shared, th, choice);
    hide LocalStep, NatSum, LinkedSum, Places, Balances;
  }

  lemma StepBalances(cfg: Config, s: State, move: Move)
    requires Books(cfg, s) && move.0 < |s.threads|
    ensures var s' := Step(cfg, s, move);
            && Published(s') == Published(s) + (if Publishes(s.threads[move.0]) then 1 else 0)
            && NatSum(s'.threads, Growing) == (if s'.shared.allocating then 1 else 0)
            && s'.shared.totalAllocated + NatSum(s'.threads, Uncounted) == LinkedSum(s'.shared.chunkHead)
            && s'.shared.memoryTop == LinkedSum(s'.shared.chunkHead) + NatSum(s'.threads, Reserved)
            && forall u :: 0 <= u < |s'.threads| ==> ThreadOk(cfg, s'.shared, s'.threads[u])
  {
    hide Step, Books, Published, ThreadOk;
    StepNumbers(cfg, s, move);
    StepThreads(cfg, s, move);
  }

  /** A slot pushed from a new chunk is the next address that was never published. */
  lemma NewSlotIsNext(cfg: Config, s: State, t: nat)
    requires Books(cfg, s) && t < |s.threads| && Publishes(s.threads[t])
    ensures s.threads[t].pc.chunk.base + s.threads[t].pc.filled == Published(s)
  {
    GrowsAlone(cfg, s, t);
  }

  lemma StepKeeps(cfg: Config, s: State, move: Move)
    requires BatchFits(cfg) && Inv(cfg, s)
    ensures Inv(cfg, Step(cfg, s, move))
  {
    if move.0 < |s.threads| {
      StepBalances(cfg, s, move);
      forall x: Slot
        ensures Places(Step(cfg, s, move), x) == if x < Published(Step(cfg, s, move)) then 1 else 0
      {
        StepConserves(cfg, s, move, x);
        if Publishes(s.threads[move.0]) {
          NewSlotIsNext(cfg, s, move.0);
        }
      }
    }
  }

  /** With any batch size. */
  lemma StepCopiesNothing(cfg: Config, s: State, move: Move)
    requires NothingTwice(cfg, s)
    ensures NothingTwice(cfg, Step(cfg, s, move))
  {
    if move.0 < |s.threads| {
      var (t, choice) := move;
      StepBalances(cfg, s, move);
      forall x: Slot
        ensures Places(Step(cfg, s, move), x) <= if x < Published(Step(cfg, s, move)) then 1 else 0
      {
        LocalCopiesNothing(cfg, s.shared, s.threads[t], choice, x);
        NatSumUpdate(s.threads, t, LocalStep(cfg, s.shared, s.threads[t], choice).1, HasSlot(x));
        assert Places(s, x) <= if x < Published(s) then 1 else 0;
        if Publishes(s.threads[t]) {
          NewSlotIsNext(cfg, s, t);
        }
      }
    }
  }

  lemma {:induction false} RunCopiesNothing(cfg: Config, s: State, schedule: seq<Move>)
    requires NothingTwice(cfg, s)
    ensures NothingTwice(cfg, Run(cfg, s, schedule))
    decreases |schedule|
  {
    if schedule == [] {
    } else {
      hide Step, NothingTwice;
      StepCopiesNothing(cfg, s, schedule[0]);
      RunCopiesNothing(cfg, Step(cfg, s, schedule[0]), schedule[1..]);
    }
  }

  lemma {:induction false} RunKeeps(cfg: Config, s: State, schedule: seq<Move>)
    requires BatchFits(cfg) && Inv(cfg, s)
    ensures Inv(cfg, Run(cfg, s, schedule))
    decreases |schedule|
  {
    if schedule == [] {
    } else {
      StepKeeps(cfg, s, schedule[0]);
      RunKeeps(cfg, Step(cfg, s, schedule[0]), schedule[1..]);
    }
  }

  lemma {:induction false} FirstSlots(n: nat, x: Slot)
    ensures Count<Slot>(seq(n, i => i), x) == if x < n then 1 else 0
  {
    if n == 0 {
    } else {
      FirstSlots(n - 1, x);
      assert seq(n, i => i) == seq(n - 1, i => i) + [n - 1];
      CountPush<Slot>(seq(n - 1, i => i), n - 1, x);
    }
  }

  lemma InitKeeps(cfg: Config, n: nat, initialCount: nat, memory: bool)
    ensures Inv(cfg, Init(n, initialCount, memory))
  {
    var s := Init(n, initialCount, memory);
    forall th <- s.threads
      ensures th == Thread([], Idle)
    {
    }
    NatSumZero(s.threads, Growing);
    NatSumZero(s.threads, Unlinked);
    NatSumZero(s.threads, Reserved);
    NatSumZero(s.threads, Uncounted);
    assert LinkedSum(s.shared.chunkHead) == if memory then initialCount else 0;
    forall x: Slot
      ensures Places(s, x) == if x < Published(s) then 1 else 0
    {
      NatSumZero(s.threads, HasSlot(x));
      FirstSlots(initialCount, x);
    }
  }

  /** Every published slot is in exactly one place, in every reachable state. */
  lemma EverySlotInOnePlace(
      cfg: Config, n: nat, initialCount: nat, memory: bool, schedule: seq<Move>, x: Slot)
    requires BatchFits(cfg)
    ensures var s := Run(cfg, Init(n, initialCount, memory), schedule);
            Places(s, x) == if x < Published(s) then 1 else 0
  {
    InitKeeps(cfg, n, initialCount, memory);
    RunKeeps(cfg, Init(n, initialCount, memory), schedule);
  }

  /** With every batch size, no slot is ever in two places. */
  lemma NoSlotTwice(cfg: Config, n: nat, initialCount: nat, memory: bool, schedule: seq<Move>, x: Slot)
    ensures var s := Run(cfg, Init(n, initialCount, memory), schedule);
            Books(cfg, s) && Places(s, x) <= if x < Published(s) then 1 else 0
  {
    InitKeeps(cfg, n, initialCount, memory);
    RunCopiesNothing(cfg, Init(n, initialCount, memory), schedule);
  }
}
