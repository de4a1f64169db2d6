/** The object pool under concurrency. Threads call `acquire` and `release`; every pop or
    push of the shared free queue, every operation on the growth flag, every load or
    compare-and-swap of the chunk list head and the counter update is one atomic step of one
    thread, and a slot held in a local variable between two steps belongs to that thread. */
module PoolMachine {
  import opened Sums

  /** The address of an object slot. */
  type Slot = nat

  const DEFAULT_BATCH_SIZE: nat := 16

  datatype Config = Config(chunkSize: nat, cacheSize: nat, batchSize: nat) {
    /** The cache size above which a batch goes back to the free queue. */
    function Threshold(): nat {
      cacheSize * 3 / 4
    }

    /** How many slots a batch return takes out of a cache of the given size. */
    function ReturnSize(size: nat): (n: nat)
      ensures n <= batchSize && n <= 16 && n <= size
      ensures n == batchSize || n == 16 || n == size
    {
      Least(batchSize, DEFAULT_BATCH_SIZE, size)
    }
  }

  /** A block of memory: `count` slots from address `base` on. */
  datatype Chunk = Chunk(base: Slot, count: nat)

  /** `memoryTop` is the first address that no chunk has; `live` are the slots in use by
      callers. */
  datatype Shared = Shared(
    freeQueue: seq<Slot>, chunkHead: seq<Chunk>, totalAllocated: nat, allocating: bool,
    memoryTop: nat, live: multiset<Slot>)

  datatype PC =
    | Idle
    // acquire
    | Popping
    | Stealing(batch: seq<Slot>)
    | Flagging
    | Creating
    | Failing
    | Filling(chunk: Chunk, filled: nat)
    | Loading(chunk: Chunk)
    | Linking(chunk: Chunk, oldHead: seq<Chunk>)
    | Counting(count: nat)
    | Unflagging
    | PoppingGrown
    | Retrying(tries: nat)
    | Constructing(slot: Slot)
    | PushingBack(slot: Slot)
    // release
    | Releasing(slot: Slot)
    | PushingFull(slot: Slot)
    | Checking
    | Returning(batch: seq<Slot>)

  datatype Thread = Thread(cache: seq<Slot>, pc: PC)

  datatype State = State(shared: Shared, threads: seq<Thread>)

  /** What the scheduler and the environment decide: an idle thread starts a call; `Fail`
      makes the memory allocation, the weak compare-and-swap or the constructor fail. */
  datatype Choice = Acquire | Release(slot: Slot) | Go | Fail

  /** The thread-local cache takes objects only while there is room; the rest is dropped. */
  function AddBatch(cfg: Config, cache: seq<Slot>, objects: seq<Slot>): (r: seq<Slot>)
    ensures cache <= r <= cache + objects
    ensures |r| == |cache| + |objects| || |r| >= cfg.cacheSize
    ensures |r| > |cache| ==> |r| <= cfg.cacheSize
  {
    if |cache| >= cfg.cacheSize then cache
    else if |objects| <= cfg.cacheSize - |cache| then cache + objects
    else cache + objects[..cfg.cacheSize - |cache|]
  }

  /** The last `n` elements, last first. */
  function TakeBack(cache: seq<Slot>, n: nat): seq<Slot>
    requires n <= |cache|
  {
    seq(n, i requires 0 <= i < n => cache[|cache| - 1 - i])
  }

  /** A pop of the free queue that continues with the popped slot. */
  function PopInto(sh: Shared, cache: seq<Slot>, otherwise: PC): (Shared, Thread) {
    if sh.freeQueue != []
    then (sh.(freeQueue := sh.freeQueue[1..]), Thread(cache, Constructing(sh.freeQueue[0])))
    else (sh, Thread(cache, otherwise))
  }

  function Push(sh: Shared, slot: Slot): Shared {
    sh.(freeQueue := sh.freeQueue + [slot])
  }

  function StartCall(sh: Shared, th: Thread, choice: Choice): (Shared, Thread)
    requires th.pc.Idle?
  {
    match choice
    case Acquire =>
      if th.cache == [] then (sh, Thread(th.cache, Popping))
      else (sh, Thread(th.cache[..|th.cache| - 1], Constructing(th.cache[|th.cache| - 1])))
    case Release(x) =>
      if x in sh.live then (sh.(live := sh.live - multiset{x}), Thread(th.cache, Releasing(x)))
      else (sh, th)
    case _ => (sh, th)
  }

  /** The rest of `acquire`, but for the growth of the pool. */
  function AcquireStep(cfg: Config, sh: Shared, th: Thread, choice: Choice): (Shared, Thread)
    requires !th.pc.Idle? && !InGrowth(th.pc) && !InRelease(th.pc)
  {
    match th.pc
    case Popping => PopInto(sh, th.cache, Stealing([]))
    case Stealing(batch) =>
      if |batch| < cfg.batchSize && sh.freeQueue != [] then
        (sh.(freeQueue := sh.freeQueue[1..]), Thread(th.cache, Stealing(batch + [sh.freeQueue[0]])))
      else if batch == [] then (sh, Thread(th.cache, Flagging))
      else (sh, Thread(AddBatch(cfg, th.cache, batch[1..]), Constructing(batch[0])))
    case PoppingGrown => PopInto(sh, th.cache, Idle)
    case Retrying(tries) =>
      if tries < 20 then PopInto(sh, th.cache, Retrying(tries + 1))
      else (sh, Thread(th.cache, Idle))
    case Constructing(x) =>
      if choice == Fail then (sh, Thread(th.cache, PushingBack(x)))
      else (sh.(live := sh.live + multiset{x}), Thread(th.cache, Idle))
    case PushingBack(x) => (Push(sh, x), Thread(th.cache, Idle))
  }

  /** `allocate_chunk`. */
  predicate InGrowth(pc: PC) {
    match pc
    case Flagging | Creating | Failing | Filling(_, _) | Loading(_) | Linking(_, _)
       | Counting(_) | Unflagging => true
    case _ => false
  }

  function GrowthStep(cfg: Config, sh: Shared, th: Thread, choice: Choice): (Shared, Thread)
    requires InGrowth(th.pc)
  {
    match th.pc
    case Flagging =>
      if sh.allocating then (sh, Thread(th.cache, Retrying(0)))
      else (sh.(allocating := true), Thread(th.cache, Creating))
    case Creating =>
      if choice == Fail then (sh, Thread(th.cache, Failing))
      else (sh.(memoryTop := sh.memoryTop + cfg.chunkSize),
            Thread(th.cache, Filling(Chunk(sh.memoryTop, cfg.chunkSize), 0)))
    case Failing => (sh.(allocating := false), Thread(th.cache, Retrying(0)))
    case Filling(chunk, i) =>
      if i < chunk.count then (Push(sh, chunk.base + i), Thread(th.cache, Filling(chunk, i + 1)))
      else (sh, Thread(th.cache, Loading(chunk)))
    case Loading(chunk) => (sh, Thread(th.cache, Linking(chunk, sh.chunkHead)))
    case Linking(chunk, head) =>
      if choice != Fail && sh.chunkHead == head
      then (sh.(chunkHead := [chunk] + head), Thread(th.cache, Counting(chunk.count)))
      else (sh, Thread(th.cache, Linking(chunk, sh.chunkHead)))
    case Counting(count) =>
      (sh.(totalAllocated := sh.totalAllocated + count), Thread(th.cache, Unflagging))
    case Unflagging => (sh.(allocating := false), Thread(th.cache, PoppingGrown))
  }

  predicate InRelease(pc: PC) {
    pc.Releasing? || pc.PushingFull? || pc.Checking? || pc.Returning?
  }

  function ReleaseStep(cfg: Config, sh: Shared, th: Thread): (Shared, Thread)
    requires InRelease(th.pc)
  {
    match th.pc
    case Releasing(x) =>
      if |th.cache| < cfg.cacheSize then (sh, Thread(th.cache + [x], Checking))
      else (sh, Thread(th.cache, PushingFull(x)))
    case PushingFull(x) => (Push(sh, x), Thread(th.cache, Checking))
    case Checking =>
      if |th.cache| > cfg.Threshold() then
        var n := cfg.ReturnSize(|th.cache|);
        (sh, Thread(th.cache[..|th.cache| - n], Returning(TakeBack(th.cache, n))))
      else (sh, Thread(th.cache, Idle))
    case Returning(batch) =>
      if batch == [] then (sh, Thread(th.cache, Idle))
      else (Push(sh, batch[0]), Thread(th.cache, Returning(batch[1..])))
  }

  /** One atomic step of one thread. */
  function LocalStep(cfg: Config, sh: Shared, th: Thread, choice: Choice): (Shared, Thread) {
    if th.pc.Idle? then StartCall(sh, th, choice)
    else if InGrowth(th.pc) then GrowthStep(cfg, sh, th, choice)
    else if InRelease(th.pc) then ReleaseStep(cfg, sh, th)
    else AcquireStep(cfg, sh, th, choice)
  }

  type Move = (nat, Choice)

  function Step(cfg: Config, s: State, move: Move): (r: State)
    ensures |r.threads| == |s.threads|
  {
    if move.0 >= |s.threads| then s
    else
      var (sh, th) := LocalStep(cfg, s.shared, s.threads[move.0], move.1);
      State(sh, s.threads[move.0 := th])
  }

  /** The state after a schedule: an arbitrary interleaving of the threads. */
  function Run(cfg: Config, s: State, schedule: seq<Move>): (r: State)
    decreases |schedule|
    ensures |r.threads| == |s.threads|
  {
    if schedule == [] then s else Run(cfg, Step(cfg, s, schedule[0]), schedule[1..])
  }

  /** A new pool shared by `n` threads: the constructor has tried to add a first chunk. */
  function Init(n: nat, initialCount: nat, memory: bool): State {
    State(
      if memory
      then Shared(seq(initialCount, i => i), [Chunk(0, initialCount)], initialCount, false, initialCount, multiset{})
      else Shared([], [], 0, false, 0, multiset{}),
      seq(n, _ => Thread([], Idle)))
  }

  lemma {:induction false} RunAppend(cfg: Config, s: State, a: seq<Move>, b: seq<Move>)
    ensures Run(cfg, s, a + b) == Run(cfg, Run(cfg, s, a), b)
    decreases |a|
  {
    if a == [] {
      assert a + b == b;
    } else {
      assert (a + b)[1..] == a[1..] + b;
      RunAppend(cfg, Step(cfg, s, a[0]), a[1..], b);
    }
  }
}
