/** What the configuration decides: which batch sizes are safe, which keep the caches low,
    and how far a pool can grow. */
module PoolBounds {
  import opened Sums
  import opened PoolMachine
  import opened PoolSafety
  import opened PoolOperations

  // ---- Safety of one state, spelled out -------------------------------------------------

  /** A slot about to be given to a caller is nowhere else: nobody uses it, nobody else
      holds or caches it and it cannot be popped again. */
  lemma NeverHandedOutTwice(
      cfg: Config, n: nat, initialCount: nat, memory: bool, schedule: seq<Move>, t: nat)
    requires var s := Run(cfg, Init(n, initialCount, memory), schedule);
             t < n && s.threads[t].pc.Constructing?
    ensures var s := Run(cfg, Init(n, initialCount, memory), schedule);
            var x := s.threads[t].pc.slot;
            && x !in s.shared.live && x !in s.shared.freeQueue && x !in s.threads[t].cache
            && forall u :: 0 <= u < n && u != t ==> Holds(s.threads[u], x) == 0
  {
    var s := Run(cfg, Init(n, initialCount, memory), schedule);
    var x := s.threads[t].pc.slot;
    NoSlotTwice(cfg, n, initialCount, memory, schedule, x);
    NatSumMember(s.threads, t, HasSlot(x));
    CountMember(s.shared.freeQueue, x);
    CountMember(s.threads[t].cache, x);
    forall u | 0 <= u < n && u != t
      ensures Holds(s.threads[u], x) == 0
    {
      if u < t {
        NatSumPair(s.threads, u, t, HasSlot(x));
      } else {
        NatSumPair(s.threads, t, u, HasSlot(x));
      }
    }
  }

  /** Growth is exclusive, and the counter lags behind the linked chunks only while the one
      growing thread stands between linking its chunk and counting it. */
  lemma GrowthIsExclusive(
      cfg: Config, n: nat, initialCount: nat, memory: bool, schedule: seq<Move>)
    ensures var s := Run(cfg, Init(n, initialCount, memory), schedule);
            && (forall t, u :: 0 <= t < u < n ==> Growing(s.threads[t]) + Growing(s.threads[u]) <= 1)
            && (forall t :: 0 <= t < n && Growing(s.threads[t]) == 1 ==>
                  && s.shared.totalAllocated + Uncounted(s.threads[t]) == LinkedSum(s.shared.chunkHead)
                  && Published(s) == LinkedSum(s.shared.chunkHead) + Unlinked(s.threads[t]))
            && (!s.shared.allocating ==>
                  s.shared.totalAllocated == LinkedSum(s.shared.chunkHead) == Published(s) == s.shared.memoryTop)
  {
    var s := Run(cfg, Init(n, initialCount, memory), schedule);
    NoSlotTwice(cfg, n, initialCount, memory, schedule, 0);
    hide Run, Init, NatSum, LinkedSum, ThreadOk, Places;
    forall t | 0 <= t < n && Growing(s.threads[t]) == 1
      ensures s.shared.totalAllocated + Uncounted(s.threads[t]) == LinkedSum(s.shared.chunkHead)
      ensures Published(s) == LinkedSum(s.shared.chunkHead) + Unlinked(s.threads[t])
      ensures forall u :: 0 <= u < n && u != t ==> Growing(s.threads[u]) == 0
    {
      GrowsAlone(cfg, s, t);
    }
    if !s.shared.allocating {
      NobodyGrows(cfg, s);
    }
  }

  lemma NobodyGrows(cfg: Config, s: State)
    requires Books(cfg, s) && !s.shared.allocating
    ensures NatSum(s.threads, Unlinked) == NatSum(s.threads, Reserved) == NatSum(s.threads, Uncounted) == 0
  {
    forall th | th in s.threads
      ensures Growing(th) == 0
    {
      var t :| 0 <= t < |s.threads| && s.threads[t] == th;
      NatSumMember(s.threads, t, Growing);
    }
    NatSumZero(s.threads, Unlinked);
    NatSumZero(s.threads, Reserved);
    NatSumZero(s.threads, Uncounted);
  }

  // ---- Hysteresis of the caches ---------------------------------------------------------

  /** The configurations under which a stolen batch does not lift a cache over its threshold. */
  predicate StaysLow(cfg: Config) {
    && 1 <= cfg.batchSize <= DEFAULT_BATCH_SIZE
    && (cfg.batchSize - 1 <= cfg.Threshold() || cfg.cacheSize == 0)
  }

  predicate CacheOk(cfg: Config, th: Thread) {
    match th.pc
    case Popping => th.cache == []
    case Stealing(batch) => th.cache == [] && |batch| <= cfg.batchSize
    case Checking => |th.cache| <= cfg.Threshold() + 1
    case PushingFull(_) => |th.cache| <= cfg.Threshold() && cfg.cacheSize == 0
    case _ => |th.cache| <= cfg.Threshold()
  }

  lemma LocalCacheOk(cfg: Config, sh: Shared, th: Thread, choice: Choice)
    requires StaysLow(cfg) && CacheOk(cfg, th)
    ensures CacheOk(cfg, LocalStep(cfg, sh, th, choice).1)
  {
    if InGrowth(th.pc) {
      GrowthCacheOk(cfg, sh, th, choice);
    } else if InRelease(th.pc) {
      ReleaseCacheOk(cfg, sh, th);
    } else if !th.pc.Idle? {
      AcquireCacheOk(cfg, sh, th, choice);
    } else {
      hide GrowthStep, ReleaseStep, AcquireStep;
    }
  }

  lemma GrowthCacheOk(cfg: Config, sh: Shared, th: Thread, choice: Choice)
    requires CacheOk(cfg, th) && InGrowth(th.pc)
    ensures CacheOk(cfg, GrowthStep(cfg, sh, th, choice).1)
  {
  }

  lemma ReleaseCacheOk(cfg: Config, sh: Shared, th: Thread)
    requires StaysLow(cfg) && CacheOk(cfg, th) && InRelease(th.pc)
    ensures CacheOk(cfg, ReleaseStep(cfg, sh, th).1)
  {
  }

  lemma AcquireCacheOk(cfg: Config, sh: Shared, th: Thread, choice: Choice)
    requires StaysLow(cfg) && CacheOk(cfg, th) && !th.pc.Idle? && !InGrowth(th.pc) && !InRelease(th.pc)
    ensures CacheOk(cfg, AcquireStep(cfg, sh, th, choice).1)
  {
  }

  ghost predicate CachesOk(cfg: Config, s: State) {
    forall t :: 0 <= t < |s.threads| ==> CacheOk(cfg, s.threads[t])
  }

  lemma {:induction false} RunKeepsCachesOk(cfg: Config, s: State, schedule: seq<Move>)
    requires StaysLow(cfg) && CachesOk(cfg, s)
    ensures CachesOk(cfg, Run(cfg, s, schedule))
    decreases |schedule|
  {
    if schedule == [] {
    } else {
      var (t, choice) := schedule[0];
      if t < |s.threads| {
        LocalCacheOk(cfg, s.shared, s.threads[t], choice);
      }
      RunKeepsCachesOk(cfg, Step(cfg, s, schedule[0]), schedule[1..]);
    }
  }

  /** Between calls every cache is at or below its threshold, and a cache that can hold
      anything is never found full by a release: the fallback push never happens. */
  lemma CachesStayLow(cfg: Config, n: nat, initialCount: nat, memory: bool, schedule: seq<Move>, t: nat)
    requires StaysLow(cfg) && t < n
    ensures var th := Run(cfg, Init(n, initialCount, memory), schedule).threads[t];
            && (th.pc == Idle ==> |th.cache| <= cfg.Threshold())
            && (th.pc.PushingFull? ==> cfg.cacheSize == 0)
  {
    RunKeepsCachesOk(cfg, Init(n, initialCount, memory), schedule);
  }

  // ---- Which batch sizes are safe: exactly ----------------------------------------------

  lemma {:induction false} StealRun(cfg: Config, sh: Shared, batch: seq<Slot>)
    requires |batch| + |sh.freeQueue| == cfg.batchSize && cfg.batchSize > 0
    ensures LocalRun(cfg, sh, Thread([], Stealing(batch)), Gos(|sh.freeQueue| + 2))
            == (var all := batch + sh.freeQueue;
                (sh.(freeQueue := [], live := sh.live + multiset{all[0]}),
                 Thread(AddBatch(cfg, [], all[1..]), Idle)))
    decreases |sh.freeQueue|
  {
    var left := |sh.freeQueue|;
    assert Gos(left + 2)[1..] == Gos(left + 1);
    if left > 0 {
      StealRun(cfg, sh.(freeQueue := sh.freeQueue[1..]), batch + [sh.freeQueue[0]]);
      assert batch + [sh.freeQueue[0]] + sh.freeQueue[1..] == batch + sh.freeQueue;
    } else {
      assert batch + sh.freeQueue == batch;
      assert Gos(1)[1..] == Gos(0);
      assert sh.freeQueue == [];
    }
  }

  /** A caller with an empty cache sees the empty queue and turns to stealing. */
  lemma SeeEmpty(cfg: Config, sh: Shared)
    requires sh.freeQueue == []
    ensures LocalRun(cfg, sh, Thread([], Idle), [Acquire, Go]) == (sh, Thread([], Stealing([])))
  {
    assert [Acquire, Go][1..] == [Go] && [Go][1..] == [];
  }

  lemma SeeEmptyAndGrow(cfg: Config, sh: Shared) returns (choices: seq<Choice>)
    requires sh.freeQueue == [] && !sh.allocating
    ensures LocalRun(cfg, sh, Thread([], Idle), choices) == (Grown(sh, cfg.chunkSize), Thread([], PoppingGrown))
  {
    SeeEmpty(cfg, sh);
    var grow := GrowRun(cfg, sh, []);
    LocalRunFirst(cfg, sh, Thread([], Stealing([])), Go, grow);
    LocalRunAppend(cfg, sh, Thread([], Idle), [Acquire, Go], [Go] + grow);
    choices := [Acquire, Go] + ([Go] + grow);
  }

  /** The race that makes a batch: thread 0 sees the queue empty, thread 1 fills it with a
      chunk, thread 0 steals the whole chunk. */
  lemma StealingRace(cfg: Config) returns (schedule: seq<Move>)
    requires cfg.chunkSize == cfg.batchSize > 0
    ensures Run(cfg, Init(2, 0, false), schedule)
            == State(Shared([], [Chunk(0, cfg.batchSize)], cfg.batchSize, false, cfg.batchSize, multiset{0}),
                     [Thread(AddBatch(cfg, [], ChunkSlots(1, cfg.batchSize - 1)), Idle),
                      Thread([], PoppingGrown)])
  {
    hide LocalRun, LocalStep, Run;
    var s := Init(2, 0, false);
    var stealing, grown := Thread([], Stealing([])), Grown(s.shared, cfg.chunkSize);
    SeeEmpty(cfg, s.shared);
    var first := Solo(0, [Acquire, Go]);
    SoloRun(cfg, s, 0, [Acquire, Go]);
    var s1 := State(s.shared, s.threads[0 := stealing]);

    var choices := SeeEmptyAndGrow(cfg, s.shared);
    var second := Solo(1, choices);
    SoloRun(cfg, s1, 1, choices);
    var s2 := State(grown, s1.threads[1 := Thread([], PoppingGrown)]);

    assert grown.freeQueue == ChunkSlots(0, cfg.batchSize) == [] + grown.freeQueue;
    assert grown.freeQueue[1..] == ChunkSlots(1, cfg.batchSize - 1);
    StealRun(cfg, grown, []);
    var third := Solo(0, Gos(cfg.batchSize + 2));
    SoloRun(cfg, s2, 0, Gos(cfg.batchSize + 2));

    schedule := first + (second + third);
    RunAppend(cfg, s, first, second + third);
    RunAppend(cfg, s1, second, third);
  }

  /** No run of any pool with these cache and batch sizes loses or copies a slot. */
  ghost predicate NeverLoses(cacheSize: nat, batchSize: nat) {
    forall chunkSize: nat, n: nat, initialCount: nat, memory: bool, schedule: seq<Move>, x: Slot ::
      var s := Run(Config(chunkSize, cacheSize, batchSize), Init(n, initialCount, memory), schedule);
      Places(s, x) == if x < Published(s) then 1 else 0
  }

  /** Of the batch sizes that fit the local array, exactly those that fit an empty cache and
      the caller's hand are safe. */
  lemma SafeBatchSizes(cacheSize: nat, batchSize: nat)
    requires batchSize <= DEFAULT_BATCH_SIZE
    ensures NeverLoses(cacheSize, batchSize) <==> batchSize <= cacheSize + 1
  {
    if batchSize <= cacheSize + 1 {
      forall chunkSize: nat, n: nat, initialCount: nat, memory: bool, schedule: seq<Move>, x: Slot
        ensures var s := Run(Config(chunkSize, cacheSize, batchSize), Init(n, initialCount, memory), schedule);
                Places(s, x) == if x < Published(s) then 1 else 0
      {
        EverySlotInOnePlace(Config(chunkSize, cacheSize, batchSize), n, initialCount, memory, schedule, x);
      }
    } else {
      var cfg := Config(batchSize, cacheSize, batchSize);
      var schedule := StealingRace(cfg);
      var s := Run(cfg, Init(2, 0, false), schedule);
      var cache := s.threads[0].cache;
      assert batchSize - 1 !in cache;
      CountMember<Slot>(cache, batchSize - 1);
      assert s.threads == [s.threads[0], s.threads[1]];
      NatSumTwo(s.threads[0], s.threads[1], HasSlot(batchSize - 1));
      NatSumTwo(s.threads[0], s.threads[1], Unlinked);
      assert LinkedSum(s.shared.chunkHead) == batchSize;
      assert NatSum(s.threads, HasSlot(batchSize - 1)) == 0;
      assert Published(s) == batchSize && Places(s, batchSize - 1) == 0;
      assert !NeverLoses(cacheSize, batchSize);
    }
  }

  /** Every run leaves every idle thread's cache at or below the threshold. */
  ghost predicate AlwaysLow(cacheSize: nat, batchSize: nat) {
    forall chunkSize: nat, n: nat, initialCount: nat, memory: bool, schedule: seq<Move>, t: nat | t < n ::
      var cfg := Config(chunkSize, cacheSize, batchSize);
      var th := Run(cfg, Init(n, initialCount, memory), schedule).threads[t];
      th.pc == Idle ==> |th.cache| <= cfg.Threshold()
  }

  /** Of the batch sizes from 1 to 16, exactly those that do not lift an empty cache over the
      threshold keep the caches low (a cache of size zero is always low). */
  lemma LowBatchSizes(cacheSize: nat, batchSize: nat)
    requires 1 <= batchSize <= DEFAULT_BATCH_SIZE
    ensures AlwaysLow(cacheSize, batchSize) <==> (batchSize - 1 <= cacheSize * 3 / 4 || cacheSize == 0)
  {
    if batchSize - 1 <= cacheSize * 3 / 4 || cacheSize == 0 {
      forall chunkSize: nat, n: nat, initialCount: nat, memory: bool, schedule: seq<Move>, t: nat | t < n
        ensures var cfg := Config(chunkSize, cacheSize, batchSize);
                var th := Run(cfg, Init(n, initialCount, memory), schedule).threads[t];
                th.pc == Idle ==> |th.cache| <= cfg.Threshold()
      {
        CachesStayLow(Config(chunkSize, cacheSize, batchSize), n, initialCount, memory, schedule, t);
      }
    } else {
      var cfg := Config(batchSize, cacheSize, batchSize);
      var schedule := StealingRace(cfg);
      var th := Run(cfg, Init(2, 0, false), schedule).threads[0];
      assert |th.cache| > cfg.Threshold() && th.pc == Idle;
      assert !AlwaysLow(cacheSize, batchSize);
    }
  }

  lemma NatSumTwo<A>(a: A, b: A, f: A -> nat)
    ensures NatSum([a, b], f) == f(a) + f(b)
  {
    assert [a, b][1..] == [b] && [b][1..] == [];
    assert NatSum([b], f) == f(b);
  }

  // ---- Growth ----------------------------------------------------------------------------

  datatype Call = AcquireBy(t: nat, memory: bool, constructs: bool) | ReleaseBy(t: nat, slot: Slot)

  /** One whole call, with no step of another thread in between. */
  function Do(cfg: Config, s: State, call: Call): (r: State)
    ensures |r.threads| == |s.threads|
  {
    if call.t >= |s.threads| then s
    else
      match call
      case AcquireBy(t, memory, constructs) =>
        var (sh, cache, _) := AcquireCall(cfg, s.shared, s.threads[t].cache, memory, constructs);
        State(sh, s.threads[t := Thread(cache, Idle)])
      case ReleaseBy(t, x) =>
        if x !in s.shared.live then s
        else
          var (sh, cache) := ReleaseCall(cfg, s.shared, s.threads[t].cache, x);
          State(sh, s.threads[t := Thread(cache, Idle)])
  }

  /** The most slots in use at once, a slot whose constructor throws counted as used. */
  function Peak(cfg: Config, s: State, call: Call, peak: nat): nat {
    if call.AcquireBy? && call.t < |s.threads|
       && Obtain(cfg, s.shared, s.threads[call.t].cache, call.memory).2 != None
       && |s.shared.live| + 1 > peak
    then |s.shared.live| + 1
    else peak
  }

  function DoAll(cfg: Config, s: State, calls: seq<Call>): (r: State)
    decreases |calls|
    ensures |r.threads| == |s.threads|
  {
    if calls == [] then s else DoAll(cfg, Do(cfg, s, calls[0]), calls[1..])
  }

  function PeakOf(cfg: Config, s: State, calls: seq<Call>, peak: nat): nat
    decreases |calls|
  {
    if calls == [] then peak
    else PeakOf(cfg, Do(cfg, s, calls[0]), calls[1..], Peak(cfg, s, calls[0], peak))
  }

  function CacheSize(th: Thread): nat {
    |th.cache|
  }

  /** The configurations under which a cache over its threshold gives slots back. */
  predicate GivesBack(cfg: Config) {
    cfg.batchSize >= 1 || cfg.cacheSize == 0
  }

  /** What holds between whole calls. */
  ghost predicate Quiet(cfg: Config, s: State, initialCount: nat, peak: nat) {
    && (forall t :: 0 <= t < |s.threads| ==> s.threads[t].pc == Idle && |s.threads[t].cache| <= cfg.Threshold())
    && |s.shared.freeQueue| + |s.shared.live| + NatSum(s.threads, CacheSize) == s.shared.totalAllocated
    && |s.shared.live| <= peak
    && (s.shared.totalAllocated > initialCount ==>
          s.shared.totalAllocated <= peak - 1 + (|s.threads| - 1) * cfg.Threshold() + cfg.chunkSize)
  }

  lemma AcquireKeepsQuiet(cfg: Config, s: State, initialCount: nat, peak: nat, call: Call)
    requires GivesBack(cfg) && Quiet(cfg, s, initialCount, peak)
    requires call.AcquireBy? && call.t < |s.threads|
    ensures Quiet(cfg, Do(cfg, s, call), initialCount, Peak(cfg, s, call, peak))
  {
    hide NatSum;
    var t, cache := call.t, s.threads[call.t].cache;
    var (sh', cache', got) := Obtain(cfg, s.shared, cache, call.memory);
    NatSumUpdate(s.threads, t, Thread(cache', Idle), CacheSize);
    if cache == [] && s.shared.freeQueue == [] {
      NatSumOthers(s.threads, t, CacheSize, cfg.Threshold());
    }
  }

  lemma ReleaseKeepsQuiet(cfg: Config, s: State, initialCount: nat, peak: nat, call: Call)
    requires GivesBack(cfg) && Quiet(cfg, s, initialCount, peak)
    requires call.ReleaseBy? && call.t < |s.threads| && call.slot in s.shared.live
    ensures Quiet(cfg, Do(cfg, s, call), initialCount, peak)
  {
    var (sh', cache') := ReleaseCall(cfg, s.shared, s.threads[call.t].cache, call.slot);
    NatSumUpdate(s.threads, call.t, Thread(cache', Idle), CacheSize);
  }

  lemma {:induction false} CallsKeepQuiet(cfg: Config, s: State, initialCount: nat, peak: nat, calls: seq<Call>)
    requires GivesBack(cfg) && Quiet(cfg, s, initialCount, peak)
    ensures Quiet(cfg, DoAll(cfg, s, calls), initialCount, PeakOf(cfg, s, calls, peak))
    decreases |calls|
  {
    if calls == [] {
    } else {
      var call := calls[0];
      if call.t < |s.threads| {
        if call.AcquireBy? {
          AcquireKeepsQuiet(cfg, s, initialCount, peak, call);
        } else if call.slot in s.shared.live {
          ReleaseKeepsQuiet(cfg, s, initialCount, peak, call);
        }
      }
      CallsKeepQuiet(cfg, Do(cfg, s, call), initialCount, Peak(cfg, s, call, peak), calls[1..]);
    }
  }

  /** Growth bound: a pool never holds more than its first chunk, or what its callers once
      used less one, plus what the caches of all other threads can keep, plus one chunk. */
  lemma GrowthBound(cfg: Config, n: nat, initialCount: nat, memory: bool, calls: seq<Call>)
    requires GivesBack(cfg)
    ensures WithinBound(cfg, n, initialCount, memory, calls)
  {
    var start := Init(n, initialCount, memory);
    NatSumZero(start.threads, CacheSize);
    CallsKeepQuiet(cfg, start, initialCount, 0, calls);
  }

  predicate WithinBound(cfg: Config, n: nat, initialCount: nat, memory: bool, calls: seq<Call>) {
    var start := Init(n, initialCount, memory);
    var total := DoAll(cfg, start, calls).shared.totalAllocated;
    || total <= initialCount
    || total <= PeakOf(cfg, start, calls, 0) - 1 + (n - 1) * cfg.Threshold() + cfg.chunkSize
  }

  /** Every history of whole calls stays within the growth bound. */
  ghost predicate AlwaysBounded(cacheSize: nat, batchSize: nat) {
    forall chunkSize: nat, n: nat, initialCount: nat, memory: bool, calls: seq<Call> ::
      WithinBound(Config(chunkSize, cacheSize, batchSize), n, initialCount, memory, calls)
  }

  /** Exactly the caches that can give slots back keep the pool within the growth bound. */
  lemma BoundedBatchSizes(cacheSize: nat, batchSize: nat)
    ensures AlwaysBounded(cacheSize, batchSize) <==> batchSize >= 1 || cacheSize == 0
  {
    if batchSize >= 1 || cacheSize == 0 {
      forall chunkSize: nat, n: nat, initialCount: nat, memory: bool, calls: seq<Call>
        ensures WithinBound(Config(chunkSize, cacheSize, batchSize), n, initialCount, memory, calls)
      {
        GrowthBound(Config(chunkSize, cacheSize, batchSize), n, initialCount, memory, calls);
      }
    } else {
      var cfg, calls := Config(1, cacheSize, batchSize), Handovers(cacheSize);
      Hoards(cfg, cacheSize);
      assert !WithinBound(cfg, 2, 0, false, calls + [AcquireBy(0, true, true)]);
    }
  }

  /** `i` times, thread 0 acquires the next slot and thread 1 releases it. */
  function Handovers(i: nat): seq<Call> {
    if i == 0 then [] else Handovers(i - 1) + [AcquireBy(0, true, true), ReleaseBy(1, i - 1)]
  }

  function LinkedOnes(i: nat): seq<Chunk> {
    if i == 0 then [] else [Chunk(i - 1, 1)] + LinkedOnes(i - 1)
  }

  /** All slots in the cache of thread 1. */
  function Hoarded(i: nat): State {
    State(Shared([], LinkedOnes(i), i, false, i, multiset{}), [Thread([], Idle), Thread(seq(i, j => j), Idle)])
  }

  lemma {:induction false} DoAllAppend(cfg: Config, s: State, a: seq<Call>, b: seq<Call>, peak: nat)
    ensures DoAll(cfg, s, a + b) == DoAll(cfg, DoAll(cfg, s, a), b)
    ensures PeakOf(cfg, s, a + b, peak) == PeakOf(cfg, DoAll(cfg, s, a), b, PeakOf(cfg, s, a, peak))
    decreases |a|
  {
    if a == [] {
      assert a + b == b;
    } else {
      hide Do, Peak;
      assert (a + b)[1..] == a[1..] + b;
      DoAllAppend(cfg, Do(cfg, s, a[0]), a[1..], b, Peak(cfg, s, a[0], peak));
    }
  }

  lemma Acquires(cfg: Config, i: nat)
    requires cfg.chunkSize == 1
    ensures var r := Do(cfg, Hoarded(i), AcquireBy(0, true, true));
            && r == State(Shared([], LinkedOnes(i + 1), i + 1, false, i + 1, multiset{i}), Hoarded(i).threads)
    ensures forall peak: nat {:trigger Peak(cfg, Hoarded(i), AcquireBy(0, true, true), peak)} ::
              peak <= 1 ==> Peak(cfg, Hoarded(i), AcquireBy(0, true, true), peak) == 1
  {
    var s := Hoarded(i);
    assert [] + ChunkSlots(i, 1) == [i] && [i][1..] == [];
    assert Obtain(cfg, s.shared, [], true)
        == (Shared([], LinkedOnes(i + 1), i + 1, false, i + 1, multiset{}), [], Some(i));
    assert s.threads[0 := Thread([], Idle)] == s.threads;
  }

  lemma Releases(cfg: Config, i: nat)
    requires cfg.batchSize == 0 && i < cfg.cacheSize
    ensures var used := State(Shared([], LinkedOnes(i + 1), i + 1, false, i + 1, multiset{i}), Hoarded(i).threads);
            Do(cfg, used, ReleaseBy(1, i)) == Hoarded(i + 1)
  {
    var cache := seq(i, j => j) + [i];
    assert cache == seq(i + 1, j => j);
    assert cache[..|cache| - 0] == cache && [] + TakeBack(cache, 0) == [];
    assert multiset{i} - multiset{i} == multiset{};
    assert Hoarded(i).threads[1 := Thread(cache, Idle)] == Hoarded(i + 1).threads;
  }

  /** A cache that gives nothing back hoards one slot after another, while no more than one is
      ever in use. */
  lemma {:induction false} Hoards(cfg: Config, i: nat)
    requires cfg.chunkSize == 1 && cfg.batchSize == 0 && i <= cfg.cacheSize
    ensures DoAll(cfg, Init(2, 0, false), Handovers(i)) == Hoarded(i)
    ensures PeakOf(cfg, Init(2, 0, false), Handovers(i), 0) <= 1
    ensures var calls := Handovers(i) + [AcquireBy(0, true, true)];
            && DoAll(cfg, Init(2, 0, false), calls).shared.totalAllocated == i + 1
            && PeakOf(cfg, Init(2, 0, false), calls, 0) == 1
  {
    var start, acquire := Init(2, 0, false), AcquireBy(0, true, true);
    if i == 0 {
      NothingHoarded();
    } else {
      Hoards(cfg, i - 1);
      Handover(cfg, start, i);
    }
    Acquires(cfg, i);
    hide Do, Hoarded, Handovers, DoAll, PeakOf;
    DoAllAppend(cfg, start, Handovers(i), [acquire], 0);
    OneCall(cfg, Hoarded(i), acquire, PeakOf(cfg, start, Handovers(i), 0));
    AcquiresOne(cfg, i);
  }

  lemma NothingHoarded()
    ensures Init(2, 0, false) == Hoarded(0)
  {
    assert Init(2, 0, false).threads == [Thread([], Idle), Thread([], Idle)];
    assert seq(0, j => j) == [];
  }

  lemma AcquiresOne(cfg: Config, i: nat)
    requires cfg.chunkSize == 1
    ensures Do(cfg, Hoarded(i), AcquireBy(0, true, true)).shared.totalAllocated == i + 1
  {
    hide Do;
    Acquires(cfg, i);
  }

  lemma Handover(cfg: Config, start: State, i: nat)
    requires cfg.chunkSize == 1 && cfg.batchSize == 0 && 0 < i <= cfg.cacheSize
    requires DoAll(cfg, start, Handovers(i - 1)) == Hoarded(i - 1) && PeakOf(cfg, start, Handovers(i - 1), 0) <= 1
    ensures DoAll(cfg, start, Handovers(i)) == Hoarded(i) && PeakOf(cfg, start, Handovers(i), 0) <= 1
  {
    var acquire, release := AcquireBy(0, true, true), ReleaseBy(1, i - 1);
    Acquires(cfg, i - 1);
    Releases(cfg, i - 1);
    hide Do, Peak, Hoarded, DoAll, PeakOf;
    DoAllAppend(cfg, start, Handovers(i - 1), [acquire, release], 0);
    TwoCalls(cfg, Hoarded(i - 1), acquire, release, PeakOf(cfg, start, Handovers(i - 1), 0));
  }

  lemma OneCall(cfg: Config, s: State, call: Call, peak: nat)
    ensures DoAll(cfg, s, [call]) == Do(cfg, s, call)
    ensures PeakOf(cfg, s, [call], peak) == Peak(cfg, s, call, peak)
  {
    hide Do, Peak;
    assert [call][1..] == [];
  }

  lemma TwoCalls(cfg: Config, s: State, first: Call, second: Call, peak: nat)
    requires second.ReleaseBy?
    ensures DoAll(cfg, s, [first, second]) == Do(cfg, Do(cfg, s, first), second)
    ensures PeakOf(cfg, s, [first, second], peak) == Peak(cfg, s, first, peak)
  {
    hide Do, DoAll, PeakOf;
    assert [first, second] == [first] + [second];
    DoAllAppend(cfg, s, [first], [second], peak);
    OneCall(cfg, s, first, peak);
    OneCall(cfg, Do(cfg, s, first), second, Peak(cfg, s, first, peak));
  }

  /** Those call-by-call histories are runs of the interleaving machine. */
  lemma {:induction false} CallsAreARun(cfg: Config, s: State, calls: seq<Call>) returns (schedule: seq<Move>)
    requires forall t :: 0 <= t < |s.threads| ==> s.threads[t].pc == Idle
    ensures Run(cfg, s, schedule) == DoAll(cfg, s, calls)
    decreases |calls|
  {
    schedule := [];
    if calls == [] {
    } else {
      var call := calls[0];
      var first: seq<Move> := [];
      if call.t < |s.threads| {
        if call.AcquireBy? {
          var finding, constructing := AcquireIsARun(cfg, s, call.t, call.memory, call.constructs);
          first := Solo(call.t, finding + constructing);
        } else if call.slot in s.shared.live {
          var choices := ReleaseIsARun(cfg, s, call.t, call.slot);
          first := Solo(call.t, choices);
        }
      }
      var rest := CallsAreARun(cfg, Do(cfg, s, call), calls[1..]);
      schedule := first + rest;
      RunAppend(cfg, s, first, rest);
    }
  }
}
