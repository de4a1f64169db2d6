/** Whole pool calls on values: what `acquire` and `release` do when no other thread takes a
    step in between. They are runs of the step machine, `ObjectPool` computes them in place,
    and they bound how far a pool can grow. */
module PoolOperations {
  import opened Sums
  import opened PoolMachine

  /** The slots of a chunk, in order. */
  function ChunkSlots(base: Slot, count: nat): seq<Slot> {
    seq(count, i => base + i)
  }

  /** The pool after a successful `allocate_chunk`. */
  function Grown(sh: Shared, count: nat): Shared {
    sh.(freeQueue := sh.freeQueue + ChunkSlots(sh.memoryTop, count),
        chunkHead := [Chunk(sh.memoryTop, count)] + sh.chunkHead,
        totalAllocated := sh.totalAllocated + count,
        memoryTop := sh.memoryTop + count)
  }

  /** Where a call gets its slot: its own cache, else the free queue, else a new chunk. A
      batch is never stolen here: the queue has just been seen empty. */
  function Obtain(cfg: Config, sh: Shared, cache: seq<Slot>, memory: bool): (Shared, seq<Slot>, Option<Slot>) {
    if cache != [] then
      (sh, cache[..|cache| - 1], Some(cache[|cache| - 1]))
    else if sh.freeQueue != [] then
      (sh.(freeQueue := sh.freeQueue[1..]), cache, Some(sh.freeQueue[0]))
    else if sh.allocating || !memory then
      (sh, cache, None)
    else
      var grown := Grown(sh, cfg.chunkSize);
      if grown.freeQueue == [] then (grown, cache, None)
      else (grown.(freeQueue := grown.freeQueue[1..]), cache, Some(grown.freeQueue[0]))
  }

  /** A constructor that throws puts the slot back into the free queue. */
  function Construct(sh: Shared, x: Slot, constructs: bool): (Shared, Option<Slot>) {
    if constructs then (sh.(live := sh.live + multiset{x}), Some(x)) else (Push(sh, x), None)
  }

  function AcquireCall(cfg: Config, sh: Shared, cache: seq<Slot>, memory: bool, constructs: bool)
    : (Shared, seq<Slot>, Option<Slot>)
  {
    var (sh', cache', got) := Obtain(cfg, sh, cache, memory);
    if got == None then (sh', cache', None)
    else
      var (sh'', result) := Construct(sh', got.value, constructs);
      (sh'', cache', result)
  }

  /** The cache and free queue once a batch has gone back, if the cache is over its threshold. */
  function ReturnBatch(cfg: Config, sh: Shared, cache: seq<Slot>): (Shared, seq<Slot>) {
    if |cache| > cfg.Threshold() then
      var n := cfg.ReturnSize(|cache|);
      (sh.(freeQueue := sh.freeQueue + TakeBack(cache, n)), cache[..|cache| - n])
    else (sh, cache)
  }

  function ReleaseCall(cfg: Config, sh: Shared, cache: seq<Slot>, x: Slot): (Shared, seq<Slot>) {
    var freed := sh.(live := sh.live - multiset{x});
    if |cache| < cfg.cacheSize then ReturnBatch(cfg, freed, cache + [x])
    else ReturnBatch(cfg, Push(freed, x), cache)
  }

  /** What a caller of `acquire` sees: a slot exactly if there is one and its constructor
      succeeds; it is the last of the cache, else the first of the queue, else the first of a
      new chunk; and it is what is in use now and was not before. */
  lemma AcquireOutcome(cfg: Config, sh: Shared, cache: seq<Slot>, memory: bool, constructs: bool)
    ensures var (after, _, slot) := AcquireCall(cfg, sh, cache, memory, constructs);
            && (slot.Some? <==> constructs && (cache != [] || sh.freeQueue != []
                                               || (!sh.allocating && memory && cfg.chunkSize > 0)))
            && (slot.Some? ==> slot.value == if cache != [] then cache[|cache| - 1]
                                             else if sh.freeQueue != [] then sh.freeQueue[0]
                                             else sh.memoryTop)
            && after.live == if slot.Some? then sh.live + multiset{slot.value} else sh.live
  {
  }

  /** `queue` and `cache` once the last `n` slots of the cache have gone to the end of the
      queue, last slot first. */
  ghost predicate SentBack(wasCache: seq<Slot>, wasQueue: seq<Slot>, n: nat, cache: seq<Slot>, queue: seq<Slot>) {
    && n <= |wasCache| && cache == wasCache[..|wasCache| - n]
    && |queue| == |wasQueue| + n && queue[..|wasQueue|] == wasQueue
    && forall i :: 0 <= i < n ==> queue[|wasQueue|..][i] == wasCache[|wasCache| - 1 - i]
  }

  /** What a release leaves behind: the slot is in the cache, or in the queue if the cache was
      full; then, with the cache over three quarters, the least of a batch, sixteen and the whole
      cache goes back to the queue. */
  lemma ReleaseOutcome(cfg: Config, sh: Shared, cache: seq<Slot>, x: Slot)
    ensures var (after, left) := ReleaseCall(cfg, sh, cache, x);
            var fits := |cache| < cfg.cacheSize;
            var filled, queue := cache + (if fits then [x] else []), sh.freeQueue + (if fits then [] else [x]);
            var n := if |filled| <= cfg.cacheSize * 3 / 4 then 0 else Least(cfg.batchSize, 16, |filled|);
            SentBack(filled, queue, n, left, after.freeQueue) && after.live == sh.live - multiset{x}
  {
  }

  /** Steps of a single thread, in a row. */
  function LocalRun(cfg: Config, sh: Shared, th: Thread, choices: seq<Choice>): (Shared, Thread)
    decreases |choices|
  {
    if choices == [] then (sh, th)
    else
      var (sh', th') := LocalStep(cfg, sh, th, choices[0]);
      LocalRun(cfg, sh', th', choices[1..])
  }

  function Solo(t: nat, choices: seq<Choice>): seq<Move> {
    seq(|choices|, i requires 0 <= i < |choices| => (t, choices[i]))
  }

  function Gos(n: nat): seq<Choice> {
    seq(n, _ => Go)
  }

  lemma {:induction false} SoloRun(cfg: Config, s: State, t: nat, choices: seq<Choice>)
    requires t < |s.threads|
    ensures var (sh, th) := LocalRun(cfg, s.shared, s.threads[t], choices);
            Run(cfg, s, Solo(t, choices)) == State(sh, s.threads[t := th])
    decreases |choices|
  {
    if choices != [] {
      var s' := Step(cfg, s, (t, choices[0]));
      assert Solo(t, choices)[1..] == Solo(t, choices[1..]);
      SoloRun(cfg, s', t, choices[1..]);
      var th := LocalRun(cfg, s.shared, s.threads[t], choices).1;
      assert s'.threads[t := th] == s.threads[t := th];
    } else {
      assert s.threads[t := s.threads[t]] == s.threads;
    }
  }

  lemma {:induction false} LocalRunAppend(cfg: Config, sh: Shared, th: Thread, a: seq<Choice>, b: seq<Choice>)
    ensures LocalRun(cfg, sh, th, a + b)
            == (var (sh', th') := LocalRun(cfg, sh, th, a); LocalRun(cfg, sh', th', b))
    decreases |a|
  {
    if a == [] {
      assert a + b == b;
    } else {
      assert (a + b)[1..] == a[1..] + b;
      var (sh', th') := LocalStep(cfg, sh, th, a[0]);
      LocalRunAppend(cfg, sh', th', a[1..], b);
    }
  }

  /** One more step at the front of a run. */
  lemma LocalRunFirst(cfg: Config, sh: Shared, th: Thread, choice: Choice, rest: seq<Choice>)
    ensures LocalRun(cfg, sh, th, [choice] + rest)
            == (var (sh', th') := LocalStep(cfg, sh, th, choice); LocalRun(cfg, sh', th', rest))
  {
    assert ([choice] + rest)[1..] == rest;
  }

  lemma LocalRunNone(cfg: Config, sh: Shared, th: Thread)
    ensures LocalRun(cfg, sh, th, []) == (sh, th)
  {
  }

  lemma {:induction false} RetryRun(cfg: Config, sh: Shared, cache: seq<Slot>, tries: nat)
    requires tries <= 20 && sh.freeQueue == []
    ensures LocalRun(cfg, sh, Thread(cache, Retrying(tries)), Gos(21 - tries)) == (sh, Thread(cache, Idle))
    ensures LocalRun(cfg, sh, Thread(cache, Retrying(tries)), Gos(20 - tries)) == (sh, Thread(cache, Retrying(20)))
    decreases 20 - tries
  {
    assert Gos(21 - tries)[1..] == Gos(20 - tries);
    if tries < 20 {
      assert Gos(20 - tries)[1..] == Gos(19 - tries);
      RetryRun(cfg, sh, cache, tries + 1);
    }
  }

  lemma {:induction false} ReturningRun(cfg: Config, sh: Shared, cache: seq<Slot>, batch: seq<Slot>)
    ensures LocalRun(cfg, sh, Thread(cache, Returning(batch)), Gos(|batch| + 1))
            == (sh.(freeQueue := sh.freeQueue + batch), Thread(cache, Idle))
    decreases |batch|
  {
    assert Gos(|batch| + 1)[1..] == Gos(|batch|);
    if batch == [] {
      assert sh.freeQueue + [] == sh.freeQueue;
    } else {
      ReturningRun(cfg, Push(sh, batch[0]), cache, batch[1..]);
      assert sh.freeQueue + batch == sh.freeQueue + [batch[0]] + batch[1..];
    }
  }

  /** From a filled chunk to the cleared flag. */
  lemma LinkRun(cfg: Config, sh: Shared, cache: seq<Slot>, chunk: Chunk)
    ensures LocalRun(cfg, sh, Thread(cache, Filling(chunk, chunk.count)), Gos(5))
            == (sh.(chunkHead := [chunk] + sh.chunkHead, totalAllocated := sh.totalAllocated + chunk.count,
                    allocating := false),
                Thread(cache, PoppingGrown))
  {
    hide LocalRun, Gos;
    var linked := sh.(chunkHead := [chunk] + sh.chunkHead);
    var counted := linked.(totalAllocated := sh.totalAllocated + chunk.count);
    GoFirst(cfg, sh, Thread(cache, Filling(chunk, chunk.count)), 4);
    GoFirst(cfg, sh, Thread(cache, Loading(chunk)), 3);
    GoFirst(cfg, sh, Thread(cache, Linking(chunk, sh.chunkHead)), 2);
    GoFirst(cfg, linked, Thread(cache, Counting(chunk.count)), 1);
    GoFirst(cfg, counted, Thread(cache, Unflagging), 0);
    GoNone(cfg, counted.(allocating := false), Thread(cache, PoppingGrown));
  }

  lemma GoFirst(cfg: Config, sh: Shared, th: Thread, n: nat)
    ensures LocalRun(cfg, sh, th, Gos(n + 1))
            == (var (sh', th') := LocalStep(cfg, sh, th, Go); LocalRun(cfg, sh', th', Gos(n)))
  {
    hide LocalStep;
    assert Gos(n + 1)[1..] == Gos(n);
  }

  lemma GoNone(cfg: Config, sh: Shared, th: Thread)
    ensures LocalRun(cfg, sh, th, Gos(0)) == (sh, th)
  {
  }

  /** From the `i`-th slot of a chunk to the cleared flag. */
  lemma {:induction false} FillRun(cfg: Config, sh: Shared, cache: seq<Slot>, chunk: Chunk, i: nat)
    requires i <= chunk.count
    ensures LocalRun(cfg, sh, Thread(cache, Filling(chunk, i)), Gos(chunk.count - i + 5))
            == (sh.(freeQueue := sh.freeQueue + ChunkSlots(chunk.base + i, chunk.count - i),
                    chunkHead := [chunk] + sh.chunkHead, totalAllocated := sh.totalAllocated + chunk.count,
                    allocating := false),
                Thread(cache, PoppingGrown))
    decreases chunk.count - i
  {
    if i < chunk.count {
      hide LocalRun, Gos;
      GoFirst(cfg, sh, Thread(cache, Filling(chunk, i)), chunk.count - i + 4);
      FillRun(cfg, Push(sh, chunk.base + i), cache, chunk, i + 1);
      assert sh.freeQueue + ChunkSlots(chunk.base + i, chunk.count - i)
          == sh.freeQueue + [chunk.base + i] + ChunkSlots(chunk.base + i + 1, chunk.count - i - 1);
    } else {
      assert sh.freeQueue + ChunkSlots(chunk.base + i, 0) == sh.freeQueue;
      LinkRun(cfg, sh, cache, chunk);
    }
  }

  /** Growing alone: from the flag to the flag, every slot of the chunk is pushed, linked and
      counted. */
  lemma GrowRun(cfg: Config, sh: Shared, cache: seq<Slot>) returns (choices: seq<Choice>)
    requires !sh.allocating
    ensures LocalRun(cfg, sh, Thread(cache, Flagging), choices)
            == (Grown(sh, cfg.chunkSize), Thread(cache, PoppingGrown))
  {
    var chunk := Chunk(sh.memoryTop, cfg.chunkSize);
    var flagged := sh.(allocating := true);
    var created := flagged.(memoryTop := sh.memoryTop + cfg.chunkSize);
    var rest := Gos(chunk.count + 5);
    FillRun(cfg, created, cache, chunk, 0);
    LocalRunFirst(cfg, flagged, Thread(cache, Creating), Go, rest);
    LocalRunFirst(cfg, sh, Thread(cache, Flagging), Go, [Go] + rest);
    choices := [Go] + ([Go] + rest);
  }

  /** The end of `acquire` once a slot is in hand. */
  lemma ConstructRun(cfg: Config, sh: Shared, cache: seq<Slot>, x: Slot, constructs: bool)
    ensures LocalRun(cfg, sh, Thread(cache, Constructing(x)), if constructs then [Go] else [Fail] + [Go])
            == (Construct(sh, x, constructs).0, Thread(cache, Idle))
  {
    assert [Go] == [Go] + [];
    if constructs {
      LocalRunFirst(cfg, sh, Thread(cache, Constructing(x)), Go, []);
    } else {
      LocalRunFirst(cfg, sh, Thread(cache, PushingBack(x)), Go, []);
      LocalRunFirst(cfg, sh, Thread(cache, Constructing(x)), Fail, [Go]);
    }
  }

  /** The thread once it has found a slot to construct in, or given up. */
  function Found(cache: seq<Slot>, slot: Option<Slot>): Thread {
    Thread(cache, if slot == None then Idle else Constructing(slot.value))
  }

  /** What is left to do after the free queue was seen empty. */
  lemma GrowOrGiveUpRun(cfg: Config, sh: Shared, cache: seq<Slot>, memory: bool) returns (choices: seq<Choice>)
    requires cache == [] && sh.freeQueue == []
    ensures LocalRun(cfg, sh, Thread(cache, Flagging), choices)
            == (var (sh', cache', slot) := Obtain(cfg, sh, cache, memory); (sh', Found(cache', slot)))
  {
    hide LocalRun;
    var start := Thread(cache, Flagging);
    if sh.allocating {
      RetryRun(cfg, sh, cache, 0);
      choices := [Go] + Gos(21);
      LocalRunFirst(cfg, sh, start, Go, Gos(21));
    } else if !memory {
      var flagged := sh.(allocating := true);
      RetryRun(cfg, sh, cache, 0);
      LocalRunFirst(cfg, flagged, Thread(cache, Failing), Go, Gos(21));
      LocalRunFirst(cfg, flagged, Thread(cache, Creating), Fail, [Go] + Gos(21));
      LocalRunFirst(cfg, sh, start, Go, [Fail] + ([Go] + Gos(21)));
      choices := [Go] + ([Fail] + ([Go] + Gos(21)));
      assert flagged.(allocating := false) == sh;
    } else {
      var grow := GrowRun(cfg, sh, cache);
      var grown := Grown(sh, cfg.chunkSize);
      var (sh', th') := LocalStep(cfg, grown, Thread(cache, PoppingGrown), Go);
      LocalRunNone(cfg, sh', th');
      LocalRunFirst(cfg, grown, Thread(cache, PoppingGrown), Go, []);
      LocalRunAppend(cfg, sh, start, grow, [Go] + []);
      choices := grow + ([Go] + []);
    }
  }

  /** The beginning of `acquire`, until there is a slot in hand or none to be had. */
  lemma ObtainRun(cfg: Config, sh: Shared, cache: seq<Slot>, memory: bool) returns (choices: seq<Choice>)
    ensures LocalRun(cfg, sh, Thread(cache, Idle), choices)
            == (var (sh', cache', slot) := Obtain(cfg, sh, cache, memory); (sh', Found(cache', slot)))
  {
    hide LocalRun;
    var rest: seq<Choice> := [];
    var (sh', cache', slot) := Obtain(cfg, sh, cache, memory);
    LocalRunNone(cfg, sh', Found(cache', slot));
    if cache != [] {
    } else if sh.freeQueue != [] {
      LocalRunFirst(cfg, sh, Thread(cache, Popping), Go, []);
      rest := [Go] + [];
    } else {
      var last := GrowOrGiveUpRun(cfg, sh, cache, memory);
      LocalRunFirst(cfg, sh, Thread(cache, Stealing([])), Go, last);
      LocalRunFirst(cfg, sh, Thread(cache, Popping), Go, [Go] + last);
      rest := [Go] + ([Go] + last);
    }
    LocalRunFirst(cfg, sh, Thread(cache, Idle), Acquire, rest);
    choices := [Acquire] + rest;
  }

  /** `AcquireCall` is a run of the machine in which only the calling thread moves, and its
      result is the slot that the run constructs in. */
  lemma AcquireIsARun(cfg: Config, s: State, t: nat, memory: bool, constructs: bool)
      returns (finding: seq<Choice>, constructing: seq<Choice>)
    requires t < |s.threads| && s.threads[t].pc == Idle
    ensures var (sh, cache, slot) := AcquireCall(cfg, s.shared, s.threads[t].cache, memory, constructs);
            && Run(cfg, s, Solo(t, finding + constructing)) == State(sh, s.threads[t := Thread(cache, Idle)])
            && (slot.Some? ==> constructing == [Go]
                               && Run(cfg, s, Solo(t, finding)).threads[t].pc == Constructing(slot.value))
            && (slot == None ==> constructing != [Go])
  {
    hide LocalRun, LocalStep, Run;
    var th := s.threads[t];
    var (sh', cache', got) := Obtain(cfg, s.shared, th.cache, memory);
    finding := ObtainRun(cfg, s.shared, th.cache, memory);
    SoloRun(cfg, s, t, finding);
    if got == None {
      constructing := [];
      assert finding + [] == finding;
    } else {
      constructing := if constructs then [Go] else [Fail] + [Go];
      ConstructRun(cfg, sh', cache', got.value, constructs);
      LocalRunAppend(cfg, s.shared, th, finding, constructing);
      SoloRun(cfg, s, t, finding + constructing);
    }
  }

  lemma ReturnBatchRun(cfg: Config, sh: Shared, cache: seq<Slot>) returns (choices: seq<Choice>)
    ensures LocalRun(cfg, sh, Thread(cache, Checking), choices)
            == (var (sh', cache') := ReturnBatch(cfg, sh, cache); (sh', Thread(cache', Idle)))
  {
    var rest: seq<Choice> := [];
    if |cache| > cfg.Threshold() {
      var n := cfg.ReturnSize(|cache|);
      ReturningRun(cfg, sh, cache[..|cache| - n], TakeBack(cache, n));
      rest := Gos(n + 1);
    }
    LocalRunFirst(cfg, sh, Thread(cache, Checking), Go, rest);
    choices := [Go] + rest;
  }

  /** `ReleaseCall` likewise. */
  lemma ReleaseIsARun(cfg: Config, s: State, t: nat, x: Slot) returns (choices: seq<Choice>)
    requires t < |s.threads| && s.threads[t].pc == Idle && x in s.shared.live
    ensures var (sh, cache) := ReleaseCall(cfg, s.shared, s.threads[t].cache, x);
            Run(cfg, s, Solo(t, choices)) == State(sh, s.threads[t := Thread(cache, Idle)])
  {
    var freed, cache := s.shared.(live := s.shared.live - multiset{x}), s.threads[t].cache;
    var rest: seq<Choice>;
    if |cache| < cfg.cacheSize {
      rest := ReturnBatchRun(cfg, freed, cache + [x]);
    } else {
      var finish := ReturnBatchRun(cfg, Push(freed, x), cache);
      LocalRunFirst(cfg, freed, Thread(cache, PushingFull(x)), Go, finish);
      rest := [Go] + finish;
    }
    LocalRunFirst(cfg, freed, Thread(cache, Releasing(x)), Go, rest);
    LocalRunFirst(cfg, s.shared, s.threads[t], Release(x), [Go] + rest);
    choices := [Release(x)] + ([Go] + rest);
    SoloRun(cfg, s, t, choices);
  }
}
