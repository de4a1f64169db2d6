/** What whole calls give their callers, in every history of a pool. */
module PoolCalls {
  import opened Sums
  import opened PoolMachine
  import opened PoolSafety
  import opened PoolOperations
  import opened PoolBounds

  /** In every reachable state, the slot that a call returns is in use once, and is in no queue,
      in no cache and with no other thread. */
  lemma AcquiredIsNowhereElse(
      cfg: Config, n: nat, initialCount: nat, first: bool, schedule: seq<Move>, t: nat, memory: bool, constructs: bool)
    requires t < n && Run(cfg, Init(n, initialCount, first), schedule).threads[t].pc == Idle
    ensures var s := Run(cfg, Init(n, initialCount, first), schedule);
            var (sh, cache, slot) := AcquireCall(cfg, s.shared, s.threads[t].cache, memory, constructs);
            slot.Some? ==>
              && sh.live[slot.value] == 1 && slot.value !in sh.freeQueue && slot.value !in cache
              && forall u :: 0 <= u < n && u != t ==> Holds(s.threads[u], slot.value) == 0
  {
    var start := Init(n, initialCount, first);
    var s := Run(cfg, start, schedule);
    var (sh, cache, slot) := AcquireCall(cfg, s.shared, s.threads[t].cache, memory, constructs);
    hide AcquireCall, Run, Init, Books;
    AcquireOutcome(cfg, s.shared, s.threads[t].cache, memory, constructs);
    if slot.Some? {
      var x, r := slot.value, State(sh, s.threads[t := Thread(cache, Idle)]);
      var finding, constructing := AcquireIsARun(cfg, s, t, memory, constructs);
      var call := Solo(t, finding + constructing);
      RunAppend(cfg, start, schedule, call);
      NoSlotTwice(cfg, n, initialCount, first, schedule + call, x);
      CountMember(sh.freeQueue, x);
      CountMember(cache, x);
      NatSumMember(r.threads, t, HasSlot(x));
      forall u | 0 <= u < n && u != t
        ensures Holds(s.threads[u], x) == 0
      {
        NatSumMember(r.threads, u, HasSlot(x));
      }
    }
  }

  /** Thread `t` releases a slot in use. */
  predicate Releases(s: State, call: Call, t: nat) {
    call.ReleaseBy? && call.t == t < |s.threads| && call.slot in s.shared.live
  }

  /** The release finds the cache, with its own slot if that fits, over three quarters. */
  predicate ReturnsBatch(cfg: Config, s: State, call: Call, t: nat) {
    && Releases(s, call, t)
    && var size := |s.threads[t].cache|;
       size + (if size < cfg.cacheSize then 1 else 0) > cfg.cacheSize * 3 / 4
  }

  /** How many releases thread `t` makes. */
  function ReleasesBy(cfg: Config, s: State, calls: seq<Call>, t: nat): nat
    decreases |calls|
  {
    if calls == [] then 0
    else (if Releases(s, calls[0], t) then 1 else 0) + ReleasesBy(cfg, Do(cfg, s, calls[0]), calls[1..], t)
  }

  /** A cache grows by releases only, by one slot each. */
  lemma {:induction false} GrowsByReleases(cfg: Config, s: State, calls: seq<Call>, t: nat)
    requires t < |s.threads|
    ensures |DoAll(cfg, s, calls).threads[t].cache| <= |s.threads[t].cache| + ReleasesBy(cfg, s, calls, t)
    decreases |calls|
  {
    if calls == [] {
    } else {
      GrowsByReleases(cfg, Do(cfg, s, calls[0]), calls[1..], t);
    }
  }

  /** A batch return takes at least a batch, sixteen slots or a cache that is just over three
      quarters out of the cache. */
  lemma LeavesRoom(cfg: Config, s: State, call: Call, t: nat)
    requires ReturnsBatch(cfg, s, call, t) && |s.threads[t].cache| <= cfg.Threshold()
    ensures |Do(cfg, s, call).threads[t].cache| + Least(cfg.batchSize, 16, cfg.Threshold() + 1)
            == cfg.Threshold() + 1
  {
    ReleaseOutcome(cfg, s.shared, s.threads[t].cache, call.slot);
  }

  /** Between two batch returns of a thread, in every history of a pool, it releases at
      least as many slots as a batch has, or sixteen, or three quarters of its cache and one:
      sixteen by default. */
  lemma BatchesAreRare(cfg: Config, n: nat, initialCount: nat, memory: bool, before: seq<Call>, first: Call,
                       between: seq<Call>, last: Call, t: nat)
    requires ReturnsBatch(cfg, DoAll(cfg, Init(n, initialCount, memory), before), first, t)
    requires ReturnsBatch(cfg, DoAll(cfg, Do(cfg, DoAll(cfg, Init(n, initialCount, memory), before), first), between),
                          last, t)
    ensures var s := Do(cfg, DoAll(cfg, Init(n, initialCount, memory), before), first);
            && ReleasesBy(cfg, s, between, t) + 1 >= Least(cfg.batchSize, 16, cfg.cacheSize * 3 / 4 + 1)
            && (cfg == Config(128, 32, 16) ==> ReleasesBy(cfg, s, between, t) + 1 >= 16)
  {
    if GivesBack(cfg) {
      var start := Init(n, initialCount, memory);
      var s := DoAll(cfg, start, before);
      NatSumZero(start.threads, CacheSize);
      CallsKeepQuiet(cfg, start, initialCount, 0, before);
      hide Do, DoAll, Init, ReleasesBy;
      LeavesRoom(cfg, s, first, t);
      GrowsByReleases(cfg, Do(cfg, s, first), between, t);
    }
  }
}
