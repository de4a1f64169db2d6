/** The cache of free slots that each thread keeps for itself. */
module Caching {
  import opened Sums
  import opened PoolMachine

  class ThreadLocalCache {
    const config: Config
    var cache: seq<Slot>

    constructor (config: Config)
      ensures this.config == config && cache == []
    {
      this.config, cache := config, [];
    }

    method TryAcquire() returns (slot: Option<Slot>)
      modifies this`cache
      ensures old(cache) == [] ==> slot == None && cache == []
      ensures old(cache) != [] ==> slot == Some(old(cache)[|old(cache)| - 1]) && cache == old(cache)[..|old(cache)| - 1]
    {
      if cache == [] {
        return None;
      }
      slot := Some(cache[|cache| - 1]);
      cache := cache[..|cache| - 1];
    }

    method TryRelease(slot: Slot) returns (taken: bool)
      modifies this`cache
      ensures taken == (|old(cache)| < config.cacheSize)
      ensures cache == if taken then old(cache) + [slot] else old(cache)
    {
      if |cache| < config.cacheSize {
        cache := cache + [slot];
        return true;
      }
      return false;
    }

    predicate ShouldBatchReturn()
      reads this`cache
    {
      |cache| > config.cacheSize * 3 / 4
    }

    /** Takes a batch off the end, last slot first: as many slots as a batch has, the buffer
        holds and the cache has. */
    method ExtractBatch(bufferSize: nat) returns (batch: seq<Slot>)
      modifies this`cache
      ensures |batch| <= config.batchSize && |batch| <= bufferSize && |batch| <= |old(cache)|
      ensures |batch| == config.batchSize || |batch| == bufferSize || |batch| == |old(cache)|
      ensures cache == old(cache)[..|old(cache)| - |batch|]
      ensures batch == TakeBack(old(cache), |batch|)
      ensures forall i :: 0 <= i < |batch| ==> batch[i] == old(cache)[|old(cache)| - 1 - i]
      ensures forall x: Slot :: Count(cache, x) + Count(batch, x) == Count(old(cache), x)
    {
      var count := config.batchSize;
      if bufferSize < count {
        count := bufferSize;
      }
      if |cache| < count {
        count := |cache|;
      }
      batch := [];
      for i := 0 to count
        invariant |batch| == i
        invariant cache == old(cache)[..|old(cache)| - i]
        invariant batch == TakeBack(old(cache), i)
        invariant forall x: Slot :: Count(cache, x) + Count(batch, x) == Count(old(cache), x)
      {
        forall x: Slot
          ensures Count(cache[..|cache| - 1], x) + Count(batch + [cache[|cache| - 1]], x) == Count(old(cache), x)
        {
          assert cache == cache[..|cache| - 1] + [cache[|cache| - 1]];
          CountPush<Slot>(cache[..|cache| - 1], cache[|cache| - 1], x);
          CountPush<Slot>(batch, cache[|cache| - 1], x);
        }
        batch := batch + [cache[|cache| - 1]];
        cache := cache[..|cache| - 1];
      }
    }

    /** Takes objects while there is room; what does not fit is dropped without a word. It
        keeps all of them if and only if they fit. */
    method AddBatch(objects: seq<Slot>)
      modifies this`cache
      ensures cache == PoolMachine.AddBatch(config, old(cache), objects)
      ensures old(cache) <= cache <= old(cache) + objects
      ensures |cache| == |old(cache)| + |objects| || |cache| >= config.cacheSize
      ensures |cache| > |old(cache)| ==> |cache| <= config.cacheSize
      ensures cache == old(cache) + objects <==> objects == [] || |old(cache)| + |objects| <= config.cacheSize
    {
      var i := 0;
      while i < |objects| && |cache| < config.cacheSize
        invariant 0 <= i <= |objects|
        invariant cache == old(cache) + objects[..i]
        invariant i > 0 ==> |old(cache)| + i <= config.cacheSize
      {
        cache := cache + [objects[i]];
        i := i + 1;
      }
      assert i == |objects| ==> objects[..i] == objects;
    }
  }
}
