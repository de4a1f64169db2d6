/** The pool itself, in place: the calls of one thread, with the shared queue, chunk list,
    counter and flag updated as the source does. What `Acquire` and `Release` compute is what
    `PoolOperations` says of a call without interference, and so a run of the step machine. */
module Pooling {
  import opened Sums
  import opened PoolMachine
  import opened PoolOperations
  import opened Caching

  class MemoryChunk {
    const base: Slot
    const count: nat
    var next: MemoryChunk?

    constructor (base: Slot, count: nat)
      ensures this.base == base && this.count == count && next == null
    {
      this.base, this.count, this.next := base, count, null;
    }

    function GetSlot(index: nat): (slot: Option<Slot>)
      ensures slot.Some? <==> index < count
      ensures slot.Some? ==> slot.value == base + index
    {
      if index >= count then None else Some(base + index)
    }

    method SetNext(chunk: MemoryChunk?)
      modifies this
      ensures next == chunk
    {
      next := chunk;
    }
  }

  /** Following `next` from `head` visits exactly `chunks`. */
  ghost predicate IsList(head: MemoryChunk?, chunks: seq<MemoryChunk>)
    reads chunks
  {
    if chunks == [] then head == null
    else head == chunks[0] && IsList(chunks[0].next, chunks[1..])
  }

  ghost function ChunkList(chunks: seq<MemoryChunk>): seq<Chunk> {
    seq(|chunks|, i requires 0 <= i < |chunks| => Chunk(chunks[i].base, chunks[i].count))
  }

  class ObjectPool {
    const config: Config
    var freeQueue: seq<Slot>
    var chunkHead: MemoryChunk?
    var totalAllocated: nat
    var allocating: bool
    var memoryTop: nat
    ghost var chunks: seq<MemoryChunk>
    ghost var live: multiset<Slot>

    /** `chunks` is the list that `chunkHead` starts. */
    ghost predicate Valid()
      reads this, chunks
    {
      IsList(chunkHead, chunks)
    }

    ghost function Contents(): Shared
      reads this, chunks
    {
      Shared(freeQueue, ChunkList(chunks), totalAllocated, allocating, memoryTop, live)
    }

    constructor (config: Config, initialCount: nat, memory: bool)
      ensures Valid() && fresh(chunks) && this.config == config
      ensures Contents() == Init(0, initialCount, memory).shared
      ensures totalAllocated == memoryTop == |freeQueue| == (if memory then initialCount else 0)
      ensures forall i :: 0 <= i < |freeQueue| ==> freeQueue[i] == i
      ensures !allocating && live == multiset{}
    {
      this.config := config;
      freeQueue, chunkHead, totalAllocated, allocating, memoryTop := [], null, 0, false, 0;
      chunks, live := [], multiset{};
      new;
      var _ := AllocateChunk(initialCount, memory);
      if memory {
        assert [] + ChunkSlots(0, initialCount) == seq(initialCount, i => i);
      }
    }

    /** Adds a chunk unless another thread is adding one or memory has run out. */
    method AllocateChunk(count: nat, memory: bool) returns (added: bool)
      requires Valid()
      modifies this
      ensures Valid() && fresh(set c <- chunks | c !in old(chunks))
      ensures added == (!old(allocating) && memory)
      ensures !added ==> chunks == old(chunks)
      ensures added ==>
                && |chunks| == |old(chunks)| + 1 && chunks[1..] == old(chunks)
                && chunks[0].base == old(memoryTop) && chunks[0].count == count
                && memoryTop == old(memoryTop) + count && totalAllocated == old(totalAllocated) + count
                && |freeQueue| == |old(freeQueue)| + count && freeQueue[..|old(freeQueue)|] == old(freeQueue)
                && forall i :: 0 <= i < count ==> freeQueue[|old(freeQueue)|..][i] == old(memoryTop) + i
      ensures Contents() == if added then Grown(old(Contents()), count) else old(Contents())
    {
      if allocating {
        return false;
      }
      allocating := true;
      if !memory {
        allocating := false;
        return false;
      }
      var chunk := new MemoryChunk(memoryTop, count);
      memoryTop := memoryTop + count;
      PushSlots(chunk);
      LinkChunk(chunk);
      totalAllocated := totalAllocated + count;
      allocating := false;
      return true;
    }

    /** Puts a new chunk at the head of the list. */
    method LinkChunk(chunk: MemoryChunk)
      requires Valid() && chunk !in chunks
      modifies this`chunkHead, this`chunks, chunk
      ensures Valid() && chunks == [chunk] + old(chunks)
      ensures ChunkList(chunks) == [Chunk(chunk.base, chunk.count)] + old(ChunkList(chunks))
    {
      chunk.SetNext(chunkHead);
      assert IsList(old(chunkHead), old(chunks));
      chunkHead := chunk;
      chunks := [chunk] + chunks;
    }

    /** Pushes every slot of a new chunk. */
    method PushSlots(chunk: MemoryChunk)
      requires Valid()
      modifies this`freeQueue
      ensures Valid() && freeQueue == old(freeQueue) + ChunkSlots(chunk.base, chunk.count)
    {
      for i := 0 to chunk.count
        invariant Valid() && freeQueue == old(freeQueue) + ChunkSlots(chunk.base, i)
      {
        var slot := chunk.GetSlot(i);
        if slot != None {
          freeQueue := freeQueue + [slot.value];
        }
        assert ChunkSlots(chunk.base, i + 1) == ChunkSlots(chunk.base, i) + [chunk.base + i];
      }
    }

    method PopFree() returns (slot: Option<Slot>)
      requires Valid()
      modifies this`freeQueue
      ensures Valid()
      ensures old(freeQueue) == [] ==> slot == None && freeQueue == []
      ensures old(freeQueue) != [] ==> slot == Some(old(freeQueue)[0]) && freeQueue == old(freeQueue)[1..]
    {
      if freeQueue == [] {
        return None;
      }
      slot := Some(freeQueue[0]);
      freeQueue := freeQueue[1..];
    }

    /** Another thread is growing the pool, or memory has run out: 20 more tries. */
    method RetryPop() returns (slot: Option<Slot>)
      requires Valid()
      modifies this`freeQueue
      ensures Valid()
      ensures old(freeQueue) == [] ==> slot == None && freeQueue == []
      ensures old(freeQueue) != [] ==> slot == Some(old(freeQueue)[0]) && freeQueue == old(freeQueue)[1..]
    {
      slot := None;
      var retry := 0;
      while retry < 20
        invariant Valid() && slot == None && freeQueue == old(freeQueue)
        invariant retry > 0 ==> freeQueue == []
      {
        slot := PopFree();
        if slot != None {
          break;
        }
        retry := retry + 1;
      }
    }

    /** Pops up to a batch; the first slot is the result, the others go to the cache. */
    method BatchStealFromCentral(tls: ThreadLocalCache) returns (slot: Option<Slot>)
      requires Valid() && tls.config == config
      modifies this`freeQueue, tls`cache
      ensures Valid()
      ensures var count := if config.batchSize <= |old(freeQueue)| then config.batchSize else |old(freeQueue)|;
              && freeQueue == old(freeQueue)[count..]
              && slot == (if count == 0 then None else Some(old(freeQueue)[0]))
              && tls.cache == if count == 0 then old(tls.cache)
                              else PoolMachine.AddBatch(config, old(tls.cache), old(freeQueue)[1..count])
    {
      var batch: seq<Slot> := [];
      var i := 0;
      while i < config.batchSize
        invariant 0 <= i <= config.batchSize && i == |batch| <= |old(freeQueue)|
        invariant batch == old(freeQueue)[..i] && freeQueue == old(freeQueue)[i..]
        invariant Valid() && tls.cache == old(tls.cache)
      {
        var popped := PopFree();
        if popped == None {
          break;
        }
        batch := batch + [popped.value];
        i := i + 1;
      }
      if batch == [] {
        return None;
      }
      if |batch| > 1 {
        tls.AddBatch(batch[1..]);
      }
      return Some(batch[0]);
    }

    method BatchReturnToCentral(tls: ThreadLocalCache)
      requires Valid() && tls.config == config
      modifies this`freeQueue, tls`cache
      ensures Valid()
      ensures var n := config.ReturnSize(|old(tls.cache)|);
              && freeQueue == old(freeQueue) + TakeBack(old(tls.cache), n)
              && tls.cache == old(tls.cache)[..|old(tls.cache)| - n]
      ensures SentBack(old(tls.cache), old(freeQueue), Least(config.batchSize, 16, |old(tls.cache)|),
                       tls.cache, freeQueue)
    {
      var batch := tls.ExtractBatch(DEFAULT_BATCH_SIZE);
      for i := 0 to |batch|
        invariant freeQueue == old(freeQueue) + batch[..i] && Valid()
        invariant tls.cache == old(tls.cache)[..|old(tls.cache)| - |batch|]
      {
        freeQueue := freeQueue + [batch[i]];
      }
      assert batch[..|batch|] == batch;
    }

    /** Finds a slot: the cache, the free queue, a stolen batch, a new chunk, a few retries. */
    method ObtainSlot(tls: ThreadLocalCache, memory: bool) returns (slot: Option<Slot>)
      requires Valid() && tls.config == config
      modifies this, tls`cache
      ensures Valid() && fresh(set c <- chunks | c !in old(chunks))
      ensures (Contents(), tls.cache, slot) == Obtain(config, old(Contents()), old(tls.cache), memory)
    {
      slot := tls.TryAcquire();
      if slot == None {
        slot := PopFree();
        if slot == None {
          slot := BatchStealFromCentral(tls);
        }
      }
      if slot == None {
        assert freeQueue == [] && tls.cache == old(tls.cache) == [] && Contents() == old(Contents());
        var added := AllocateChunk(config.chunkSize, memory);
        if added {
          slot := PopFree();
        } else {
          slot := RetryPop();
        }
      }
    }

    /** A slot for a new object, or none. */
    method Acquire(tls: ThreadLocalCache, memory: bool, constructs: bool) returns (slot: Option<Slot>)
      requires Valid() && tls.config == config
      modifies this, tls`cache
      ensures Valid() && fresh(set c <- chunks | c !in old(chunks))
      ensures (Contents(), tls.cache, slot)
              == AcquireCall(config, old(Contents()), old(tls.cache), memory, constructs)
      ensures slot.Some? <==> constructs && (old(tls.cache) != [] || old(freeQueue) != []
                                             || (!old(allocating) && memory && config.chunkSize > 0))
      ensures slot.Some? ==> slot.value == if old(tls.cache) != [] then old(tls.cache)[|old(tls.cache)| - 1]
                                           else if old(freeQueue) != [] then old(freeQueue)[0]
                                           else old(memoryTop)
      ensures live == if slot.Some? then old(live) + multiset{slot.value} else old(live)
    {
      AcquireOutcome(config, Contents(), tls.cache, memory, constructs);
      slot := ObtainSlot(tls, memory);
      if slot != None {
        if constructs {
          live := live + multiset{slot.value};
        } else {
          freeQueue := freeQueue + [slot.value];
          return None;
        }
      }
    }

    /** Takes an object back; a null pointer is ignored. */
    method Release(tls: ThreadLocalCache, pointer: Option<Slot>)
      requires Valid() && tls.config == config
      requires pointer.Some? ==> pointer.value in live
      modifies this`freeQueue, this`live, tls`cache
      ensures Valid()
      ensures (Contents(), tls.cache)
              == if pointer == None then (old(Contents()), old(tls.cache))
                 else ReleaseCall(config, old(Contents()), old(tls.cache), pointer.value)
      ensures pointer.Some? ==>
                var fits := |old(tls.cache)| < config.cacheSize;
                var filled := old(tls.cache) + if fits then [pointer.value] else [];
                var queue := old(freeQueue) + if fits then [] else [pointer.value];
                var n := if |filled| <= config.cacheSize * 3 / 4 then 0 else Least(config.batchSize, 16, |filled|);
                SentBack(filled, queue, n, tls.cache, freeQueue) && live == old(live) - multiset{pointer.value}
    {
      if pointer == None {
        return;
      }
      var slot := pointer.value;
      ReleaseOutcome(config, Contents(), tls.cache, slot);
      live := live - multiset{slot};
      var taken := tls.TryRelease(slot);
      if !taken {
        freeQueue := freeQueue + [slot];
      }
      ReturnIfFull(tls);
    }

    /** A batch goes back if the cache is over its threshold. */
    method ReturnIfFull(tls: ThreadLocalCache)
      requires Valid() && tls.config == config
      modifies this`freeQueue, tls`cache
      ensures Valid()
      ensures (Contents(), tls.cache) == ReturnBatch(config, old(Contents()), old(tls.cache))
    {
      hide IsList, ChunkList;
      if tls.ShouldBatchReturn() {
        BatchReturnToCentral(tls);
      }
    }
  }
}
