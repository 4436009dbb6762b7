/** The memory limit, and the reset of the heap at the end of a request. */
module Lifecycle {
  import opened Sizes
  import opened Pages
  import opened Memory
  import opened Blocks
  import opened Live
  import opened FreeLists
  import opened Chunks
  import opened Rings
  import opened HeapModel
  import opened HeapState
  import opened HugeSteps
  import opened HeaderTable
  import opened Collecting
  import opened Collectors
  import opened Heaps
  import opened PageAllocs
  import opened HeapCalls
  import opened FreeCalls
  import opened Writes
  import opened Rekeying

  // ----- the limit -----

  /** The first cached chunk goes back to the operating system. */
  method TrimCache(h: Heap)
    requires h.Ready() && h.s.cached != []
    modifies h`s, h`mem, h`realSize, h`cachedChunks, h`cachedChunksCount, h.hm
    ensures h.Ready() && h.hm.objs == old(h.hm.objs) && h.realSize == old(h.realSize) - CHUNK
    ensures h.cachedChunksCount == old(h.cachedChunksCount) - 1 && |h.s.cached| == |old(h.s).cached| - 1
    ensures SameActive(old(h.s), h.s) && h.s.ring == old(h.s).ring && h.s.cached == old(h.s).cached[1..]
  {
    hide Sound, Headers.Valid, Clear, Heap.Heads, Heap.Account, Settled, SumHuge, Spare, Blank, Quiet, SameLive, RemoveRegion, Beside, SameActive, DropCached;
    ghost var s := h.s;
    assert h.TablesBut({}) by { BesideSelf(h.hm.pg); BesideSelf(h.hm.ln); }
    SameDrop(s) by { DropCachedSound(s); }
    CachedShorter(s);
    var c := h.PopCached({});
    ghost var t := h.s;
    SpareAddress(t, c);
    h.FreeChunk({} + {c}, c);
    SameMem(t, h.s.mem);
    SameActiveChain(s, t, h.s);
    BesideNone(h.hm.pg, h.s.pg, {} + {c} - {c});
    BesideNone(h.hm.ln, h.s.ln, {} + {c} - {c});
    SettledActive(s, h.s);
    TrimCount(h, |s.ring|, |s.cached|, h.HugeBytes());
  }

  lemma CachedShorter(s: State)
    requires s.cached != []
    ensures DropCached(s).cached == s.cached[1..]
  {}

  lemma ActiveAt(s: State, t: State, c: int)
    requires SameActive(s, t) && c in s.ring
    ensures c in s.pg && c in t.pg && t.pg[c] == s.pg[c]
  {
    hide Quiet, SameLive;
  }

  lemma SettledActive(s: State, t: State)
    requires Settled(s) && SameActive(s, t)
    ensures Settled(t)
  {
    hide Quiet, SameLive, EmptyChunk;
    forall i | 1 <= i < |t.ring| && t.ring[i] in t.pg ensures !EmptyChunk(t.pg[t.ring[i]]) {
      ActiveAt(s, t, s.ring[i]);
    }
  }

  method TrimCount(h: Heap, ghost active: int, ghost kept: int, ghost hugeSize: int)
    requires h.Account(active, kept, 0, hugeSize)
    modifies h`realSize, h`cachedChunksCount
    ensures h.Account(active, kept - 1, 0, hugeSize) && h.realSize == old(h.realSize) - CHUNK
    ensures h.cachedChunksCount == old(h.cachedChunksCount) - 1
  {
    h.cachedChunksCount := h.cachedChunksCount - 1;
    h.realSize := h.realSize - CHUNK;
  }

  /** zend_set_memory_limit. It succeeds exactly when the heap can come down to the limit by
      trimming its cache; it then trims as many chunks as needed and no more. In that case,
      however, the limit in force stays the old one. */
  method SetMemoryLimit(h: Heap, limit: Size) returns (ok: bool)
    requires h.Ready()
    modifies h`s, h`mem, h`limit, h`realSize, h`cachedChunks, h`cachedChunksCount, h.hm
    ensures h.Ready() && h.hm.objs == old(h.hm.objs) && SameActive(old(h.s), h.s)
    ensures ok <==> old(h.realSize) - CHUNK * |old(h.s).cached| <= limit
    ensures ok ==> h.realSize <= limit
    ensures ok && limit < old(h.realSize) ==> limit < h.realSize + CHUNK
    ensures TailOf(h.s.cached, old(h.s).cached)
    ensures !ok || old(h.realSize) <= limit ==> h.s == old(h.s) && h.realSize == old(h.realSize)
    ensures h.limit == if old(h.realSize) <= limit then limit else old(h.limit)
  {
    hide Sound, Headers.Valid, Clear, Heap.Heads, Heap.Tables, Settled, SumHuge, SameActive;
    ghost var s := h.s;
    SameActiveRefl(s);
    SlotFacts(h, 0);
    if limit < h.realSize {
      if limit >= h.realSize - h.cachedChunksCount * CHUNK {
        while limit < h.realSize
          invariant h.Ready() && h.hm.objs == old(h.hm.objs) && SameActive(s, h.s) && h.limit == old(h.limit)
          invariant TailOf(h.s.cached, s.cached)
          invariant h.realSize - CHUNK * |h.s.cached| == old(h.realSize) - CHUNK * |s.cached| <= limit < h.realSize + CHUNK
          decreases |h.s.cached|
        {
          ghost var t := h.s;
          SlotFacts(h, 0);
          TrimCache(h);
          SameActiveChain(s, t, h.s);
        }
        return true;
      }
      return false;
    }
    h.limit := limit;
    ok := true;
  }

  lemma SameActiveRefl(s: State)
    requires Sound(s)
    ensures SameActive(s, s)
  {
    hide Sound, Quiet;
    RingHeld(s);
  }
}
