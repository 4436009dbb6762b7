/** Large runs: allocation, release, and resizing in place. */
module LargeRuns {
  import opened Sizes
  import opened Pages
  import opened Memory
  import opened Blocks
  import opened Live
  import opened FreeLists
  import opened Chunks
  import opened Rings
  import opened HeapModel
  import opened HeapState
  import opened HeaderTable
  import opened Collectors
  import opened Heaps
  import opened PageAllocs
  import opened SmallRuns

  /** Block `a` is gone; everything else that is live is the same. */
  ghost predicate Freed(s: State, t: State, a: int)
    ensures Freed(s, t, a) ==> t.live == s.live - {a} && t.huge == s.huge && t.key == s.key
  {
    t.live == s.live - {a} && t.huge == s.huge && t.key == s.key && SameLive(s.mem, t.mem, t.live, 0)
  }

  lemma FreedRelease(s: State, c: int, page: nat, n: nat)
    requires Sound(s) && Settled(s) && LargeRun(s, c, page, n)
    ensures var t := Release(s, c, page, n);
      && Sound(t) && Quiet(t.pg) && Freed(s, t, PageAddr(c, page)) && NonEmptyBut(t.pg, t.ring, c)
      && c in t.pg && PagesOK(t.pg[c]) && n == RunLen(s.pg[c].info[page])
  {
    hide LiveInv, Lists, HugeLive, NodesOK, RegionsOK, LinksOK, ChunksOK, Quiet, PagesOK, FreeRun;
    ReleaseSound(s, c, page, n);
    RingPages(Release(s, c, page, n), c);
    var t := Release(s, c, page, n);
    forall i | 1 <= i < |t.ring| && t.ring[i] != c && t.ring[i] in t.pg ensures !EmptyChunk(t.pg[t.ring[i]]) {
      assert t.pg[t.ring[i]] == s.pg[s.ring[i]];
    }
  }

  /** The chunk's position in the ring. */
  lemma RingIndex(s: State, c: int) returns (k: nat)
    requires c in s.ring
    ensures k < |s.ring| && s.ring[k] == c
  {
    k :| k < |s.ring| && s.ring[k] == c;
  }

  lemma SettledKeep(s: State, c: int)
    requires Sound(s) && Quiet(s.pg) && NonEmptyBut(s.pg, s.ring, c) && c in s.pg && |s.ring| > 0
    requires c == s.ring[0] || !EmptyChunk(s.pg[c])
    ensures Settled(s)
  {
    hide LiveInv, Lists, HugeLive, NodesOK, RegionsOK, ChunksOK, HomeOK, CachedOK, Linked, Quiet, EmptyChunk;
  }

  lemma SettledDrop(s: State, k: nat, t: State)
    requires Sound(s) && Quiet(s.pg) && 1 <= k < |s.ring| && NonEmptyBut(s.pg, s.ring, s.ring[k])
    requires SameActive(DropActive(s, k), t) && Quiet(DropActive(s, k).pg)
    ensures Settled(t)
  {
    hide LiveInv, Lists, HugeLive, NodesOK, RegionsOK, ChunksOK, HomeOK, CachedOK, Linked, Quiet, EmptyChunk, SameLive, Unlink;
    var d := DropActive(s, k);
    forall i | 1 <= i < |t.ring| && t.ring[i] in t.pg ensures !EmptyChunk(t.pg[t.ring[i]]) {
      var j := if i < k then i else i + 1;
      assert d.ring[i] == s.ring[j] && s.ring[j] != s.ring[k];
      assert t.pg[t.ring[i]] == d.pg[d.ring[i]] == s.pg[s.ring[j]];
    }
  }

  lemma FreedDrop(s: State, u: State, k: nat, t: State, a: int)
    requires Freed(s, u, a) && k < |u.ring| && SameActive(DropActive(u, k), t)
    ensures Freed(s, t, a)
  {
    hide Quiet;
    SameLiveChain(s.mem, u.mem, t.mem, u.live);
  }

  /** zend_mm_free_pages: the run goes back, and its chunk too when nothing is left in it. */
  method FreePages(h: Heap, c: int, page: nat, n: nat)
    requires h.Ready() && LargeRun(h.s, c, page, n)
    modifies h`s, h`mem, h`realSize, h`chunksCount, h`cachedChunks, h`cachedChunksCount,
      h`lastDeleteBoundary, h`lastDeleteCount, h.hm, h.hm.objs
    ensures h.Ready() && h.hm.objs == old(h.hm.objs) && h.realSize <= old(h.realSize)
    ensures Freed(old(h.s), h.s, PageAddr(c, page)) && h.s.slots == old(h.s).slots
  {
    hide Sound, Headers.Valid, Clear, Heap.Heads, Heap.Account, SumHuge, Settled, PagesOK, FreeRun, Quiet, Freed, NonEmptyBut, SameActive,
      RunLen, PageAddr;
    ghost var s := h.s;
    FreedRelease(s, c, page, n);
    HeapFacts(h);
    ReleasePages(h, c, page, n);
    ghost var u := h.s;
    ghost var k := RingIndex(s, c);
    if c != h.mainChunk && h.hm.FreePages(c) == PAGES - FIRST_PAGE {
      DropQuiet(u, k);
      h.DeleteChunk(c, k);
      SettledDrop(u, k, h.s);
      FreedDrop(s, u, k, h.s, PageAddr(c, page));
    } else {
      SettledKeep(u, c);
    }
  }

  method ReleasePages(h: Heap, c: int, page: nat, n: nat)
    requires h.Ready() && LargeRun(h.s, c, page, n)
    modifies h`s, h.hm.objs, h.hm`pg
    ensures h.Steady() && h.hm.objs == old(h.hm.objs) && h.s == Release(old(h.s), c, page, n)
  {
    hide Sound, Headers.Valid, Clear, Heap.Heads, Heap.Account, SumHuge, Settled, PagesOK, FreeRun, Quiet, Freed, NonEmptyBut,
      RunLen, PageAddr;
    ghost var s := h.s;
    FreedRelease(s, c, page, n);
    RingPages(s, c);
    h.hm.ReleaseRun(c, page, n);
    h.s := Release(s, c, page, n);
  }

  lemma DropQuiet(s: State, k: nat)
    requires Sound(s) && Quiet(s.pg) && 1 <= k < |s.ring| && s.ring[k] in s.pg && EmptyChunk(s.pg[s.ring[k]])
    ensures Quiet(DropActive(s, k).pg)
  {
    hide Sound, Quiet, DropActive, Spare, Blank, EmptyChunk;
    DropActiveSound(s, k);
  }

  /** zend_mm_free_large */
  method FreeLarge(h: Heap, c: int, page: nat, n: nat)
    requires h.Ready() && LargeRun(h.s, c, page, n)
    modifies h`s, h`mem, h`size, h`realSize, h`chunksCount, h`cachedChunks, h`cachedChunksCount,
      h`lastDeleteBoundary, h`lastDeleteCount, h.hm, h.hm.objs
    ensures h.Ready() && h.hm.objs == old(h.hm.objs) && h.realSize <= old(h.realSize)
    ensures Freed(old(h.s), h.s, PageAddr(c, page)) && h.size == old(h.size) - n * PAGE
  {
    hide Sound, Headers.Valid, Clear, Heap.Heads, Heap.Account, SumHuge, Settled, Freed, Heap.Tables, LargeRun, PageAddr;
    SlotFacts(h, 0);
    h.size := h.size - n * PAGE;
    FreePages(h, c, page, n);
  }

  /** The fewest pages that hold `size` bytes. */
  function PagesFor(size: int): (n: nat)
    requires 0 < size
    ensures (n - 1) * PAGE < size <= n * PAGE && 1 <= n
  {
    (size + PAGE - 1) / PAGE
  }

  /** zend_mm_alloc_large */
  method AllocLarge(h: Heap, size: int) returns (p: int)
    requires h.Ready() && 0 < size <= MAX_LARGE
    modifies h`s, h`mem, h`refusals, h`size, h`peak, h`realSize, h`realPeak, h`chunksCount, h`peakChunksCount, h`cachedChunks,
      h`cachedChunksCount, h`lastDeleteBoundary, h`lastDeleteCount, h.hm, h.hm.objs, h.freeSlot
    ensures h.Ready() && fresh(h.hm.objs - old(h.hm.objs)) && LiveKept(old(h.s), h.s)
    ensures !h.overflow && old(h.realSize) <= h.limit ==> h.realSize <= h.limit
    ensures p == 0 ==> h.s.live == old(h.s).live && h.size == old(h.size) && h.peak == old(h.peak)
    ensures p != 0 ==> p !in old(h.s).live && !IsNode(h.s.huge, p)
    ensures p != 0 ==> h.s.live == old(h.s).live[p := Large(PagesFor(size))]
    ensures p != 0 ==> h.size == old(h.size) + PagesFor(size) * PAGE && h.peak == Larger(old(h.peak), h.size)
    ensures p != 0 ==> RunAt(h.s, p, PagesFor(size))
    ensures Housekept(old(h.s), h.s)
    ensures h.realSize <= old(h.realSize) + CHUNK && old(h.refusals) <= h.refusals
    ensures p == 0 ==> MustAsk(old(h.s), PagesFor(size)) && Starved(h, old(h.refusals)) && h.realSize <= old(h.realSize)
    ensures !MustAsk(old(h.s), PagesFor(size)) ==> h.realSize == old(h.realSize) && h.refusals == old(h.refusals)
    ensures MustAsk(old(h.s), PagesFor(size)) && CHUNK <= Room(h.limit, old(h.realSize)) && h.refusals == old(h.refusals) ==>
      p != 0 && h.realSize == old(h.realSize) + CHUNK
    ensures h.realPeak == Larger(old(h.realPeak), h.realSize) && h.peakChunksCount == Larger(old(h.peakChunksCount), |h.s.ring|)
  {
    hide MustAsk, LimitHit, Room, Sound, Headers.Valid, Clear, Heap.Heads, Heap.Account, SumHuge, Settled, Housekept, RunAt, Heap.Tables, BestPlace, NoRoomBefore, IsNode, LiveKept;
    ghost var s := h.s;
    SlotFacts(h, 0);
    var n := PagesFor(size);
    p := AllocPages(h, n);
    KeptIs(s, h.s);
    if p != 0 {
      SlotFacts(h, 0);
      NewNotNode(s, p);
      h.AddUsage(n * PAGE);
    }
  }
}
