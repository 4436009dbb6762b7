/** Resizing a block: in place where possible, otherwise by moving it. */
module ReallocCalls {
  import opened Sizes
  import opened Pages
  import opened Memory
  import opened Blocks
  import opened Live
  import opened FreeLists
  import opened Chunks
  import opened Rings
  import opened HeapModel
  import opened HeapState
  import opened HugeSteps
  import opened HeaderTable
  import opened GcResult
  import opened Collectors
  import opened Heaps
  import opened PageAllocs
  import opened SmallRuns
  import opened LargeRuns
  import opened HeapCalls
  import opened FreeCalls
  import opened Writes

  /** Block `p` has become block `r`, with its first `n` bytes; nothing else a caller holds
      has changed. */
  ghost predicate Moved(s: State, t: State, p: int, r: int, n: nat) {
    && r != 0 && p in User(s) && r in t.live && r in User(t) && (r == p || r !in s.live)
    && User(t) == (User(s) - {p})[r := t.live[r]]
    && t.key == s.key && UserKept(s, t, p) && SamePrefix(s.mem, p, t.mem, r, n)
  }

  // ----- moving -----

  /** memcpy into a block that has just been allocated. */
  method CopyBlock(h: Heap, r: int, p: int, n: nat)
    requires h.Ready() && Held(h.s, r) && p in h.s.live && r != p && n <= Usable(h.s.live[r]) && n <= Usable(h.s.live[p])
    modifies h`s, h`mem
    ensures h.Ready() && h.s == old(h.s).(mem := h.s.mem)
    ensures SameLive(old(h.s).mem, h.s.mem, h.s.live, r) && SamePrefix(old(h.s).mem, p, h.s.mem, r, n)
  {
    hide Sound, Headers.Valid, Clear, Heap.Heads, Heap.Account, Settled, SumHuge, Usable, IsNode, Mapped, Copy, SamePrefix, SameLive, OnlyInside;
    ghost var s := h.s;
    LiveMapped(s, p);
    LiveMapped(s, r);
    MappedPart(s.mem, p, Usable(s.live[p]), p, n);
    MappedPart(s.mem, r, Usable(s.live[r]), r, n);
    LiveApart(s, r, p);
    assert Apart(r, n, p, n);   // memcpy
    CopyPrefix(s.mem, r, p, n);
    OnlyInsideWider(s.mem, Copy(s.mem, r, p, n), r, n, r, Usable(s.live[r]));
    WriteSound(s, Copy(s.mem, r, p, n), r);
    ClearSame(h.reserved, s.mem, Copy(s.mem, r, p, n));
    SettledSame(s, s.(mem := Copy(s.mem, r, p, n)));
    h.mem := Copy(h.mem, r, p, n);
    h.s := s.(mem := h.mem);
  }

  /** Allocated, copied, released: the block has moved. */
  lemma MovedBy(s: State, t1: State, t2: State, t3: State, p: int, r: int, n: nat)
    requires Sound(s) && Held(s, p) && Allocated(s, t1, r) && t2 == t1.(mem := t2.mem) && SameLive(t1.mem, t2.mem, t1.live, r)
    requires SamePrefix(t1.mem, p, t2.mem, r, n) && GivenBack(t2, t3, p) && n <= Usable(s.live[p]) && n <= Usable(t1.live[r])
    requires r in t3.live
    ensures Moved(s, t3, p, r, n) && t3.live[r] == t1.live[r]
  {
    hide Sound, Usable, IsNode, SamePrefix, SameBytes, Allocated, GivenBack;
    ZeroNotLive(s);
    LiveMapped(s, p);
    MovedUser(s, t1, t2, t3, p, r);
    MovedBytes(s, t1, t2, t3, p, r);
    FirstBytes(s, t1, p, r);
    LastBytes(t2, t3, p, r);
    PrefixEarlier(s.mem, t1.mem, p, t2.mem, r, n, Usable(s.live[p]));
    PrefixLater(s.mem, p, t2.mem, r, t3.mem, n, Usable(t2.live[r]));
  }

  lemma MovedUser(s: State, t1: State, t2: State, t3: State, p: int, r: int)
    requires Held(s, p) && Allocated(s, t1, r) && t2 == t1.(mem := t2.mem) && GivenBack(t2, t3, p) && r in t3.live
    ensures r != 0 && r != p && p in User(s) && r in User(t3) && r in User(t2) && t3.key == s.key && t3.live[r] == t1.live[r]
    ensures User(t3) == (User(s) - {p})[r := t3.live[r]]
  {
    hide IsNode, SameLive, UserKept;
    assert User(t2) == User(t1);
    var u, v := User(s), User(t3);
    assert v == u[r := t1.live[r]] - {p};
    assert v[r] == t1.live[r];
  }

  lemma FirstBytes(s: State, t1: State, p: int, r: int)
    requires Held(s, p) && Allocated(s, t1, r) && 0 !in s.live
    ensures SameBytes(s.mem, t1.mem, p, Usable(s.live[p]))
  {
    hide IsNode, SameBytes, Usable, User;
  }

  lemma LastBytes(t2: State, t3: State, p: int, r: int)
    requires GivenBack(t2, t3, p) && r in User(t2) && r != p
    ensures SameBytes(t2.mem, t3.mem, r, Usable(t2.live[r]))
  {
    hide IsNode, SameBytes, Usable, User;
  }

  lemma MovedBytes(s: State, t1: State, t2: State, t3: State, p: int, r: int)
    requires Held(s, p) && Allocated(s, t1, r) && t2 == t1.(mem := t2.mem) && SameLive(t1.mem, t2.mem, t1.live, r) && GivenBack(t2, t3, p)
    requires 0 !in s.live
    ensures UserKept(s, t3, p)
  {
    hide IsNode, SameBytes, Usable;
    assert User(t2) == User(t1);
    forall x | x in User(s) && x != p ensures SameBytes(s.mem, t3.mem, x, Usable(s.live[x])) {
      assert x in User(t1) && User(t1)[x] == User(s)[x] && x != r;
      SameBytesChain(s.mem, t1.mem, t2.mem, x, Usable(s.live[x]));
      SameBytesChain(s.mem, t2.mem, t3.mem, x, Usable(s.live[x]));
    }
  }

  /** How much a request takes from the operating system: nothing if the heap can serve it,
      else a chunk, or a huge block with at most a chunk for its node. */
  ghost predicate Grown(a: Moment, b: Moment, size: int, limit: int, overflow: bool)
    requires 0 <= size
  {
    && (!Exhausted(a.s, size) ==> b.realSize == a.realSize)
    && (size <= MAX_LARGE && Exhausted(a.s, size) && CHUNK <= Room(limit, a.realSize) && b.refusals == a.refusals ==>
         b.realSize == a.realSize + CHUNK)
    && (size > MAX_LARGE && !overflow && Fitting(size, limit, a.realSize) && b.refusals == a.refusals ==>
         b.realSize == a.realSize + RoundUp(size) + if ClassEmpty(a.s, NODE_BIN) then CHUNK else 0)
  }

  /** A request, and the moment after it. */
  method AllocMoment(h: Heap, size: int) returns (r: int, ghost mid: Moment)
    requires h.Ready() && 0 <= size < 0x1_0000_0000_0000_0000
    modifies h, h.hm, h.hm.objs, h.freeSlot
    ensures h.Ready() && fresh(h.hm.objs - old(h.hm.objs)) && h.limit == old(h.limit) && h.overflow == old(h.overflow)
    ensures h.floating == old(h.floating) && old(h.refusals) <= h.refusals
    ensures r == 0 ==> Refused(old(h.s), h.s) && Exhausted(old(h.s), size) && OutOfMemory(h, size, old(h.refusals))
    ensures r != 0 ==> Allocated(old(h.s), h.s, r) && h.s.live[r] == BlockFor(size) && size <= Usable(BlockFor(size))
    ensures r != 0 ==> Drift(h.size, h.s) == Drift(old(h.size), old(h.s)) && h.peak == Larger(old(h.peak), h.size)
    ensures mid == Moment(h.s, h.realSize, h.refusals) && Grown(old(Moment(h.s, h.realSize, h.refusals)), mid, size, h.limit, h.overflow)
    ensures h.realPeak == Larger(old(h.realPeak), mid.realSize) && h.peakChunksCount == Larger(old(h.peakChunksCount), |mid.s.ring|)
  {
    hide Sound, Headers.Valid, Clear, Heap.Ready, Allocated, Drift, Refused, Usable, RoundUp, Room, ClassEmpty, MustAsk, LimitHit, Starved, Housekept,
      RunAt, LiveKept, Exhausted, OutOfMemory, BlockFor, Fitting, ClassFor;
    r := AllocHeap(h, size);
    mid := Moment(h.s, h.realSize, h.refusals);
  }

  /** The bytes go over, then the old block is freed. */
  method CopyFree(h: Heap, ghost s: State, p: int, r: int, n: nat)
    requires h.Ready() && 0 <= h.floating && Sound(s) && Held(s, p) && Allocated(s, h.s, r) && Held(h.s, p) && Held(h.s, r) && r != p
    requires h.s.live[p] == s.live[p] && n <= Usable(h.s.live[p]) && n <= Usable(h.s.live[r])
    modifies h`s, h`mem, h`size, h`realSize, h`chunksCount, h`cachedChunks, h`cachedChunksCount, h`hugeList, h`floating,
      h`lastDeleteBoundary, h`lastDeleteCount, h.hm, h.hm.objs, h.freeSlot
    ensures h.Ready() && h.hm.objs == old(h.hm.objs) && h.floating == old(h.floating) && h.realSize <= old(h.realSize)
    ensures Moved(s, h.s, p, r, n) && r in h.s.live && h.s.live[r] == old(h.s).live[r]
    ensures Drift(h.size, h.s) == Drift(old(h.size), old(h.s))
  {
    hide Sound, Headers.Valid, Clear, Heap.Heads, Heap.Account, Heap.Tables, Settled, SumHuge, Usable, IsNode, SamePrefix, SameLive, Allocated, GivenBack, Freed,
      Drift, Moved;
    ghost var t1 := h.s;
    SlotFacts(h, 0);
    CopyBlock(h, r, p, n);
    ghost var t2 := h.s;
    DriftMem(t1, t2);
    ZeroNotLive(t2);
    SlotFacts(h, 0);
    FreeHeap(h, p);
    StillLive(t2, h.s, p, r);
    MovedBy(s, t1, t2, h.s, p, r, n);
  }

  /** zend_mm_realloc_slow. `mid` is the moment before the old block is freed, when usage is
      at its highest. `overrun` reports that the copy would run past the end of the new
      block: what memory holds then is not defined, and the call stops before it. */
  method ReallocSlow(h: Heap, p: int, size: int, copySize: nat) returns (r: int, overrun: bool, ghost mid: Moment)
    requires h.Ready() && Held(h.s, p) && 0 <= size < 0x1_0000_0000_0000_0000 && 0 <= h.floating
    requires copySize <= Usable(h.s.live[p])
    modifies h, h.hm, h.hm.objs, h.freeSlot
    ensures h.Ready() && fresh(h.hm.objs - old(h.hm.objs)) && h.limit == old(h.limit) && h.overflow == old(h.overflow)
    ensures h.floating == old(h.floating) && old(h.refusals) <= h.refusals
    ensures r == 0 ==> Refused(old(h.s), h.s) && Exhausted(old(h.s), size) && OutOfMemory(h, size, old(h.refusals))
    ensures r != 0 ==> r in h.s.live && h.s.live[r] == BlockFor(size) && size <= Usable(BlockFor(size))
    ensures h.realPeak == Larger(old(h.realPeak), mid.realSize) && h.peakChunksCount == Larger(old(h.peakChunksCount), |mid.s.ring|)
    ensures h.realSize <= mid.realSize && h.refusals == mid.refusals
    ensures r != 0 && r != p ==> Allocated(old(h.s), mid.s, r) && Grown(old(Moment(h.s, h.realSize, h.refusals)), mid, size, h.limit, h.overflow)
    ensures r == 0 ==> mid == Moment(h.s, h.realSize, h.refusals)
    ensures r != 0 ==> r !in old(h.s).live
    ensures overrun <==> r != 0 && copySize > Usable(BlockFor(size))
    ensures overrun ==> Allocated(old(h.s), h.s, r)
    ensures r != 0 && !overrun ==> Moved(old(h.s), h.s, p, r, copySize)
    ensures r != 0 && !overrun ==> Drift(h.size, h.s) == Drift(old(h.size), old(h.s)) && h.peak == Larger(old(h.peak), h.size)
  {
    hide Sound, Headers.Valid, Clear, Heap.Heads, Heap.Account, Heap.Tables, Settled, SumHuge, Usable, IsNode, SamePrefix, SameLive, Allocated, GivenBack, Freed,
      Drift, Moved, Refused, LiveKept, BlockFor, Exhausted, OutOfMemory, Grown;
    ghost var s := h.s;
    var origPeak := h.peak;
    overrun := false;
    SlotFacts(h, 0);
    r, mid := AllocMoment(h, size);
    if r == 0 { return; }
    ghost var t1 := h.s;
    StillHeld(s, t1, p, r);
    AllocatedLive(s, t1, r);
    if copySize > Usable(BlockFor(size)) { return r, true, mid; }
    CopyFree(h, s, p, r, copySize);
    SlotFacts(h, 0);
    h.peak := Larger(origPeak, h.size);
  }

  lemma AllocatedLive(s: State, t: State, r: int)
    requires Allocated(s, t, r)
    ensures r in t.live && r !in s.live
  {}

  lemma StillHeld(s: State, t: State, p: int, r: int)
    requires Held(s, p) && Allocated(s, t, r)
    ensures Held(t, p) && Held(t, r) && r != p && t.live[p] == s.live[p]
  {
    hide IsNode, SameLive;
    assert p in User(s);
    assert p in User(t) && User(t)[p] == User(s)[p];
  }

  lemma StillLive(t: State, u: State, p: int, r: int)
    requires Held(t, r) && r != p && GivenBack(t, u, p)
    ensures r in u.live && Held(u, r) && u.live[r] == t.live[r]
  {
    hide IsNode, UserKept;
    assert r in User(t);
    assert r in User(u) && User(u)[r] == User(t)[r];
  }

  lemma DriftMem(t: State, u: State)
    requires u.live == t.live
    ensures forall size :: Drift(size, u) == Drift(size, t)
  {
    hide SumUsable;
  }

  // ----- small to small -----

  /** The two paths that take another element: a fresh one, a copy, and a push of the old one. */
  method ReallocSmall(h: Heap, p: int, b: nat, size: int, copySize: nat) returns (r: int, ghost mid: Moment)
    requires h.Ready() && Held(h.s, p) && b < BINS && h.s.live[p] == Small(b) && 0 <= size <= MAX_SMALL
    requires copySize <= BinSize(b) && copySize <= size
    modifies h, h.hm, h.hm.objs, h.freeSlot
    ensures h.Ready() && fresh(h.hm.objs - old(h.hm.objs)) && h.limit == old(h.limit) && h.overflow == old(h.overflow)
    ensures h.floating == old(h.floating) && old(h.refusals) <= h.refusals
    ensures r == 0 ==> Refused(old(h.s), h.s) && ClassEmpty(old(h.s), ClassFor(size)) && Starved(h, old(h.refusals))
    ensures r != 0 ==> Moved(old(h.s), h.s, p, r, copySize) && r in h.s.live && h.s.live[r] == Small(ClassFor(size))
    ensures h.realPeak == Larger(old(h.realPeak), mid.realSize) && h.peakChunksCount == Larger(old(h.peakChunksCount), |mid.s.ring|)
    ensures h.realSize <= mid.realSize && h.refusals == mid.refusals
    ensures r != 0 && r != p ==> Allocated(old(h.s), mid.s, r) && Grown(old(Moment(h.s, h.realSize, h.refusals)), mid, size, h.limit, h.overflow)
    ensures r == 0 ==> mid == Moment(h.s, h.realSize, h.refusals)
    ensures r != 0 ==> r !in old(h.s).live
    ensures r != 0 ==> Drift(h.size, h.s) == Drift(old(h.size), old(h.s))
    ensures r != 0 ==> h.peak == Larger(old(h.peak), h.size + BinSize(b))
  {
    hide Sound, Headers.Valid, Clear, Heap.Heads, Heap.Account, Heap.Tables, Settled, SumHuge, Usable, IsNode, SamePrefix, SameLive, Allocated, GivenBack, Freed,
      Drift, Moved, Refused, LiveKept, BinSize, ClassEmpty, LimitHit, Starved, ClassFor;
    ghost var s := h.s;
    SlotFacts(h, 0);
    SmallUsable(b);
    ClassUsable(size);
    r := AllocSmallBlock(h, size);
    mid := Moment(h.s, h.realSize, h.refusals);
    if r == 0 { return; }
    ghost var t1 := h.s;
    ghost var size1 := h.size;
    StillHeld(s, t1, p, r);
    AllocatedLive(s, t1, r);
    CopyBlock(h, r, p, copySize);
    ghost var t2 := h.s;
    DriftMem(t1, t2);
    SlotFacts(h, 0);
    FreeSmallBlock(h, p, b);
    GivenOne(t2, h.s, p);
    StillLive(t2, h.s, p, r);
    MovedBy(s, t1, t2, h.s, p, r, copySize);
    FreedSize(t2, h.s, p, size1, h.size);
  }

  lemma ClassUsable(size: int)
    requires 0 <= size <= MAX_SMALL
    ensures size <= Usable(Small(ClassFor(size)))
  {}

  lemma FreedSize(t: State, u: State, p: int, size: int, size2: int)
    requires Sound(t) && p in t.live && Freed(t, u, p) && Drift(size2, u) == Drift(size, t)
    ensures size2 + Usable(t.live[p]) == size
  {
    hide Sound, Usable, SumUsable;
    LiveAddress(t, p);
    SumRemove(t.live, p);
  }

  // ----- in place -----

  /** Nothing moves. */
  lemma MovedNowhere(s: State, p: int, n: nat)
    requires Sound(s) && Held(s, p) && n <= Usable(s.live[p])
    ensures Moved(s, s, p, p, n)
  {
    hide Sound, Usable, IsNode, Mapped, SameBytes;
    LiveMapped(s, p);
    MappedPart(s.mem, p, Usable(s.live[p]), p, n);
    var u := User(s);
    assert u == (u - {p})[p := u[p]];
    forall x | x in User(s) && x != p ensures SameBytes(s.mem, s.mem, x, Usable(s.live[x])) { BytesRefl(s.mem, x, Usable(s.live[x])); }
  }

  lemma BytesRefl(m: Mem, a: int, n: int)
    ensures SameBytes(m, m, a, n)
  {}

  /** The block keeps its address and its bytes and gets another size. */
  lemma MovedInPlace(s: State, t: State, p: int, k: Block, n: nat)
    requires Sound(s) && Held(s, p) && n <= Usable(s.live[p]) && t.live == s.live[p := k] && t.huge == s.huge && t.key == s.key && t.mem == s.mem
    ensures Moved(s, t, p, p, n)
  {
    hide Sound, Usable, IsNode, Mapped, SameBytes;
    LiveMapped(s, p);
    MappedPart(s.mem, p, Usable(s.live[p]), p, n);
    assert User(t) == (User(s) - {p})[p := k];
    forall x | x in User(s) && x != p ensures SameBytes(s.mem, t.mem, x, Usable(s.live[x])) { BytesRefl(s.mem, x, Usable(s.live[x])); }
  }

  /** A chunk with a live run is not empty. */
  lemma RunSettled(s: State, t: State, c: int, r: Pages, page: nat)
    requires Settled(s) && t == s.(pg := t.pg, live := t.live) && t.pg == s.pg[c := r] && Quiet(t.pg)
    requires PagesOK(r) && |r.own| == PAGES && 1 <= page < PAGES && r.own[page] == page
    ensures Settled(t)
  {
    hide Quiet, PagesOK;
    if EmptyChunk(r) { EmptyIsBlank(r); }
  }

  lemma ResizedRun(p: Pages, page: nat, n: nat, m: nat)
    requires page < |p.own| && |p.own| == PAGES && p.own[page] == page && page < |p.info| && 1 <= m
    ensures m < n ==> |ShrinkRun(p, page, n, m).own| == PAGES && ShrinkRun(p, page, n, m).own[page] == page
    ensures n < m ==> |GrowRun(p, page, n, m).own| == PAGES && GrowRun(p, page, n, m).own[page] == page
  {}

  /** Free the tail pages. */
  method ShrinkInPlace(h: Heap, c: int, page: nat, n: nat, m: nat)
    requires h.Ready() && LargeRun(h.s, c, page, n) && 1 <= m < n && Held(h.s, PageAddr(c, page))
    modifies h`s, h`size, h.hm.objs, h.hm`pg
    ensures h.Ready() && h.hm.objs == old(h.hm.objs)
    ensures Moved(old(h.s), h.s, PageAddr(c, page), PageAddr(c, page), m * PAGE) && h.s.live[PageAddr(c, page)] == Large(m)
    ensures Drift(h.size, h.s) == Drift(old(h.size), old(h.s)) && h.size == old(h.size) - (n - m) * PAGE
  {
    hide Sound, Headers.Valid, Clear, Heap.Heads, Heap.Account, Settled, SumHuge, IsNode, PagesOK, Quiet, ShrinkRun, Moved, Drift, PageAddr;
    ghost var s := h.s;
    RingPages(s, c);
    LargeFacts(s, c, page, n);
    h.size := h.size - (n - m) * PAGE;
    h.hm.ShrinkLarge(c, page, n, m);
    ShrinkSound(s, c, page, n, m);
    ResizedRun(s.pg[c], page, n, m);
    QuietOf(s);
    h.s := Shrink(s, c, page, n, m);
    RunSettled(s, h.s, c, h.hm.pg[c], page);
    MovedInPlace(s, h.s, PageAddr(c, page), Large(m), m * PAGE);
    DriftSet(s, h.s, PageAddr(c, page), Large(m), old(h.size));
  }

  lemma QuietOf(s: State)
    requires Settled(s)
    ensures Quiet(s.pg)
  {}

  lemma DriftSet(s: State, t: State, p: int, k: Block, size: int)
    requires p in s.live && t.live == s.live[p := k] && IsAddress(p)
    ensures Drift(size - Usable(s.live[p]) + Usable(k), t) == Drift(size, s)
  {
    hide Usable, SumUsable;
    SumSet(s.live, p, k);
  }

  /** The pages behind a run of `n` pages are free, up to those of a run of `m`. */
  ghost predicate FreeBehind(s: State, c: int, page: int, n: nat, m: nat) {
    c in s.pg && page + m <= PAGES && AllFree(s.pg[c].own, page + n, page + m)
  }

  /** The page part of growing in place. */
  method TakeTail(h: Heap, c: int, page: nat, n: nat, m: nat) returns (grown: bool)
    requires h.Ready() && LargeRun(h.s, c, page, n) && 1 <= n < m
    modifies h`s, h.hm.objs, h.hm`pg
    ensures h.Ready() && h.hm.objs == old(h.hm.objs)
    ensures grown <==> FreeBehind(old(h.s), c, page, n, m)
    ensures !grown ==> h.s == old(h.s)
    ensures grown ==> h.s == Grow(old(h.s), c, page, n, m)
  {
    hide Sound, Headers.Valid, Clear, Heap.Heads, Heap.Account, Settled, SumHuge, PagesOK, Quiet, GrowRun, AllFree;
    ghost var s := h.s;
    RingPages(s, c);
    grown := h.hm.GrowLarge(c, page, n, m);
    if grown {
      GrowSound(s, c, page, n, m);
      ResizedRun(s.pg[c], page, n, m);
      QuietOf(s);
      h.s := Grow(s, c, page, n, m);
      RunSettled(s, h.s, c, h.hm.pg[c], page);
    }
  }

  /** Take the pages right behind the run, if they are free. */
  method GrowInPlace(h: Heap, c: int, page: nat, n: nat, m: nat) returns (grown: bool)
    requires h.Ready() && LargeRun(h.s, c, page, n) && 1 <= n < m && Held(h.s, PageAddr(c, page))
    modifies h`s, h`size, h`peak, h.hm.objs, h.hm`pg
    ensures h.Ready() && h.hm.objs == old(h.hm.objs)
    ensures grown <==> FreeBehind(old(h.s), c, page, n, m)
    ensures !grown ==> h.s == old(h.s) && h.size == old(h.size) && h.peak == old(h.peak)
    ensures grown ==> Moved(old(h.s), h.s, PageAddr(c, page), PageAddr(c, page), n * PAGE) && h.s.live[PageAddr(c, page)] == Large(m)
    ensures grown ==> Drift(h.size, h.s) == Drift(old(h.size), old(h.s)) && h.peak == Larger(old(h.peak), h.size)
  {
    hide Sound, Headers.Valid, Clear, Heap.Heads, Heap.Account, Heap.Tables, Settled, SumHuge, IsNode, GrowRun, Moved, Drift, PageAddr, FreeBehind;
    ghost var s := h.s;
    RingPages(s, c);
    LargeFacts(s, c, page, n);
    SlotFacts(h, 0);
    grown := TakeTail(h, c, page, n, m);
    if grown {
      SlotFacts(h, 0);
      h.AddUsage((m - n) * PAGE);
      MovedInPlace(s, h.s, PageAddr(c, page), Large(m), n * PAGE);
      DriftSet(s, h.s, PageAddr(c, page), Large(m), old(h.size));
    }
  }

  // ----- the calls -----

  /** The block is not moved, wherever it lies: its class, its pages or its region are those
      of the new size, or a large run is cut short. */
  predicate StaysPut(k: Block, size: int)
    requires 0 <= size
  {
    match k
    case NoBlock => false
    case Small(b) => b < BINS && Wanted(size) <= BinSize(b) && (b == 0 || BinSize(b - 1) <= Wanted(size))
    case Large(n) => MAX_SMALL < size <= MAX_LARGE && PagesFor(size) <= n
    case Huge(n) => size > MAX_LARGE && RoundUp(size) == n
  }

  /** Block `p` is a large run that can grow where it is. */
  ghost predicate GrowsHere(s: State, p: int, size: int) {
    && p in s.live && s.live[p].Large? && MAX_SMALL < size <= MAX_LARGE && s.live[p].pages < PagesFor(size)
    && FreeBehind(s, Base(p), PageOf(p), s.live[p].pages, PagesFor(size))
  }

  /** Block `p` can be resized without being moved. */
  ghost predicate InPlace(s: State, p: int, size: int)
    requires 0 <= size
  {
    p in s.live && (StaysPut(s.live[p], size) || GrowsHere(s, p, size))
  }

  /** The block that there is after the call: a small one that stays put keeps its class. */
  function Became(k: Block, size: int): Block
    requires 0 <= size
  {
    if k.Small? && StaysPut(k, size) then k else BlockFor(size)
  }

  /** What the peak counts beside the usage: a small block that shrinks into another class is
      counted twice. */
  function Extra(k: Block, size: int): nat
    requires 0 <= size
  {
    if k.Small? && Wanted(size) <= Usable(k) && !StaysPut(k, size) then Usable(k) else 0
  }

  /** The size that is looked at: at least two pointers. */
  function Wanted(size: int): int {
    if size < MIN_USABLE then MIN_USABLE else size
  }

  /** The class of a request is the one whose size bounds it and whose lower neighbour does not. */
  lemma ClassIs(size: int, b: nat)
    requires 0 <= size <= MAX_SMALL && 1 <= b < BINS
    ensures ClassFor(size) == b <==> BinSize(b - 1) < Wanted(size) <= BinSize(b)
    ensures ClassFor(size) <= b <==> Wanted(size) <= BinSize(b)
  {
    hide BinSize, ClassFor;
    var c := ClassFor(size);
    LargestSmall();
    ClassAbove(size);
    if c < b { BinOrder(c, b); if c < b - 1 { BinOrder(c, b - 1); } }
    if b < c { BinOrder(b, c); if b < c - 1 { BinOrder(b, c - 1); } }
  }

  lemma ClassAbove(size: int)
    requires 0 <= size <= MAX_SMALL
    ensures 1 <= ClassFor(size) < BINS && BinSize(ClassFor(size) - 1) < Wanted(size) <= BinSize(ClassFor(size))
  {
    hide ClassFor, BinSize, BIN_SIZE;
    ClassOfSmall(size);
    SmallUsable(ClassFor(size));
    if size < MIN_USABLE { ClassUsable(MIN_USABLE); SmallUsable(ClassFor(MIN_USABLE)); }
  }

  lemma LargestSmall()
    ensures BinSize(BINS - 1) == MAX_SMALL
  {}

  /** A small block stays if the request is of its class, or fills the next smaller one to the
      byte; a large run if the request is large and not larger than the run; a huge block if
      the request is huge and ends in its last page. */
  lemma StaysExactly(k: Block, size: int)
    requires 0 <= size < 0x1_0000_0000_0000_0000 && (k.Small? ==> 1 <= k.bin < BINS)
    requires k.Huge? ==> k.size % PAGE == 0 && 0 < k.size < 0x1_0000_0000_0000_0000
    ensures k.Small? ==>
      (StaysPut(k, size) <==> size <= MAX_SMALL && (ClassFor(size) == k.bin || Wanted(size) == BinSize(k.bin - 1)))
    ensures k.Large? ==> (StaysPut(k, size) <==> MAX_SMALL < size <= MAX_LARGE && size <= Usable(k))
    ensures k.Huge? ==> (StaysPut(k, size) <==> MAX_LARGE < size <= Usable(k) < size + PAGE)
  {
    hide BinSize, ClassFor;
    if k.Small? {
      BinTop(k.bin);
      if size <= MAX_SMALL { ClassIs(size, k.bin); }
      BinOrder(k.bin - 1, k.bin);
    }
    if k.Huge? && MAX_LARGE < size {
      RoundUpFits(size);
      if size <= RoundUp(size) { SamePages(size, RoundUp(size), k.size); }
    }
  }

  lemma BinTop(b: nat)
    requires b < BINS
    ensures BinSize(b) <= MAX_SMALL
  {}

  lemma SamePages(size: int, n: int, m: int)
    requires m % PAGE == 0 && n % PAGE == 0 && size <= n < size + PAGE
    ensures size <= m < size + PAGE <==> m == n
  {}

  /** The block after the call is of the class, the pages or the region of the request; only a
      small block whose request fills the next smaller class to the byte keeps its own. */
  lemma BecameExactly(k: Block, size: int)
    requires 0 <= size < 0x1_0000_0000_0000_0000 && (k.Small? ==> 1 <= k.bin < BINS)
    ensures Became(k, size) ==
      if k.Small? && Wanted(size) == BinSize(k.bin - 1) then k else BlockFor(size)
    ensures k.Small? && Wanted(size) == BinSize(k.bin - 1) ==> BlockFor(size) == Small(k.bin - 1)
  {
    hide BinSize, ClassFor, BlockFor;
    BlockIs(size);
    if k.Small? {
      StaysExactly(k, size);
      BinTop(k.bin - 1);
      if Wanted(size) == BinSize(k.bin - 1) {
        ClassAtTop(size, k.bin - 1);
      }
    }
  }

  lemma ClassAtTop(size: int, b: nat)
    requires 0 <= size && b + 1 < BINS && Wanted(size) == BinSize(b)
    ensures size <= MAX_SMALL && ClassFor(size) == b
  {
    hide BinSize, ClassFor, BIN_SIZE;
    BinTop(b);
    var c := ClassFor(size);
    ClassAbove(size);
    if c < b { BinOrder(c, b); }
    if b < c - 1 { BinOrder(b, c - 1); }
  }

  /** The peak counts both blocks exactly when a small block moves to a smaller class. */
  lemma ExtraExactly(k: Block, size: int)
    requires 0 <= size < 0x1_0000_0000_0000_0000 && (k.Small? ==> 1 <= k.bin < BINS)
    ensures Extra(k, size) ==
      if k.Small? && size <= MAX_SMALL && ClassFor(size) < k.bin && Wanted(size) != BinSize(k.bin - 1) then Usable(k) else 0
  {
    hide BinSize, ClassFor;
    if k.Small? {
      BinTop(k.bin);
      SmallUsable(k.bin);
      StaysExactly(k, size);
      if size <= MAX_SMALL { ClassIs(size, k.bin); }
    }
  }

  /** How many bytes a move copies: with the caller's copy size, as many as the old block
      has; only when a small block shrinks is that cut to the new size. */
  function CopyLength(k: Block, size: int, copySize: nat): nat
    requires 0 <= size
  {
    if k.Small? && Wanted(size) <= Usable(k) then Smaller(Wanted(size), copySize) else Smaller(Usable(k), copySize)
  }

  /** The copy stays inside the block that the request gets. */
  predicate CopyFits(k: Block, size: int, copySize: nat)
    requires 0 <= size
  {
    StaysPut(k, size) || CopyLength(k, size, copySize) <= Usable(BlockFor(size))
  }

  /** A small block, and a plain resize, which passes the new size as copy size, never run past
      the end; nor does growth. */
  lemma CopySafe(k: Block, size: int, copySize: nat)
    requires 0 <= size < 0x1_0000_0000_0000_0000
    requires k.Small? || (k.Large? && MAX_SMALL < size) || copySize <= size || Usable(k) <= size
    requires size <= MAX_LARGE || size <= RoundUp(size)
    requires k.Large? ==> Usable(k) <= MAX_LARGE
    ensures CopyFits(k, size, copySize)
  {
    hide BinSize, RoundUp, BIN_SIZE;
    BlockHolds(size);
    if k.Small? && Wanted(size) > Usable(k) { BlockHolds(Wanted(size)); }
  }

  /** The block that a request gets holds it. */
  lemma BlockHolds(size: int)
    requires 0 <= size && (size <= MAX_LARGE || size <= RoundUp(size))
    ensures size <= Usable(BlockFor(size))
    ensures size <= MIN_USABLE ==> MIN_USABLE <= Usable(BlockFor(size))
  {
    hide BinSize, RoundUp, BIN_SIZE;
    if size <= MIN_USABLE { ClassOfSmall(size); }
  }

  /** Where the condition fails: a huge block of 4 MB that shrinks to 100 bytes with a copy size
      of 5000 gets an element of 112 bytes, and 5000 bytes are copied into it. */
  lemma CopyOverruns()
    ensures BlockFor(100) == Small(10) && Usable(Small(10)) == 112
    ensures CopyLength(Huge(2 * CHUNK), 100, 5000) == 5000
    ensures !CopyFits(Huge(2 * CHUNK), 100, 5000)
  {}

  /** Where a copy size above the new size is harmless: rounding up leaves room for it, or
      nothing is copied. */
  lemma CopyAboveSize()
    ensures CopyFits(Large(2), 3000, 3050)
    ensures CopyFits(Huge(2 * CHUNK), 2 * CHUNK - 100, 2 * CHUNK - 50)
  {}

  /** How many bytes survive. */
  function Kept(old_: nat, size: nat, copySize: nat): nat {
    Smaller(Smaller(old_, size), copySize)
  }

  function Smaller(a: nat, b: nat): nat {
    if a < b then a else b
  }

  lemma MovedShorter(s: State, t: State, p: int, r: int, n: nat, k: nat)
    requires Moved(s, t, p, r, n) && k <= n
    ensures Moved(s, t, p, r, k)
  {
    hide UserKept, User, Bytes;
    BytesPart(s.mem, p, n, k);
    BytesPart(t.mem, r, n, k);
  }

  lemma MovedAfter(s: State, t: State, u: State, p: int, r: int, n: nat)
    requires Sound(s) && Held(s, p) && Refused(s, t) && Moved(t, u, p, r, n) && n <= Usable(s.live[p])
    ensures Moved(s, u, p, r, n)
  {
    hide Sound, IsNode, SameBytes, Usable, SamePrefix;
    ZeroNotLive(s);
    LiveMapped(s, p);
    assert User(t) == User(s);
    forall x | x in User(s) && x != p ensures SameBytes(s.mem, u.mem, x, Usable(s.live[x])) {
      SameBytesChain(s.mem, t.mem, u.mem, x, Usable(s.live[x]));
    }
    PrefixEarlier(s.mem, t.mem, p, u.mem, r, n, Usable(s.live[p]));
  }

  /** The limit check for a huge block that grows, with one retry after a collection. */
  method AllowGrowth(h: Heap, extra: nat) returns (ok: bool)
    requires h.Ready()
    modifies h, h.hm, h.hm.objs, h.freeSlot
    ensures h.Ready() && h.hm.objs == old(h.hm.objs) && h.limit == old(h.limit) && h.overflow == old(h.overflow)
    ensures h.floating == old(h.floating) && h.size == old(h.size) && h.peak == old(h.peak) && h.refusals == old(h.refusals)
    ensures Refused(old(h.s), h.s)
    ensures !ok ==> OverLimit(h, extra)
    ensures extra <= Room(h.limit, old(h.realSize)) ==> ok && h.s == old(h.s) && h.realSize == old(h.realSize)
    ensures h.realSize <= old(h.realSize) && h.realPeak == old(h.realPeak) && h.peakChunksCount == old(h.peakChunksCount)
  {
    hide Sound, Headers.Valid, Clear, Heap.Heads, Heap.Account, Heap.Tables, Settled, SumHuge, Refused, Room, Collected, GcSpec.NoIdle;
    ghost var s := h.s;
    SlotFacts(h, 0);
    RefusedSame(s);
    ok := true;
    if extra > Room(h.limit, h.realSize) {
      var g := Gc(h);
      RefusedGc(s, h.s);
      if g != 0 && extra <= Room(h.limit, h.realSize) {
      } else if !h.overflow {
        ok := false;
      }
    }
  }

  lemma BlockIs(size: int)
    requires 0 <= size
    ensures size <= MAX_SMALL ==> BlockFor(size) == Small(ClassFor(size))
    ensures MAX_SMALL < size <= MAX_LARGE ==> BlockFor(size) == Large(PagesFor(size))
    ensures MAX_LARGE < size ==> 0 <= RoundUp(size) && BlockFor(size) == Huge(RoundUp(size))
  {}

  /** Nothing in the heap serves a huge request. */
  lemma HugeExhausted(s: State, size: int)
    requires MAX_LARGE < size
    ensures Exhausted(s, size)
  {}

  /** Where the whole block fits below the limit, so does what it has more than before. */
  lemma FittingRoom(h: Heap, size: int, extra: nat)
    requires h.Money() && extra <= RoundUp(size)
    ensures Fitting(size, h.limit, h.realSize) ==> extra <= Room(h.limit, h.realSize)
  {
    hide RoundUp, Room;
    AccountSign(h);
    RoomIs(h.limit, h.realSize);
  }

  lemma GrownAfter(a: Moment, t: Moment, b: Moment, size: int, limit: int, overflow: bool)
    requires 0 <= size && Grown(t, b, size, limit, overflow)
    requires size <= MAX_LARGE || Fitting(size, limit, a.realSize) ==> t == a
    ensures Grown(a, b, size, limit, overflow)
  {
    hide RoundUp, Room, ClassEmpty, MustAsk, Fitting;
  }

  /** What is too much for the limit stays too much when it is more. */
  lemma OverMore(h: Heap, extra: nat, n: int)
    requires OverLimit(h, extra) && extra <= n
    ensures OverLimit(h, n)
  {
    hide GcSpec.NoIdle, Room;
  }

  /** zend_mm_realloc_huge. Blocks are neither truncated nor extended in place. */
  method ReallocHuge(h: Heap, p: int, size: int, copySize: nat) returns (r: int, overrun: bool, ghost mid: Moment)
    requires h.Ready() && Held(h.s, p) && h.s.live[p].Huge? && 0 <= size < 0x1_0000_0000_0000_0000 && 0 <= h.floating
    modifies h, h.hm, h.hm.objs, h.freeSlot
    ensures h.Ready() && fresh(h.hm.objs - old(h.hm.objs)) && h.limit == old(h.limit) && h.overflow == old(h.overflow)
    ensures h.floating == old(h.floating) && old(h.refusals) <= h.refusals
    ensures r == 0 ==> Refused(old(h.s), h.s) && Exhausted(old(h.s), size) && OutOfMemory(h, size, old(h.refusals))
    ensures r != 0 ==> r in h.s.live && h.s.live[r] == BlockFor(size)
    ensures h.realPeak == Larger(old(h.realPeak), mid.realSize) && h.peakChunksCount == Larger(old(h.peakChunksCount), |mid.s.ring|)
    ensures h.realSize <= mid.realSize && h.refusals == mid.refusals
    ensures r != 0 && r != p ==> Allocated(old(h.s), mid.s, r) && Grown(old(Moment(h.s, h.realSize, h.refusals)), mid, size, h.limit, h.overflow)
    ensures r == 0 ==> mid == Moment(h.s, h.realSize, h.refusals)
    ensures r == p ==> mid == old(Moment(h.s, h.realSize, h.refusals))
    ensures r == p <==> StaysPut(old(h.s).live[p], size)
    ensures r == p ==> h.s == old(h.s) && h.realSize == old(h.realSize) && h.refusals == old(h.refusals)
    ensures overrun <==> r != 0 && !CopyFits(old(h.s).live[p], size, copySize)
    ensures overrun ==> size <= Usable(BlockFor(size))
    ensures r != 0 && !overrun ==>
      Moved(old(h.s), h.s, p, r, Kept(Usable(old(h.s).live[p]), size, copySize)) && r in h.s.live && size <= Usable(h.s.live[r])
    ensures r != 0 && !overrun ==> Drift(h.size, h.s) == Drift(old(h.size), old(h.s))
    ensures r != 0 && !overrun && old(h.size) <= old(h.peak) ==> h.peak == Larger(old(h.peak), h.size)
  {
    hide Sound, Headers.Valid, Clear, Heap.Heads, Heap.Account, Heap.Tables, Settled, SumHuge, IsNode, Drift, Moved, Refused, RoundUp, Room, SamePrefix,
      BlockFor, Exhausted, LimitHit, Starved, OverLimit, Grown, Fitting, Allocated;
    ghost var s := h.s;
    overrun := false;
    SlotFacts(h, 0);
    RefusedSame(s);
    HeldPositive(s, p);
    PeakFacts(h);
    mid := Moment(s, h.realSize, h.refusals);
    ghost var a0 := mid;
    var oldSize := HugeSize(h, p);
    if size > MAX_LARGE {
      RoundUpFits(size);
      HugeExhausted(s, size);
      BlockIs(size);
      var newSize := RoundUp(size);
      if newSize == oldSize {
        // the size in the list node stays as it is
        MovedNowhere(s, p, Kept(oldSize, size, copySize));
        return p, false, mid;
      } else if newSize > oldSize {
        FittingRoom(h, size, newSize - oldSize);
        var ok := AllowGrowth(h, newSize - oldSize);
        if !ok {
          PeakFacts(h);
          OverMore(h, newSize - oldSize, newSize);
          return 0, false, Moment(h.s, h.realSize, h.refusals);
        }
      }
    }
    ghost var t, realSize, refusals := h.s, h.realSize, h.refusals;
    RefusedHeld(s, t, p);
    SlotFacts(h, 0);
    PeakFacts(h);
    r, overrun, mid := ReallocSlow(h, p, size, Smaller(oldSize, copySize));
    if r == 0 {
      RefusedChain(s, t, h.s);
    } else {
      AllocatedAfter(s, t, mid.s, r);
      GrownAfter(a0, Moment(t, realSize, refusals), mid, size, h.limit, h.overflow);
    }
    if r != 0 && !overrun {
      MovedShorter(t, h.s, p, r, Smaller(oldSize, copySize), Kept(oldSize, size, copySize));
      MovedAfter(s, t, h.s, p, r, Kept(oldSize, size, copySize));
      DriftSame(s, t, old(h.size));
    }
  }

  lemma RefusedHeld(s: State, t: State, p: int)
    requires Refused(s, t) && Held(s, p)
    ensures Held(t, p) && t.live[p] == s.live[p]
  {
    hide SameLive, IsNode;
  }

  /** Small block, any new size. */
  method ReallocSmallBlock(h: Heap, p: int, b: nat, size: int, useCopySize: bool, copySize: nat)
    returns (r: int, ghost mid: Moment)
    requires h.Ready() && Held(h.s, p) && 1 <= b < BINS && h.s.live[p] == Small(b) && MIN_USABLE <= size < 0x1_0000_0000_0000_0000 && 0 <= h.floating
    modifies h, h.hm, h.hm.objs, h.freeSlot
    ensures h.Ready() && fresh(h.hm.objs - old(h.hm.objs)) && h.limit == old(h.limit) && h.overflow == old(h.overflow)
    ensures h.floating == old(h.floating) && old(h.refusals) <= h.refusals
    ensures r == 0 ==> Refused(old(h.s), h.s) && Exhausted(old(h.s), size) && OutOfMemory(h, size, old(h.refusals))
    ensures r != 0 ==> Moved(old(h.s), h.s, p, r, Kept(BinSize(b), size, copySize)) && r in h.s.live && size <= Usable(h.s.live[r])
    ensures r != 0 ==> h.s.live[r] == Became(Small(b), size)
    ensures h.realPeak == Larger(old(h.realPeak), mid.realSize) && h.peakChunksCount == Larger(old(h.peakChunksCount), |mid.s.ring|)
    ensures h.realSize <= mid.realSize && h.refusals == mid.refusals
    ensures r != 0 && r != p ==> Allocated(old(h.s), mid.s, r) && Grown(old(Moment(h.s, h.realSize, h.refusals)), mid, size, h.limit, h.overflow)
    ensures r == 0 ==> mid == Moment(h.s, h.realSize, h.refusals)
    ensures r == p ==> mid == old(Moment(h.s, h.realSize, h.refusals))
    ensures r == p <==> StaysPut(Small(b), size)
    ensures r == p ==> h.s == old(h.s) && h.realSize == old(h.realSize) && h.refusals == old(h.refusals)
    ensures r != 0 ==> size <= Usable(BlockFor(size))
    ensures r != 0 ==> Drift(h.size, h.s) == Drift(old(h.size), old(h.s))
    ensures r != 0 && old(h.size) <= old(h.peak) ==> h.peak == Larger(old(h.peak), h.size + Extra(Small(b), size))
  {
    hide Sound, Headers.Valid, Clear, Heap.Heads, Heap.Account, Heap.Tables, Settled, SumHuge, IsNode, Drift, Moved, Refused, SamePrefix, BinSize, Usable, BIN_SIZE,
      ClassEmpty, LimitHit, Starved, RoundUp, Room, BlockFor, ClassFor;
    ghost var s := h.s;
    SmallUsable(b);
    BinFacts(b);
    BlockIs(size);
    HeldPositive(s, p);
    PeakFacts(h);
    mid := Moment(s, h.realSize, h.refusals);
    SlotFacts(h, 0);
    var oldSize := BinSize(b);
    if size <= oldSize {
      if b > 0 && size < BinSize(b - 1) {
        var n := if useCopySize then Smaller(size, copySize) else size;
        r, mid := ReallocSmall(h, p, b, size, n);
        if r != 0 { MovedShorter(s, h.s, p, r, n, Kept(oldSize, size, copySize)); }
      } else {
        r := p;
        MovedNowhere(s, p, Kept(oldSize, size, copySize));
      }
      if size <= MAX_SMALL { BlockHolds(size); }
    } else if size <= MAX_SMALL {
      ClassUsable(size);
      BlockHolds(size);
      var origPeak := h.peak;
      var n := if useCopySize then Smaller(oldSize, copySize) else oldSize;
      r, mid := ReallocSmall(h, p, b, size, n);
      if r != 0 {
        MovedShorter(s, h.s, p, r, n, Kept(oldSize, size, copySize));
        SlotFacts(h, 0);
        h.peak := Larger(origPeak, h.size);
      }
    } else {
      var overrun;
      r, overrun, mid := ReallocSlow(h, p, size, Smaller(oldSize, copySize));
    }
  }

  lemma HeldPositive(s: State, p: int)
    requires Sound(s) && p in s.live
    ensures 0 < p
  {
    hide Sound;
    LiveMapped(s, p);
  }

  /** Large block, any new size. */
  method ReallocLargeBlock(h: Heap, p: int, c: int, page: nat, n: nat, size: int, copySize: nat)
    returns (r: int, overrun: bool, ghost mid: Moment)
    requires h.Ready() && Held(h.s, p) && LargeRun(h.s, c, page, n) && p == PageAddr(c, page) && h.s.live[p] == Large(n)
    requires MIN_USABLE <= size < 0x1_0000_0000_0000_0000 && 0 <= h.floating
    modifies h, h.hm, h.hm.objs, h.freeSlot
    ensures h.Ready() && fresh(h.hm.objs - old(h.hm.objs)) && h.limit == old(h.limit) && h.overflow == old(h.overflow)
    ensures h.floating == old(h.floating) && old(h.refusals) <= h.refusals
    ensures r == 0 ==> Refused(old(h.s), h.s) && Exhausted(old(h.s), size) && OutOfMemory(h, size, old(h.refusals))
    ensures r != 0 ==> r in h.s.live && h.s.live[r] == BlockFor(size)
    ensures h.realPeak == Larger(old(h.realPeak), mid.realSize) && h.peakChunksCount == Larger(old(h.peakChunksCount), |mid.s.ring|)
    ensures h.realSize <= mid.realSize && h.refusals == mid.refusals
    ensures r != 0 && r != p ==> Allocated(old(h.s), mid.s, r) && Grown(old(Moment(h.s, h.realSize, h.refusals)), mid, size, h.limit, h.overflow)
    ensures r == 0 ==> mid == Moment(h.s, h.realSize, h.refusals)
    ensures r == p ==> mid == old(Moment(h.s, h.realSize, h.refusals))
    ensures r == p <==> InPlace(old(h.s), p, size)
    ensures r == p ==> h.realSize == old(h.realSize) && h.refusals == old(h.refusals)
    ensures overrun <==> r != 0 && !CopyFits(Large(n), size, copySize)
    ensures overrun ==> size <= Usable(BlockFor(size))
    ensures r != 0 && !overrun ==> Moved(old(h.s), h.s, p, r, Kept(n * PAGE, size, copySize)) && r in h.s.live && size <= Usable(h.s.live[r])
    ensures r != 0 && !overrun ==> Drift(h.size, h.s) == Drift(old(h.size), old(h.s))
    ensures r != 0 && !overrun && old(h.size) <= old(h.peak) ==> h.peak == Larger(old(h.peak), h.size)
  {
    hide Sound, Headers.Valid, Clear, Heap.Heads, Heap.Account, Heap.Tables, Settled, SumHuge, IsNode, Drift, Moved, Refused, SamePrefix, LargeRun, FreeBehind, PageAddr,
      BlockFor, Exhausted, LimitHit, Starved, RoundUp, Room;
    ghost var s := h.s;
    overrun := false;
    if MAX_SMALL < size <= MAX_LARGE { GrowthFits(n, size, copySize); }
    HeldPositive(s, p);
    RunLength(s, c, page, n);
    RunBase(s, c, page, n);
    BlockIs(size);
    PeakFacts(h);
    mid := Moment(s, h.realSize, h.refusals);
    SlotFacts(h, 0);
    if MAX_SMALL < size <= MAX_LARGE {
      var newPages := PagesFor(size);
      if newPages == n {
        MovedNowhere(s, p, Kept(n * PAGE, size, copySize));
        return p, false, mid;
      } else if newPages < n {
        ShrinkInPlace(h, c, page, n, newPages);
        MovedLive(s, h.s, p, p, newPages * PAGE);
        MovedShorter(s, h.s, p, p, newPages * PAGE, Kept(n * PAGE, size, copySize));
        return p, false, mid;
      } else {
        var grown := GrowInPlace(h, c, page, n, newPages);
        if grown {
          MovedLive(s, h.s, p, p, n * PAGE);
          MovedShorter(s, h.s, p, p, n * PAGE, Kept(n * PAGE, size, copySize));
          return p, false, mid;
        }
        SlotFacts(h, 0);
      }
    }
    r, overrun, mid := ReallocSlow(h, p, size, Smaller(n * PAGE, copySize));
    if r != 0 && !overrun { MovedShorter(s, h.s, p, r, Smaller(n * PAGE, copySize), Kept(n * PAGE, size, copySize)); }
  }

  /** A large block that grows to more pages is copied into more than it has. */
  lemma GrowthFits(n: nat, size: int, copySize: nat)
    requires MAX_SMALL < size <= MAX_LARGE
    ensures CopyFits(Large(n), size, copySize)
  {}

  lemma RunLength(s: State, c: int, page: nat, n: nat)
    requires Sound(s) && LargeRun(s, c, page, n)
    ensures 1 <= n
  {
    hide Sound;
    LargeIsLive(s, c, page, n);
  }

  /** zend_mm_realloc_heap. `useCopySize` is false for a plain realloc, which passes the new
      size for `copySize`. `r == 0` means that memory is exhausted, and the old block stays.
      The copy runs past the new block exactly when `CopyFits` fails. */
  method ReallocHeap(h: Heap, p: int, size: int, useCopySize: bool, copySize: nat)
    returns (r: int, overrun: bool, ghost mid: Moment)
    requires h.Ready() && (p == 0 || Held(h.s, p)) && 0 <= size < 0x1_0000_0000_0000_0000 && 0 <= h.floating
    requires !useCopySize ==> copySize == size
    modifies h, h.hm, h.hm.objs, h.freeSlot
    ensures h.Ready() && fresh(h.hm.objs - old(h.hm.objs)) && h.limit == old(h.limit) && h.overflow == old(h.overflow)
    ensures h.floating == old(h.floating) && old(h.refusals) <= h.refusals
    ensures r == 0 ==> Refused(old(h.s), h.s) && Exhausted(old(h.s), size) && OutOfMemory(h, size, old(h.refusals))
    ensures r != 0 ==> r in h.s.live && h.s.live[r] == if p == 0 then BlockFor(size) else Became(old(h.s).live[p], size)
    ensures h.realPeak == Larger(old(h.realPeak), mid.realSize) && h.peakChunksCount == Larger(old(h.peakChunksCount), |mid.s.ring|)
    ensures h.realSize <= mid.realSize && h.refusals == mid.refusals
    ensures r != 0 && r != p ==> Allocated(old(h.s), mid.s, r) && Grown(old(Moment(h.s, h.realSize, h.refusals)), mid, size, h.limit, h.overflow)
    ensures r == 0 ==> mid == Moment(h.s, h.realSize, h.refusals)
    ensures p != 0 && r == p ==> mid == old(Moment(h.s, h.realSize, h.refusals))
    ensures p != 0 ==> (r == p <==> InPlace(old(h.s), p, size))
    ensures p != 0 && r == p ==> h.realSize == old(h.realSize) && h.refusals == old(h.refusals)
    ensures r != 0 && p == 0 ==> Allocated(old(h.s), h.s, r)
    ensures overrun <==> r != 0 && p != 0 && !CopyFits(old(h.s).live[p], size, copySize)
    ensures overrun ==> size <= Usable(BlockFor(size))
    ensures r != 0 && p != 0 && !overrun ==> Moved(old(h.s), h.s, p, r, Kept(Usable(old(h.s).live[p]), size, copySize))
    ensures r != 0 && !overrun ==> r in h.s.live && size <= Usable(h.s.live[r])
    ensures r != 0 && !overrun ==> Drift(h.size, h.s) == Drift(old(h.size), old(h.s))
    ensures r != 0 && !overrun && old(h.size) <= old(h.peak) ==>
      h.peak == Larger(old(h.peak), h.size + if p == 0 then 0 else Extra(old(h.s).live[p], size))
  {
    hide Sound, Headers.Valid, Clear, Heap.Heads, Heap.Account, Heap.Tables, Settled, SumHuge, IsNode, Drift, Moved, Refused, SamePrefix, Allocated,
      LiveKept, ClassFor, BinSize, BIN_SIZE, Exhausted, OutOfMemory, CopyFits, BlockFor, RoundUp, StaysPut, FreeBehind, Extra, Grown, Room, ClassEmpty, MustAsk;
    ghost var s := h.s;
    overrun := false;
    AddressKind(s, p);
    SlotFacts(h, 0);
    if p % CHUNK == 0 {
      if p == 0 {
        r, mid := AllocMoment(h, size);
      } else {
        HugePlace(s, p, size);
        r, overrun, mid := ReallocHuge(h, p, size, copySize);
      }
    } else {
      var c, page, info := Identify(h, p);
      var sz := Wanted(size);
      if info.SRun? || info.NRun? {
        SmallUsable(info.bin);
        ClassSmall(s, p, info.bin);
        r, mid := ReallocSmallBlock(h, p, info.bin, sz, useCopySize, copySize);
        if r != 0 { SmallFits(info.bin, sz, copySize); }
      } else {
        assert info.LRun? && p % PAGE == 0;   // ZEND_MM_CHECK
        r, overrun, mid := ReallocLargeBlock(h, p, c, page, info.pages, sz, copySize);
      }
      WantedSame(s, s.live[p], size, copySize);
      WantedPlace(s, p, size);
      WantedGrown(old(Moment(h.s, h.realSize, h.refusals)), mid, size, h.limit, h.overflow);
      WantedFails(h, size, old(h.refusals));
      if r != 0 && !overrun {
        MovedShorter(s, h.s, p, r, Kept(Usable(s.live[p]), sz, copySize), Kept(Usable(s.live[p]), size, copySize));
      }
    }
  }

  lemma MovedLive(s: State, t: State, p: int, r: int, n: nat)
    requires Moved(s, t, p, r, n)
    ensures r in t.live
  {
    hide UserKept, User, SamePrefix;
  }

  lemma SmallFits(b: nat, size: int, copySize: nat)
    requires b < BINS && 0 <= size && size <= Usable(BlockFor(size))
    ensures CopyFits(Small(b), size, copySize)
  {
    hide BinSize, BlockFor;
    SmallestBlock(size);
  }

  lemma SmallestBlock(size: int)
    requires 0 <= size && size <= Usable(BlockFor(size))
    ensures Wanted(size) <= Usable(BlockFor(size))
  {
    hide BinSize, RoundUp, BIN_SIZE;
    if size < MIN_USABLE { ClassOfSmall(size); }
  }

  /** Raising a tiny size to the smallest element changes neither the block nor the condition. */
  lemma WantedSame(s: State, k: Block, size: int, copySize: nat)
    requires 0 <= size && !k.Huge?
    ensures BlockFor(Wanted(size)) == BlockFor(size)
    ensures CopyFits(k, Wanted(size), copySize) <==> CopyFits(k, size, copySize)
    ensures Exhausted(s, Wanted(size)) <==> Exhausted(s, size)
  {
    hide BinSize, RoundUp, BIN_SIZE, ClassEmpty, MustAsk;
    if size < MIN_USABLE { ClassOfSmall(size); }
  }

  lemma WantedGrown(a: Moment, b: Moment, size: int, limit: int, overflow: bool)
    requires 0 <= size
    ensures Grown(a, b, Wanted(size), limit, overflow) <==> Grown(a, b, size, limit, overflow)
  {
    hide RoundUp, ClassEmpty, MustAsk, Room;
    if size < MIN_USABLE { ClassOfSmall(size); }
  }

  lemma WantedPlace(s: State, p: int, size: int)
    requires 0 <= size && p in s.live && !s.live[p].Huge?
    ensures InPlace(s, p, Wanted(size)) <==> InPlace(s, p, size)
    ensures s.live[p].Small? ==> (InPlace(s, p, size) <==> StaysPut(s.live[p], size))
    ensures Extra(s.live[p], Wanted(size)) == Extra(s.live[p], size)
    ensures Became(s.live[p], Wanted(size)) == Became(s.live[p], size)
    ensures !s.live[p].Small? ==> Extra(s.live[p], size) == 0
  {
    hide BinSize, BIN_SIZE, FreeBehind, RoundUp;
    if size < MIN_USABLE { ClassOfSmall(size); }
  }

  /** A large run that grows is not huge, nor does a huge block grow where it is. */
  lemma HugePlace(s: State, p: int, size: int)
    requires 0 <= size && p in s.live && s.live[p].Huge?
    ensures InPlace(s, p, size) <==> StaysPut(s.live[p], size)
    ensures Extra(s.live[p], size) == 0
  {}

  lemma WantedFails(h: Heap, size: int, before: nat)
    ensures OutOfMemory(h, Wanted(size), before) <==> OutOfMemory(h, size, before)
  {
    hide Starved, OverLimit, RoundUp;
  }
}
