/** Allocation of pages: the walk over the ring of active chunks, and how a new chunk is
    obtained when no chunk has room. */
module PageAllocs {
  import opened Sizes
  import opened Pages
  import opened Memory
  import opened Blocks
  import opened Live
  import opened FreeLists
  import opened Chunks
  import opened Rings
  import opened HeapModel
  import opened HeapState
  import opened HeaderTable
  import opened GcSpec
  import opened Counting
  import opened GcResult
  import opened Heaps
  import opened Collectors

  /** The ring's chunks before `k` have no room for `n` pages. */
  ghost predicate NoRoomBefore(s: State, n: int, k: int) {
    forall i :: 0 <= i < k && i < |s.ring| ==> s.ring[i] in s.pg && NoRoom(s.pg[s.ring[i]].own, n)
  }

  /** Page `page` of the first chunk with room begins its lowest-addressed shortest hole that fits. */
  ghost predicate Placed(s: State, n: int, k: int, page: int) {
    && 0 <= k < |s.ring| && NoRoomBefore(s, n, k) && s.ring[k] in s.pg
    && exists e :: BestFit(s.pg[s.ring[k]].own, n, page, e)
  }

  lemma TailsOwn(s: State, t: State, n: int, k: int)
    requires t == s.(pg := t.pg) && SameButTails(s.pg, t.pg)
    ensures NoRoomBefore(t, n, k) <==> NoRoomBefore(s, n, k)
    ensures forall page :: Placed(t, n, k, page) <==> Placed(s, n, k, page)
  {
    hide NoRoom, BestFit, SameButTails;
    forall c ensures (c in s.pg <==> c in t.pg) && (c in s.pg ==> t.pg[c].own == s.pg[c].own) { TailAt(s.pg, t.pg, c); }
  }

  lemma TailsRefl(pg: map<int, Pages>)
    ensures SameButTails(pg, pg)
  {}

  lemma TailsStep(pg0: map<int, Pages>, pg: map<int, Pages>, c: int, t: int)
    requires SameButTails(pg0, pg) && c in pg
    ensures SameButTails(pg0, pg[c := pg[c].(freeTail := t)]) && SameButTails(pg, pg[c := pg[c].(freeTail := t)])
  {
    assert c in pg0.Keys;
  }

  lemma TailStepSound(s: State, c: int, t: int)
    requires Sound(s) && c in s.ring && c in s.pg && PagesOK(s.pg[c].(freeTail := t))
    ensures Sound(s.(pg := s.pg[c := s.pg[c].(freeTail := t)]))
  {
    hide LiveInv, Lists, HugeLive, NodesOK, RegionsOK, LinksOK, PagesOK, SameButTails;
    TailsRefl(s.pg);
    TailsStep(s.pg, s.pg, c, t);
    var pg2 := s.pg[c := s.pg[c].(freeTail := t)];
    forall i | 0 <= i < |s.ring| && s.ring[i] in pg2 ensures PagesOK(pg2[s.ring[i]]) {
      InRing(s.pg, s.ring, s.cached, s.ring[i]);
    }
    TailsSound(s, pg2);
  }

  /** The active chunk at position `k` of the ring. */
  lemma AtRing(s: State, k: nat)
    requires Sound(s) && k < |s.ring|
    ensures s.ring[k] in s.ring && s.ring[k] in s.pg && PagesOK(s.pg[s.ring[k]]) && s.ring[k] in s.ln
    ensures s.ln[s.ring[k]].next == After(s.ring, k)
    ensures ChunkBase(s.ring[k]) && |s.pg[s.ring[k]].own| == |s.pg[s.ring[k]].info| == PAGES
    ensures k > 0 ==> s.ring[k] != s.ring[0]
  {
    hide LiveInv, Lists, HugeLive, NodesOK, RegionsOK, PagesOK, HomeOK, CachedOK, ChunkBase, ChunksOK;
    InRing(s.pg, s.ring, s.cached, s.ring[k]);
    assert Linked(s.ln, s.ring, k);
  }

  /** Search one chunk. */
  method SearchChunk(h: Heap, c: int, n: nat, ghost k: nat) returns (page: int)
    requires h.Ready() && 1 <= n < PAGES && k < |h.s.ring| && c == h.s.ring[k]
    modifies h`s, h.hm.objs, h.hm`pg
    ensures h.Ready() && h.hm.objs == old(h.hm.objs)
    ensures c in old(h.s).pg && c in h.s.pg && h.s == old(h.s).(pg := old(h.s).pg[c := old(h.s).pg[c].(freeTail := h.s.pg[c].freeTail)])
    ensures 0 <= page
    ensures page == 0 ==> NoRoom(h.s.pg[c].own, n)
    ensures page != 0 ==> page <= h.s.pg[c].freeTail && exists e :: BestFit(h.s.pg[c].own, n, page, e)
  {
    hide Sound, Headers.Valid, Clear, PagesOK, NoRoom, BestFit, Heap.Heads, Heap.Account, Settled;
    ghost var s := h.s;
    AtRing(s, k);
    page := h.hm.FindPages(c, n);
    ghost var t := h.hm.pg[c].freeTail;
    TailStepSound(s, c, t);
    TailsRefl(s.pg);
    TailsStep(s.pg, s.pg, c, t);
    TailsSettled(s, s.pg[c := s.pg[c].(freeTail := t)]);
    h.s := s.(pg := s.pg[c := s.pg[c].(freeTail := t)]);
  }

  /** The search over the ring, from the main chunk on. `steps` chunks are passed over. */
  method FindInRing(h: Heap, n: nat) returns (c: int, page: int, steps: nat)
    requires h.Ready() && 1 <= n < PAGES
    modifies h`s, h.hm.objs, h.hm`pg
    ensures h.Ready() && h.hm.objs == old(h.hm.objs)
    ensures h.s == old(h.s).(pg := h.s.pg) && SameButTails(old(h.s).pg, h.s.pg) && 0 <= page
    ensures page == 0 ==> NoRoomBefore(old(h.s), n, |h.s.ring|) && steps == |h.s.ring| - 1
    ensures page != 0 ==> Placed(old(h.s), n, steps, page) && steps < |h.s.ring| && c == h.s.ring[steps]
    ensures page != 0 ==> Placed(h.s, n, steps, page) && c in h.s.pg && page <= h.s.pg[c].freeTail
  {
    hide Sound, Headers.Valid, Clear, PagesOK, NoRoom, BestFit, Heap.Heads, Heap.Account, Heap.Tables, Settled, SameButTails, NoRoomBefore;
    ghost var s := h.s;
    HeapFacts(h);
    TailsRefl(s.pg);
    NoRoomNone(s, n);
    c, steps := h.mainChunk, 0;
    while true
      invariant h.Ready() && h.hm.objs == old(h.hm.objs)
      invariant h.s == s.(pg := h.s.pg) && SameButTails(s.pg, h.s.pg)
      invariant steps < |s.ring| && c == s.ring[steps] && h.mainChunk == s.ring[0] && NoRoomBefore(s, n, steps)
      decreases |s.ring| - steps
    {
      SlotFacts(h, 0);
      ghost var t := h.s;
      page := SearchChunk(h, c, n, steps);
      TailsStep(s.pg, t.pg, c, h.s.pg[c].freeTail);
      TailsOwn(s, h.s, n, steps);
      AtRing(h.s, steps);
      if page != 0 { return; }
      RoomNext(s, h.s, n, steps);
      AtRing(s, (if steps + 1 < |s.ring| then steps + 1 else 0));
      var next := NextChunk(h, c);
      if next == h.mainChunk { return; }
      c, steps := next, steps + 1;
    }
  }

  /** chunk->next */
  method NextChunk(h: Heap, c: int) returns (next: int)
    requires h.Tables() && c in h.s.ln
    ensures next == h.s.ln[c].next
  {
    hide Headers.Valid, Clear;
    next := h.hm.Get(c).next;
  }

  lemma NoRoomNone(s: State, n: int)
    ensures NoRoomBefore(s, n, 0)
  {}

  lemma RoomNext(s: State, t: State, n: int, k: nat)
    requires NoRoomBefore(s, n, k) && k < |s.ring| && t == s.(pg := t.pg) && SameButTails(s.pg, t.pg)
    requires s.ring[k] in t.pg && NoRoom(t.pg[s.ring[k]].own, n)
    ensures NoRoomBefore(s, n, k + 1)
  {
    hide NoRoom, SameButTails;
    TailAt(s.pg, t.pg, s.ring[k]);
  }

  // ----- a further chunk -----

  /** Huge blocks, key and the bytes of live blocks are the same; free lists at most lose entries. */
  ghost predicate Housekept(s: State, t: State)
    ensures Housekept(s, t) ==> t.huge == s.huge && t.key == s.key && SameLive(s.mem, t.mem, s.live, 0)
  {
    && t.huge == s.huge && t.key == s.key && SameLive(s.mem, t.mem, s.live, 0)
    && |t.slots| == |s.slots|
    && (forall b, x :: 0 <= b < |s.slots| && x in t.slots[b] ==> x in s.slots[b])
  }

  lemma HousekeptChain(s: State, t: State, u: State)
    requires Housekept(s, t) && Housekept(t, u) && t.live == s.live
    ensures Housekept(s, u)
  {
    hide SameLive;
    SameLiveChain(s.mem, t.mem, u.mem, s.live);
  }

  lemma HousekeptSame(s: State, t: State)
    requires t.huge == s.huge && t.key == s.key && t.slots == s.slots && t.mem == s.mem
    ensures Housekept(s, t)
  {}

  lemma HousekeptGc(s: State, t: State)
    requires Collected(s, t)
    ensures Housekept(s, t)
  {
    hide SameLive, NoIdle, AfterGc, KeptRing, Idle, BlockAt, WithoutIdle;
    forall b | 0 <= b < BINS ensures forall x :: x in t.slots[b] ==> x in s.slots[b] {
      WithoutIdleMembers(s.pg, s.slots, s.slots[b]);
    }
  }

  /** A fresh zeroed chunk from the operating system, on no list yet; 0 when there is none. */
  method OsChunk(h: Heap) returns (c: int)
    requires h.Tables() && h.Fields() && Sound(h.s)
    modifies h`s, h`mem, h`refusals, h.hm
    ensures h.refusals == old(h.refusals) + if c == 0 then 1 else 0
    ensures h.Fields() && Sound(h.s) && fresh(h.hm.objs - old(h.hm.objs))
    ensures c == 0 ==> h.s == old(h.s) && h.Tables()
    ensures c != 0 ==> h.TablesBut({c}) && Spare(h.s, c) && c in h.hm.pg && Blank(h.hm.pg[c].own) && |h.hm.pg[c].info| == PAGES
    ensures h.s == old(h.s).(mem := h.s.mem) && SameLive(old(h.s).mem, h.s.mem, h.s.live, 0)
  {
    hide Sound, Headers.Valid, Clear, Heap.Heads, AddRegion, SameLive, Blank, Beside, Spare, Span;
    ghost var s := h.s;
    SameLiveRefl(s.mem, s.live);
    c := h.OsAlloc(CHUNK);
    if c != 0 {
      MapSound(s, c, CHUNK);
      FreshSpare(s, c);
      h.hm.Add(c);
      BesideAdd(h.hm.pg, s.pg, c);
      BesideAdd(h.hm.ln, s.ln, c);
      h.s := s.(mem := h.mem);
    }
  }

  lemma SameLiveRefl(m: Mem, live: map<int, Block>)
    ensures SameLive(m, m, live, 0)
  {}

  lemma BesideAdd<T>(h: map<int, T>, s: map<int, T>, c: int)
    requires c in h && c !in s && h == s[c := h[c]]
    ensures Beside(h, s, {c})
  {
    assert h - {c} == s;
  }

  lemma FreshSpare(s: State, c: int)
    requires Sound(s) && c % CHUNK == 0 && 0 < c && c + CHUNK <= ADDRESS_LIMIT
    requires forall x :: c <= x < c + CHUNK ==> x !in s.mem
    ensures Spare(s.(mem := AddRegion(s.mem, c, CHUNK)), c) && c !in s.pg && c !in s.ln
  {
    hide LiveInv, Lists, HugeLive, NodesOK, ChunksOK, RingOK, HomeOK, CachedOK;
    NotMapped(s.mem, c);
    assert c in s.pg ==> Mapped(s.mem, c, CHUNK);
    assert c in s.ln <==> c in s.ln.Keys;
    forall i | 0 <= i < |s.huge| ensures Apart(s.huge[i].ptr, s.huge[i].size, c, CHUNK) {
      assert HugeRegion(s.mem, s.huge[i]);
      HugeClear(s.mem, s.huge[i], c);
    }
  }

  lemma NotMapped(m: Mem, c: int)
    requires c !in m
    ensures !Mapped(m, c, CHUNK)
  {}

  /** A mapped huge block and an unmapped range at a chunk boundary do not meet. */
  lemma HugeClear(m: Mem, r: HugeRec, c: int)
    requires HugeRegion(m, r) && c % CHUNK == 0 && forall x :: c <= x < c + CHUNK ==> x !in m
    ensures Apart(r.ptr, r.size, c, CHUNK)
  {
    if !Apart(r.ptr, r.size, c, CHUNK) {
      var x := if r.ptr <= c then c else r.ptr;
      assert x in m;
    }
  }

  /** What is known when a chunk has been obtained and accounted for, but is on no list yet. */
  ghost predicate Holding(h: Heap, c: int)
    reads h, h.freeSlot, h.hm, h.hm.objs
  {
    && h.TablesBut({c}) && h.Fields() && Sound(h.s) && Settled(h.s) && Spare(h.s, c)
    && c in h.hm.pg && Blank(h.hm.pg[c].own) && |h.hm.pg[c].info| == PAGES
    && h.Account(|h.s.ring|, |h.s.cached|, 1, h.HugeBytes())
  }

  /** The first cached chunk is taken. */
  method TakeCached(h: Heap) returns (c: int)
    requires h.Ready() && h.s.cached != []
    modifies h`s, h`cachedChunks, h`cachedChunksCount
    ensures Holding(h, c) && c != 0 && c == old(h.s).cached[0] && h.s.cached == old(h.s).cached[1..]
    ensures h.s.live == old(h.s).live && Housekept(old(h.s), h.s) && h.s.ring == old(h.s).ring
    ensures forall d :: d in h.s.ring ==> d in h.s.pg && d in old(h.s).pg && h.s.pg[d] == old(h.s).pg[d]
  {
    hide Sound, Headers.Valid, Clear, Heap.Heads, SameActive, Blank, Beside, Spare, Quiet, NonEmpty, SumHuge, Housekept, DropCached;
    ghost var s := h.s;
    h.cachedChunksCount := h.cachedChunksCount - 1;
    assert h.TablesBut({}) by { BesideSelf(h.hm.pg); BesideSelf(h.hm.ln); }
    assert {} + {s.cached[0]} == {s.cached[0]};
    SameDrop(s) by { DropCachedSound(s); }
    c := h.PopCached({});
    SpareAddress(h.s, c);
    CachedTaken(s);
  }

  lemma BesideSelf<T>(h: map<int, T>)
    ensures Beside(h, h, {})
  {
    assert h - {} == h;
  }

  lemma CachedTaken(s: State)
    requires s.cached != [] && SameActive(s, DropCached(s)) && Settled(s)
    ensures Settled(DropCached(s)) && Housekept(s, DropCached(s))
    ensures DropCached(s).ring == s.ring && DropCached(s).cached == s.cached[1..]
    ensures forall d :: d in s.ring ==> d in s.pg && d in DropCached(s).pg && DropCached(s).pg[d] == s.pg[d]
  {
    hide Quiet, SameLive;
    HousekeptSame(s, DropCached(s));
  }

  /** limit - real_size as the unsigned machine word it is. */
  function Room(limit: int, realSize: int): int {
    (limit - realSize) % 0x1_0000_0000_0000_0000
  }

  /** A second collection finds nothing. */
  lemma GcAgain(s: State, t: State, r: int)
    requires Collected(s, t) && r == PAGE * GcPages(s.pg, s.slots, s.ring)
    ensures NoIdle(s.pg, s.slots) ==> r == 0
    ensures NoIdle(t.pg, t.slots)
  {
    hide NoIdle, GcPages, Collected;
    if NoIdle(s.pg, s.slots) { NothingToCollect(s.pg, s.slots, s.ring); }
  }

  /** A chunk from the operating system, after a collection if there is none at first.
      `c == 0` means that the system has refused, and again after a collection unless that
      released nothing. */
  method MapChunk(h: Heap) returns (c: int)
    requires h.Ready()
    modifies h`s, h`mem, h`refusals, h`realSize, h`realPeak, h`chunksCount, h`cachedChunks, h`cachedChunksCount,
      h`lastDeleteBoundary, h`lastDeleteCount, h.hm, h.hm.objs, h.freeSlot
    ensures fresh(h.hm.objs - old(h.hm.objs)) && h.s.live == old(h.s).live && Housekept(old(h.s), h.s)
    ensures c == 0 ==> h.Ready() && h.realSize <= old(h.realSize)
    ensures c == 0 ==> h.refusals == old(h.refusals) + if GcPages(old(h.s).pg, old(h.s).slots, old(h.s).ring) == 0 then 1 else 2
    ensures c != 0 ==> Holding(h, c) && h.realSize <= old(h.realSize) + CHUNK && old(h.refusals) <= h.refusals <= old(h.refusals) + 1
    ensures h.refusals == old(h.refusals) ==> c != 0 && h.realSize == old(h.realSize) + CHUNK
    ensures h.realPeak == Larger(old(h.realPeak), h.realSize)
  {
    hide Sound, Headers.Valid, Clear, Heap.Heads, Heap.Account, Blank, Beside, Spare, Quiet, NonEmpty, SumHuge, Housekept, GcPages, SameLive, Collected;
    ghost var s := h.s;
    c := OsChunk(h);
    HousekeptMem(s, h.s);
    if c == 0 {
      var r := Gc(h);
      HousekeptGc(s, h.s);
      if r != 0 {
        ghost var t := h.s;
        c := OsChunk(h);
        HousekeptMem(t, h.s);
        HousekeptChain(s, t, h.s);
      }
    }
    if c != 0 {
      SpareAddress(h.s, c);
      h.AddChunk(|h.s.ring|, |h.s.cached|, h.HugeBytes());
    } else {
      PeakFacts(h);
    }
  }

  /** The peaks are at least what is in use. */
  lemma PeakFacts(h: Heap)
    requires h.Money()
    ensures h.realSize <= h.realPeak && |h.s.ring| <= h.peakChunksCount
  {}

  lemma HoldingPeak(h: Heap, c: int)
    requires Holding(h, c)
    ensures h.realSize <= h.realPeak && |h.s.ring| <= h.peakChunksCount
  {}

  /** The limit stands in the way of a further chunk: none is cached, nothing is left to
      collect. */
  ghost predicate LimitHit(h: Heap)
    reads h`s, h`limit, h`overflow, h`realSize
  {
    !h.overflow && h.s.cached == [] && NoIdle(h.s.pg, h.s.slots) && CHUNK > Room(h.limit, h.realSize)
  }

  /** Why no chunk was obtained: the operating system has refused since there were `before`
      refusals, or the limit stands in the way. */
  ghost predicate Starved(h: Heap, before: nat)
    reads h`s, h`limit, h`overflow, h`realSize, h`refusals
  {
    before < h.refusals || LimitHit(h)
  }

  lemma HousekeptMem(s: State, t: State)
    requires t == s.(mem := t.mem) && SameLive(s.mem, t.mem, s.live, 0)
    ensures Housekept(s, t)
  {}

  /** The get_chunk part: a cached chunk, or a new one if the limit allows it. The retry
      after a collection happens at most once. There is no chunk only if none was cached and
      the limit or the operating system forbids a new one. */
  method ObtainChunk(h: Heap) returns (c: int)
    requires h.Ready()
    modifies h`s, h`mem, h`refusals, h`realSize, h`realPeak, h`chunksCount, h`cachedChunks, h`cachedChunksCount,
      h`lastDeleteBoundary, h`lastDeleteCount, h.hm, h.hm.objs, h.freeSlot
    ensures fresh(h.hm.objs - old(h.hm.objs)) && h.s.live == old(h.s).live && Housekept(old(h.s), h.s)
    ensures c == 0 ==> h.Ready()
    ensures c != 0 ==> Holding(h, c)
    ensures !h.overflow && old(h.realSize) <= h.limit ==> h.realSize <= h.limit
    ensures h.realSize <= old(h.realSize) + CHUNK && old(h.refusals) <= h.refusals
    ensures c == 0 ==> old(h.s).cached == [] && Starved(h, old(h.refusals)) && h.realSize <= old(h.realSize)
    ensures old(h.s).cached != [] ==> h.realSize == old(h.realSize) && h.refusals == old(h.refusals)
    ensures old(h.s).cached != [] ==> c == old(h.s).cached[0] && h.s.cached == old(h.s).cached[1..]
    ensures old(h.s).cached == [] && CHUNK <= Room(h.limit, old(h.realSize)) && h.refusals == old(h.refusals) ==>
      c != 0 && h.realSize == old(h.realSize) + CHUNK
    ensures h.realPeak == Larger(old(h.realPeak), h.realSize)
  {
    hide Sound, Headers.Valid, Clear, Heap.Heads, Heap.Account, Settled, SumHuge, Housekept, GcPages, SameLive, Collected, Holding, NoIdle,
      Room, Heap.Tables;
    ghost var s := h.s;
    HousekeptSame(s, s);
    SlotFacts(h, 0);
    while true
      invariant h.Ready() && h.hm.objs == old(h.hm.objs) && h.s.live == s.live && Housekept(s, h.s)
      invariant h.realSize <= old(h.realSize) && h.limit == old(h.limit) && h.overflow == old(h.overflow)
      invariant h.refusals == old(h.refusals) && h.realPeak == old(h.realPeak)
      invariant (h.s == s && h.realSize == old(h.realSize)) || (s.cached == [] && CHUNK > Room(h.limit, old(h.realSize)))
      decreases if NoIdle(h.s.pg, h.s.slots) then 0 else 1
    {
      ghost var t := h.s;
      HeadsFacts(h);
      if h.cachedChunks != 0 {
        c := TakeCached(h);
        HoldingPeak(h, c);
        HousekeptChain(s, t, h.s);
        return;
      }
      AccountSign(h);
      RoomIs(h.limit, h.realSize);
      if CHUNK > Room(h.limit, h.realSize) {
        var r := Gc(h);
        GcAgain(t, h.s, r);
        HousekeptGc(t, h.s);
        HousekeptChain(s, t, h.s);
        if r != 0 {
          SlotFacts(h, 0);
          continue;
        } else if !h.overflow {
          HeadsFacts(h);
          PeakFacts(h);
          return 0;
        }
        t := h.s;
      }
      c := MapChunk(h);
      HousekeptChain(s, t, h.s);
      return;
    }
  }

  lemma HeadsFacts(h: Heap)
    requires h.Fields() && Sound(h.s)
    ensures h.cachedChunks != 0 <==> h.s.cached != []
  {
    hide Sound;
    FirstCached(h.s);
  }

  lemma AccountSign(h: Heap)
    requires h.Money()
    ensures 0 <= h.realSize
  {}

  /** Above the limit the subtraction wraps around: what is left is then almost the whole
      address space. */
  lemma RoomWraps(limit: Size, realSize: int)
    requires limit < realSize < 0x1_0000_0000_0000_0000
    ensures Room(limit, realSize) == 0x1_0000_0000_0000_0000 - (realSize - limit)
  {}

  lemma RoomIs(limit: Size, realSize: int)
    requires 0 <= realSize
    ensures realSize <= limit ==> Room(limit, realSize) == limit - realSize
  {}

  // ----- zend_mm_chunk_init -----

  function NewLinks(l: Links, home: int, num: int): Links {
    l.(heap := home, num := num)
  }

  /** Link chunk `c` before the main chunk, at the end of the ring. */
  method LinkLast(h: Heap, c: int, ghost last: int)
    requires h.hm.Valid() && h !in h.hm.objs && c in h.hm.ln && h.mainChunk in h.hm.ln && last in h.hm.ln
    requires last == h.hm.ln[h.mainChunk].prev && c != h.mainChunk && c != last
    modifies h.hm.objs, h.hm`ln
    ensures h.hm.Valid() && h.hm.objs == old(h.hm.objs)
    ensures h.hm.ln == Insert(old(h.hm.ln)[c := NewLinks(old(h.hm.ln)[c], h.mainChunk + HEAP_OFFSET, old(h.hm.ln)[last].num + 1)], c, last, h.mainChunk)
  {
    hide Headers.Valid, Clear, Insert;
    ghost var l0 := h.hm.ln;
    var num := h.hm.Get(h.hm.Get(h.mainChunk).prev).num + 1;
    h.hm.SetHome(c, h.mainChunk + HEAP_OFFSET);
    h.hm.SetNum(c, num);
    ghost var l := NewLinks(l0[c], h.mainChunk + HEAP_OFFSET, num);
    UpdateTwice(l0, c, l0[c].(heap := h.mainChunk + HEAP_OFFSET), l);
    ghost var l1 := h.hm.ln;
    assert l1 == l0[c := l];
    h.hm.SetNext(c, h.mainChunk);
    h.hm.SetPrev(c, h.hm.Get(h.mainChunk).prev);
    h.hm.SetNext(h.hm.Get(c).prev, c);
    h.hm.SetPrev(h.hm.Get(c).next, c);
    InsertIs(l1, c, last, h.mainChunk);
  }

  lemma InsertIs(ln: map<int, Links>, c: int, a: int, b: int)
    ensures Insert(ln, c, a, b) == SetLinkPrev(SetLinkNext(SetLinkPrev(SetLinkNext(ln, c, b), c, a), a, c), b, c)
  {}

  /** A chunk that has just joined the ring: all pages but the first are free. */
  ghost predicate Unused1(p: Pages) {
    PagesOK(p) && |p.own| == |p.info| == PAGES && AllFree(p.own, 1, PAGES) && p.freeTail == 1 && 0 <= p.own[0]
  }

  lemma FirstRunUnused(p: Pages)
    requires Blank(p.own) && |p.info| == PAGES
    ensures Unused1(FirstRun(p)) && NoBlocksIn(FirstRun(p)) && PagesOK(FirstRun(p))
  {
    hide PagesOK, NoBlocksIn;
    FirstRunEmpty(p);
  }

  function LastOf(s: State): int
    requires |s.ring| > 0
  {
    s.ring[|s.ring| - 1]
  }

  lemma InsertNum(ln: map<int, Links>, c: int, a: int, b: int)
    requires c in ln && a in ln && b in ln
    ensures c in Insert(ln, c, a, b) && Insert(ln, c, a, b)[c].num == ln[c].num
  {}

  /** Chunk `c` joins the ring behind the last chunk and gets the number after that one's. */
  method AttachChunk(h: Heap, c: int)
    requires Holding(h, c)
    modifies h`s, h`chunksCount, h`peakChunksCount, h.hm.objs, h.hm`ln, h.hm`pg
    ensures h.Steady() && h.hm.objs == old(h.hm.objs) && Quiet(h.s.pg) && h.s.ring == old(h.s).ring + [c]
    ensures h.s.live == old(h.s).live && h.s.slots == old(h.s).slots && h.s.huge == old(h.s).huge && h.s.cached == old(h.s).cached
    ensures h.s.key == old(h.s).key && h.s.mem == old(h.s).mem
    ensures c in h.s.pg && Unused1(h.s.pg[c])
    ensures c !in old(h.s).ring && NonEmpty(h.s.pg, old(h.s).ring) && h.s.pg == old(h.s).pg[c := h.s.pg[c]]
    ensures h.peakChunksCount == Larger(old(h.peakChunksCount), |h.s.ring|)
    ensures |old(h.s).ring| > 0 && LastOf(old(h.s)) in old(h.s).ln && c in h.s.ln && h.s.ln[c].num == old(h.s).ln[LastOf(old(h.s))].num + 1
  {
    hide Sound, Headers.Valid, Clear, Heap.Heads, Heap.Account, Quiet, NonEmpty, SumHuge, Spare, Blank, Beside, Unused1, NoBlocksIn, PagesOK,
      FirstRun, Insert, Attach;
    ghost var s, p := h.s, h.hm.pg[c];
    HeapFacts(h);
    SpareAddress(s, c);
    LastLink(s);
    SpareLast(s, c);
    FirstRunUnused(p);
    ghost var r := FirstRun(p);
    ghost var l := JoinHeaders(h, c, s.ring[|s.ring| - 1]);
    AttachSound(s, c, r, l);
    AttachIs(s, c, r, l);
    InsertNum(s.ln[c := l], c, LastOf(s), s.ring[0]);
    HeadsAttach(h, s, c);
    h.s := Attach(s, c, r, l);
    CountChunk(h, |s.ring|, |s.cached|, h.HugeBytes());
  }

  /** The header part: links and first page of chunk `c`. */
  method JoinHeaders(h: Heap, c: int, ghost last: int) returns (ghost l: Links)
    requires h.TablesBut({c}) && c in h.hm.pg && Blank(h.hm.pg[c].own) && |h.hm.pg[c].info| == PAGES
    requires h.mainChunk in h.s.ln && last in h.s.ln && c != h.mainChunk && c != last && h.s.ln[h.mainChunk].prev == last
    modifies h.hm.objs, h.hm`ln, h.hm`pg
    ensures h.hm.Valid() && h.hm.objs == old(h.hm.objs)
    ensures h.hm.pg == h.s.pg[c := FirstRun(old(h.hm.pg)[c])]
    ensures h.hm.ln == Insert(h.s.ln[c := l], c, last, h.mainChunk) && l.heap == h.mainChunk + HEAP_OFFSET
    ensures l.num == h.s.ln[last].num + 1
  {
    hide Headers.Valid, Blank, Beside, FirstRun, Insert, PagesOK;
    ghost var s := h.s;
    BesideAt(h.hm.ln, s.ln, {c}, c);
    BesideAt(h.hm.ln, s.ln, {c}, last);
    BesideAt(h.hm.ln, s.ln, {c}, h.mainChunk);
    l := NewLinks(h.hm.ln[c], h.mainChunk + HEAP_OFFSET, s.ln[last].num + 1);
    BesidePut(h.hm.ln, s.ln, c, l);
    BesidePut(h.hm.pg, s.pg, c, FirstRun(h.hm.pg[c]));
    LinkLast(h, c, last);
    h.hm.InitPages(c);
  }

  lemma HeadsAttach(h: Heap, s: State, c: int)
    requires h.Heads(s.slots, s.ring, s.cached, s.huge)
    ensures h.Heads(s.slots, s.ring + [c], s.cached, s.huge)
  {}

  method CountChunk(h: Heap, ghost active: int, ghost kept: int, ghost hugeSize: int)
    requires h.Account(active, kept, 1, hugeSize)
    modifies h`chunksCount, h`peakChunksCount
    ensures h.Account(active + 1, kept, 0, hugeSize)
    ensures h.peakChunksCount == Larger(old(h.peakChunksCount), active + 1)
  {
    h.chunksCount := h.chunksCount + 1;
    if h.chunksCount > h.peakChunksCount {
      h.peakChunksCount := h.chunksCount;
    }
  }

  lemma LastLink(s: State)
    requires Sound(s)
    ensures |s.ring| > 0 && s.ring[0] in s.ln && s.ring[|s.ring| - 1] in s.ln && s.ln[s.ring[0]].prev == s.ring[|s.ring| - 1]
  {
    hide LiveInv, Lists, HugeLive, NodesOK, RegionsOK, ChunksOK, HomeOK, CachedOK;
    assert Linked(s.ln, s.ring, 0) && Linked(s.ln, s.ring, |s.ring| - 1);
  }

  lemma SpareLast(s: State, c: int)
    requires Sound(s) && Spare(s, c)
    ensures c !in s.ring && |s.ring| > 0 && c != s.ring[0] && c != s.ring[|s.ring| - 1]
  {
    hide Sound, Spare;
    SpareOutside(s, c);
    LastLink(s);
  }

  lemma AttachIs(s: State, c: int, r: Pages, l: Links)
    requires Sound(s) && Settled(s) && c !in s.ring && c !in s.pg && |s.ring| > 0
    ensures var t := Attach(s, c, r, l);
      && t.pg == s.pg[c := r] && t.ln == Insert(s.ln[c := l], c, s.ring[|s.ring| - 1], s.ring[0]) && t.ring == s.ring + [c]
      && t == s.(pg := t.pg, ln := t.ln, ring := t.ring) && NonEmpty(t.pg, s.ring)
  {
    hide Sound, Quiet, Insert, EmptyChunk;
  }

  // ----- the found part -----

  /** No chunk but the main one, and possibly `c`, is completely free. */
  ghost predicate NonEmptyBut(pg: map<int, Pages>, ring: seq<int>, c: int) {
    forall i :: 1 <= i < |ring| && ring[i] != c && ring[i] in pg ==> !EmptyChunk(pg[ring[i]])
  }

  lemma NonEmptyFront(s: State, k: nat, c: int)
    requires Sound(s) && 1 <= k < |s.ring| && NonEmptyBut(s.pg, s.ring, c)
    ensures NonEmptyBut(s.pg, ToFront(s.ring, k), c)
  {
    hide LiveInv, Lists, HugeLive, NodesOK, RegionsOK, ChunksOK, HomeOK, CachedOK, EmptyChunk, Linked;
    var q, w := ToFront(s.ring, k), WithoutAt(s.ring, k);
    forall i | 1 <= i < |q| && q[i] != c && q[i] in s.pg ensures !EmptyChunk(s.pg[q[i]]) {
      if i >= 2 { assert q[i] == w[1..][i - 2] == w[i - 1]; }
      assert q[i] == s.ring[if i == 1 then k else if i <= k then i - 1 else i];
    }
  }

  /** Chunk `c` moves behind the main chunk. */
  method MoveToFront(h: Heap, c: int, ghost k: nat)
    requires h.Steady() && 1 <= k < |h.s.ring| && c == h.s.ring[k]
    modifies h`s, h.hm.objs, h.hm`ln
    ensures h.Steady() && h.hm.objs == old(h.hm.objs)
    ensures h.s == old(h.s).(ln := h.s.ln, ring := ToFront(old(h.s).ring, k))
  {
    hide Sound, Headers.Valid, Clear, Heap.Heads, Heap.Account, SumHuge, Insert, Unlink, ToFront;
    ghost var s, m := h.s, h.mainChunk;
    HeapFacts(h);
    MoveSound(s, k);
    MoveChecks(h, c);
    NoSelfLink(s, k);
    RelinkFront(h, c);
    FrontFirst(s.ring, k);
    HeadsRing(h, s, ToFront(s.ring, k));
    h.s := s.(ln := h.hm.ln, ring := ToFront(s.ring, k));
  }

  lemma NoSelfLink(s: State, k: nat)
    requires Sound(s) && 1 <= k < |s.ring|
    ensures s.ring[k] in s.ln && s.ln[s.ring[k]].next != s.ring[k] && s.ln[s.ring[k]].prev != s.ring[k] && s.ring[k] != s.ring[0]
  {
    hide LiveInv, Lists, HugeLive, NodesOK, RegionsOK, ChunksOK, HomeOK, CachedOK;
    assert Linked(s.ln, s.ring, k);
  }

  method MoveChecks(h: Heap, c: int)
    requires h.Tables() && c in h.s.ln && h.s.ln[c].next in h.s.ln && h.s.ln[c].prev in h.s.ln
    requires h.s.ln[h.s.ln[c].next].prev == c && h.s.ln[h.s.ln[c].prev].next == c
  {
    hide Headers.Valid, Clear;
    assert h.hm.Get(h.hm.Get(c).next).prev == c && h.hm.Get(h.hm.Get(c).prev).next == c;   // ZEND_MM_CHECK
  }

  /** The six link writes. */
  method RelinkFront(h: Heap, c: int)
    requires h.hm.Valid() && h !in h.hm.objs && c in h.hm.ln && h.mainChunk in h.hm.ln && c != h.mainChunk
    requires h.hm.ln[c].next in h.hm.ln && h.hm.ln[c].prev in h.hm.ln && Unlink(h.hm.ln, c)[h.mainChunk].next in h.hm.ln
    requires h.hm.ln[c].next != c && h.hm.ln[c].prev != c
    modifies h.hm.objs, h.hm`ln
    ensures h.hm.Valid() && h.hm.objs == old(h.hm.objs)
    ensures h.hm.ln == MoveLinks(old(h.hm.ln), c, h.mainChunk)
  {
    hide Headers.Valid, Clear, Insert, Unlink;
    ghost var l0, m := h.hm.ln, h.mainChunk;
    UnlinkKeys(l0, c);
    TakeOut(h, c);
    ghost var l1 := h.hm.ln;
    PutBehind(h, c);
  }

  method TakeOut(h: Heap, c: int)
    requires h.hm.Valid() && h !in h.hm.objs && c in h.hm.ln && h.hm.ln[c].next in h.hm.ln && h.hm.ln[c].prev in h.hm.ln
    requires h.hm.ln[c].next != c && h.hm.ln[c].prev != c
    modifies h.hm.objs, h.hm`ln
    ensures h.hm.Valid() && h.hm.objs == old(h.hm.objs) && h.hm.ln == Unlink(old(h.hm.ln), c)
  {
    hide Headers.Valid, Clear;
    UnlinkOrder(h.hm.ln, c);
    h.hm.SetNext(h.hm.Get(c).prev, h.hm.Get(c).next);
    h.hm.SetPrev(h.hm.Get(c).next, h.hm.Get(c).prev);
  }

  method PutBehind(h: Heap, c: int)
    requires h.hm.Valid() && h !in h.hm.objs && c in h.hm.ln && h.mainChunk in h.hm.ln && h.hm.ln[h.mainChunk].next in h.hm.ln
    requires c != h.mainChunk
    modifies h.hm.objs, h.hm`ln
    ensures h.hm.Valid() && h.hm.objs == old(h.hm.objs)
    ensures h.hm.ln == Insert(old(h.hm.ln), c, h.mainChunk, old(h.hm.ln)[h.mainChunk].next)
  {
    hide Headers.Valid, Clear, Insert;
    ghost var l1, b := h.hm.ln, h.hm.ln[h.mainChunk].next;
    h.hm.SetNext(c, h.hm.Get(h.mainChunk).next);
    h.hm.SetPrev(c, h.mainChunk);
    h.hm.SetNext(h.hm.Get(c).prev, c);
    h.hm.SetPrev(h.hm.Get(c).next, c);
    InsertIs(l1, c, h.mainChunk, b);
  }

  lemma FrontFirst(r: seq<int>, k: nat)
    requires 1 <= k < |r|
    ensures |ToFront(r, k)| > 0 && ToFront(r, k)[0] == r[0]
  {}

  lemma HeadsRing(h: Heap, s: State, ring2: seq<int>)
    requires h.Heads(s.slots, s.ring, s.cached, s.huge) && |ring2| > 0 && |s.ring| > 0 && ring2[0] == s.ring[0]
    ensures h.Heads(s.slots, ring2, s.cached, s.huge)
  {}

  /** After a run has been taken in it, chunk `c` is not empty. */
  lemma TakenSettled(s: State, c: int, page: nat, n: nat)
    requires Sound(s) && Quiet(s.pg) && NonEmptyBut(s.pg, s.ring, c) && c in s.ring && c in s.pg
    requires 1 <= page && 1 <= n && page + n <= PAGES && AllFree(s.pg[c].own, page, page + n) && page <= s.pg[c].freeTail
    requires page < |s.pg[c].info|
    ensures Sound(Take(s, c, page, n)) && Settled(Take(s, c, page, n)) && PageAddr(c, page) !in s.live
    ensures LargeRun(Take(s, c, page, n), c, page, n)
  {
    hide LiveInv, Lists, HugeLive, NodesOK, RegionsOK, LinksOK, Quiet, PagesOK, ChunksOK;
    TakeSound(s, c, page, n);
    InRing(s.pg, s.ring, s.cached, c);
    AtMost511(s.pg[c]);
    var t := Take(s, c, page, n);
    forall i | 1 <= i < |t.ring| && t.ring[i] in t.pg ensures !EmptyChunk(t.pg[t.ring[i]]) {
      assert s.ring[i] != c ==> s.ring[i] in s.pg && !EmptyChunk(s.pg[s.ring[i]]);
    }
  }

  lemma AtMost511(p: Pages)
    requires PagesOK(p)
    ensures p.freePages <= PAGES - FIRST_PAGE
  {
    hide CountFree;
    var f := Fill(p.own, 0, 1, -1);
    CountFillAll(p.own, 0, 1, -1);
    CountNonNeg(f);
  }

  /** Mark the run and hand it out. */
  method MarkFound(h: Heap, c: int, page: nat, n: nat) returns (a: int)
    requires h.Steady() && Quiet(h.s.pg) && NonEmptyBut(h.s.pg, h.s.ring, c) && c in h.s.ring && c in h.s.pg
    requires 1 <= page && 1 <= n && page + n <= PAGES && AllFree(h.s.pg[c].own, page, page + n) && page <= h.s.pg[c].freeTail
    requires |h.s.pg[c].info| == PAGES
    modifies h`s, h.hm.objs, h.hm`pg
    ensures h.Ready() && h.hm.objs == old(h.hm.objs) && a == PageAddr(c, page)
    ensures h.s == Take(old(h.s), c, page, n) && a !in old(h.s).live && LargeRun(h.s, c, page, n)
  {
    hide Sound, Headers.Valid, Clear, Heap.Heads, Heap.Account, SumHuge, Quiet, NonEmptyBut, AllFree, TakeRun, LargeRun, Settled;
    ghost var s := h.s;
    TakenSettled(s, c, page, n);
    assert PagesOK(s.pg[c]) by { RingPages(s, c); }
    hide PagesOK;
    h.hm.MarkRun(c, page, n);
    h.s := Take(s, c, page, n);
    a := PageAddr(c, page);
  }

  lemma RingPages(s: State, c: int)
    requires Sound(s) && c in s.ring
    ensures c in s.pg && PagesOK(s.pg[c]) && |s.pg[c].own| == |s.pg[c].info| == PAGES
  {
    hide LiveInv, Lists, HugeLive, NodesOK, RegionsOK, LinksOK, PagesOK, ChunksOK;
    InRing(s.pg, s.ring, s.cached, c);
  }

  /** The run found by the search is free. */
  lemma PlacedFree(s: State, n: nat, k: nat, page: int)
    requires Sound(s) && Settled(s) && Placed(s, n, k, page) && 1 <= n && page != 0 && 0 <= page
    ensures var c := s.ring[k];
      && c in s.ring && c in s.pg && |s.pg[c].info| == PAGES && NonEmptyBut(s.pg, s.ring, c)
      && 1 <= page && page + n <= PAGES && AllFree(s.pg[c].own, page, page + n)
  {
    hide LiveInv, Lists, HugeLive, NodesOK, RegionsOK, LinksOK, PagesOK, ChunksOK, Quiet, EmptyChunk;
    RingPages(s, s.ring[k]);
  }

  /** `a` is the first address of a live run of `n` pages. */
  ghost predicate RunAt(s: State, a: int, n: nat) {
    Base(a) in s.ring && 0 <= PageOf(a) && LargeRun(s, Base(a), PageOf(a), n) && a == PageAddr(Base(a), PageOf(a))
  }

  lemma RunBase(s: State, c: int, page: nat, n: nat)
    requires Sound(s) && LargeRun(s, c, page, n)
    ensures Base(PageAddr(c, page)) == c && PageOf(PageAddr(c, page)) == page
  {
    hide LiveInv, Lists, HugeLive, NodesOK, RegionsOK, LinksOK, PagesOK;
    AddressParts(c, page * PAGE);
  }

  lemma RunAtPage(s: State, c: int, page: nat, n: nat)
    requires Sound(s) && LargeRun(s, c, page, n)
    ensures RunAt(s, PageAddr(c, page), n) && PageAddr(c, page) != 0
  {
    hide LiveInv, Lists, HugeLive, NodesOK, RegionsOK, LinksOK, PagesOK, ChunksOK, Quiet, EmptyChunk;
    InRing(s.pg, s.ring, s.cached, c);
    AddressParts(c, page * PAGE);
  }

  /** `a` is the best place of the first chunk with room, and `ring` the order of the chunks
      once it has been taken. */
  ghost predicate BestPlace(s: State, n: nat, a: int, ring: seq<int>) {
    exists k: nat, page :: Placed(s, n, k, page) && a == PageAddr(s.ring[k], page) && ring == Reordered(s.ring, k, n, k)
  }

  /** No chunk in use has room: a further one joins the ring. */
  method NewChunk(h: Heap, ghost s: State) returns (c: int)
    requires h.Ready() && h.s.live == s.live && Housekept(s, h.s)
    modifies h`s, h`mem, h`refusals, h`realSize, h`realPeak, h`chunksCount, h`peakChunksCount, h`cachedChunks, h`cachedChunksCount,
      h`lastDeleteBoundary, h`lastDeleteCount, h.hm, h.hm.objs, h.freeSlot
    ensures fresh(h.hm.objs - old(h.hm.objs)) && h.s.live == s.live && Housekept(s, h.s)
    ensures !h.overflow && old(h.realSize) <= h.limit ==> h.realSize <= h.limit
    ensures c == 0 ==> h.Ready()
    ensures c != 0 ==> h.Steady() && Quiet(h.s.pg) && |h.s.ring| > 1 && c == h.s.ring[|h.s.ring| - 1] && c in h.s.pg
    ensures c != 0 ==> NonEmptyBut(h.s.pg, h.s.ring, c) && AllFree(h.s.pg[c].own, 1, PAGES) && |h.s.pg[c].info| == PAGES && h.s.pg[c].freeTail == 1
    ensures h.realSize <= old(h.realSize) + CHUNK && old(h.refusals) <= h.refusals
    ensures c == 0 ==> old(h.s).cached == [] && Starved(h, old(h.refusals)) && h.realSize <= old(h.realSize)
    ensures old(h.s).cached != [] ==> h.realSize == old(h.realSize) && h.refusals == old(h.refusals)
    ensures old(h.s).cached != [] ==> c == old(h.s).cached[0] && h.s.cached == old(h.s).cached[1..]
    ensures old(h.s).cached == [] && CHUNK <= Room(h.limit, old(h.realSize)) && h.refusals == old(h.refusals) ==>
      c != 0 && h.realSize == old(h.realSize) + CHUNK
    ensures h.realPeak == Larger(old(h.realPeak), h.realSize) && h.peakChunksCount == Larger(old(h.peakChunksCount), |h.s.ring|)
  {
    hide Sound, Headers.Valid, Clear, Heap.Heads, Heap.Account, SumHuge, Settled, Housekept, Quiet, NonEmpty, Heap.Tables, AllFree, PagesOK, NonEmptyBut, Holding,
      LimitHit, Starved, Room;
    ghost var t := h.s;
    SlotFacts(h, 0);
    c := ObtainChunk(h);
    HousekeptChain(s, t, h.s);
    if c != 0 {
      t := h.s;
      HoldingFacts(h, c);
      AttachChunk(h, c);
      HousekeptSame(t, h.s);
      HousekeptChain(s, t, h.s);
      NewNonEmpty(h.s.pg, t.ring, c);
    } else {
      PeakFacts(h);
    }
  }

  lemma HoldingFacts(h: Heap, c: int)
    requires Holding(h, c)
    ensures h !in h.hm.objs && h.freeSlot !in h.hm.objs && |h.s.ring| > 0
  {}

  lemma NewNonEmpty(pg: map<int, Pages>, ring: seq<int>, c: int)
    requires NonEmpty(pg, ring)
    ensures NonEmptyBut(pg, ring + [c], c)
  {
    hide EmptyChunk;
  }

  /** A chunk that took more than two steps to reach, for a short run, moves behind the main
      chunk. */
  function Reordered(ring: seq<int>, k: nat, n: nat, steps: nat): (r: seq<int>)
    requires k < |ring| && (steps > 2 ==> 1 <= k)
    ensures |r| == |ring|
  {
    if steps > 2 && n < 8 then ToFront(ring, k) else ring
  }

  /** The chunk that is used ends up second, all others in the order they were in; or nothing
      moves. */
  lemma ReorderedExactly(ring: seq<int>, k: nat, n: nat, steps: nat, i: nat)
    requires k < |ring| && (steps > 2 ==> 1 <= k) && i < |ring|
    ensures steps <= 2 || 8 <= n ==> Reordered(ring, k, n, steps)[i] == ring[i]
    ensures steps > 2 && n < 8 ==> Reordered(ring, k, n, steps)[if i == k then 1 else if 1 <= i < k then i + 1 else i] == ring[i]
  {}

  /** Chunk `c` at position `k` has room at `page`. */
  method FinishPages(h: Heap, ghost s: State, c: int, page: nat, n: nat, steps: nat, ghost k: nat) returns (a: int)
    requires h.Steady() && Quiet(h.s.pg) && k < |h.s.ring| && c == h.s.ring[k] && (steps > 2 ==> 1 <= k)
    requires NonEmptyBut(h.s.pg, h.s.ring, c) && c in h.s.pg && h.s.live == s.live && Housekept(s, h.s)
    requires 1 <= page && 1 <= n && page + n <= PAGES && AllFree(h.s.pg[c].own, page, page + n) && page <= h.s.pg[c].freeTail
    requires |h.s.pg[c].info| == PAGES
    modifies h`s, h.hm.objs, h.hm`pg, h.hm`ln
    ensures h.Ready() && h.hm.objs == old(h.hm.objs) && Housekept(s, h.s)
    ensures a == PageAddr(c, page) && a != 0 && a !in s.live && h.s.live == s.live[a := Large(n)] && RunAt(h.s, a, n)
    ensures h.s.ring == Reordered(old(h.s).ring, k, n, steps) && h.s.cached == old(h.s).cached && Base(a) == c
  {
    hide Sound, Headers.Valid, Clear, Heap.Heads, Heap.Account, SumHuge, Housekept, Quiet, NonEmptyBut, AllFree, RunAt, TakeRun, LargeRun, ToFront,
      Heap.Tables, Settled;
    ghost var t := h.s;
    SlotFacts(h, 0);
    if steps > 2 && n < 8 {
      NonEmptyFront(t, k, c);
      ToFrontMembers(t.ring, k);
      MoveToFront(h, c, k);
      HousekeptSame(t, h.s);
      HousekeptChain(s, t, h.s);
    }
    t := h.s;
    a := MarkFound(h, c, page, n);
    TakenKept(s, t, c, page, n);
    RunAtPage(h.s, c, page, n);
    RunBase(h.s, c, page, n);
  }

  lemma TakenKept(s: State, t: State, c: int, page: nat, n: nat)
    requires Housekept(s, t) && t.live == s.live && c in t.pg && page < |t.pg[c].info|
    ensures Housekept(s, Take(t, c, page, n)) && Take(t, c, page, n).live == s.live[PageAddr(c, page) := Large(n)]
  {
    hide SameLive, TakeRun;
  }

  /** The heap has no free run of `n` pages and no chunk in reserve. */
  ghost predicate MustAsk(s: State, n: int) {
    NoRoomBefore(s, n, |s.ring|) && s.cached == []
  }

  /** zend_mm_alloc_pages. The run lies in the lowest-addressed shortest hole that fits of the
      first chunk with room or, if there is none, at the start of a further chunk. It fails
      only when the heap itself has neither and cannot get another chunk; as long as the heap
      has either, nothing more is taken from the operating system. */
  method AllocPages(h: Heap, n: nat) returns (a: int)
    requires h.Ready() && 1 <= n < PAGES
    modifies h`s, h`mem, h`refusals, h`realSize, h`realPeak, h`chunksCount, h`peakChunksCount, h`cachedChunks, h`cachedChunksCount,
      h`lastDeleteBoundary, h`lastDeleteCount, h.hm, h.hm.objs, h.freeSlot
    ensures h.Ready() && fresh(h.hm.objs - old(h.hm.objs)) && Housekept(old(h.s), h.s)
    ensures !h.overflow && old(h.realSize) <= h.limit ==> h.realSize <= h.limit
    ensures a == 0 ==> h.s.live == old(h.s).live
    ensures a != 0 ==> a !in old(h.s).live && h.s.live == old(h.s).live[a := Large(n)] && RunAt(h.s, a, n)
    ensures a != 0 ==> NoRoomBefore(old(h.s), n, |old(h.s).ring|) || BestPlace(old(h.s), n, a, h.s.ring)
    ensures a != 0 && NoRoomBefore(old(h.s), n, |old(h.s).ring|) ==> |h.s.ring| > 1
    ensures NoRoomBefore(old(h.s), n, |old(h.s).ring|) && old(h.s).cached != [] ==>
      a != 0 && Base(a) == old(h.s).cached[0] && h.s.cached == old(h.s).cached[1..]
    ensures !NoRoomBefore(old(h.s), n, |old(h.s).ring|) ==> h.s.cached == old(h.s).cached
    ensures a != 0 && NoRoomBefore(old(h.s), n, |old(h.s).ring|) ==>
      h.s.ring[if |old(h.s).ring| > 3 && n < 8 then 1 else |h.s.ring| - 1] == Base(a)
    ensures h.realPeak == Larger(old(h.realPeak), h.realSize) && h.peakChunksCount == Larger(old(h.peakChunksCount), |h.s.ring|)
    ensures h.realSize <= old(h.realSize) + CHUNK && old(h.refusals) <= h.refusals
    ensures a == 0 ==> MustAsk(old(h.s), n) && Starved(h, old(h.refusals)) && h.realSize <= old(h.realSize)
    ensures !MustAsk(old(h.s), n) ==> h.realSize == old(h.realSize) && h.refusals == old(h.refusals)
    ensures MustAsk(old(h.s), n) && CHUNK <= Room(h.limit, old(h.realSize)) && h.refusals == old(h.refusals) ==>
      a != 0 && h.realSize == old(h.realSize) + CHUNK
  {
    hide Sound, Headers.Valid, Clear, Heap.Heads, Heap.Account, SumHuge, LargeRun, Housekept, SameButTails, Placed, AllFree, NoRoomBefore,
      NonEmptyBut, Take, TakeRun, RunAt, BestPlace, Heap.Tables, Quiet, NonEmpty, Starved, LimitHit, Room;
    ghost var s := h.s;
    SlotFacts(h, 0);
    var c, page, steps := FindInRing(h, n);
    HousekeptSame(s, h.s);
    if page == 0 {
      SlotFacts(h, 0);
      c := NewChunk(h, s);
      if c == 0 { return 0; }
      FreePart(h.s.pg[c].own, n);
      SlotFacts(h, 0);
      ghost var r := h.s.ring;
      a := FinishPages(h, s, c, 1, n, steps, |r| - 1);
      ReorderedExactly(r, |r| - 1, n, steps, |r| - 1);
    } else {
      PlacedFree(h.s, n, steps, page);
      BestIs(s, n, steps, page);
      HasRoom(s, n, steps, page);
      SlotFacts(h, 0);
      a := FinishPages(h, s, c, page, n, steps, steps);
      PeakFacts(h);
    }
  }

  lemma HasRoom(s: State, n: nat, k: nat, page: int)
    requires Placed(s, n, k, page)
    ensures !NoRoomBefore(s, n, |s.ring|)
  {
    var own := s.pg[s.ring[k]].own;
    var e :| BestFit(own, n, page, e);
    assert AllFree(own, page, page + n);
  }

  lemma BestIs(s: State, n: nat, k: nat, page: int)
    requires Placed(s, n, k, page)
    ensures BestPlace(s, n, PageAddr(s.ring[k], page), Reordered(s.ring, k, n, k))
  {
    hide BestFit, NoRoomBefore;
  }

  lemma FreePart(own: seq<int>, n: nat)
    requires AllFree(own, 1, PAGES) && n < PAGES
    ensures AllFree(own, 1, 1 + n)
  {}
}
