/** The state of the heap as one value, its invariant, and how each elementary step of the
    allocator keeps it. */
module HeapState {
  import opened Sizes
  import opened Pages
  import opened Memory
  import opened Blocks
  import opened Live
  import opened FreeLists
  import opened Chunks
  import opened Rings
  import opened HeapModel

  datatype State = State(
    pg: map<int, Pages>,        // page state of every chunk
    ln: map<int, Links>,        // link fields of every chunk
    ring: seq<int>,             // active chunks, the main one first
    cached: seq<int>,           // cached chunks
    slots: Slots,               // free list of each class
    huge: seq<HugeRec>,         // huge blocks with their list nodes
    live: map<int, Block>,      // every live block, list nodes included
    mem: Mem,
    key: Word8)

  const HEAP_OFFSET: int := 64   // heap_slot inside the main chunk's header

  /** Every active chunk names the heap that lies in the main chunk's header. */
  ghost predicate HomeOK(ln: map<int, Links>, ring: seq<int>) {
    |ring| > 0 && forall i :: 0 <= i < |ring| && ring[i] in ln ==> ln[ring[i]].heap == ring[0] + HEAP_OFFSET
  }

  ghost predicate LinksOK(pg: map<int, Pages>, ln: map<int, Links>, ring: seq<int>, cached: seq<int>, key: Word8) {
    && ln.Keys == pg.Keys
    && RingOK(ln, ring) && HomeOK(ln, ring) && CachedOK(ln, cached, key)
  }

  /** What labels, lists, links and memory satisfy at all times. */
  ghost predicate Sound(s: State) {
    && ChunksOK(s.pg, s.ring, s.cached) && LiveInv(s.pg, s.slots, s.live) && NoTiny(s.live)
    && Lists(s.mem, s.key, s.slots)
    && HugeLive(s.huge, s.live) && NodesOK(s.mem, s.huge)
    && RegionsOK(s.mem, s.pg, s.huge)
    && LinksOK(s.pg, s.ln, s.ring, s.cached, s.key)
  }

  /** What holds in addition between calls: no pending counters, no empty chunk in use. */
  ghost predicate Settled(s: State) {
    Quiet(s.pg) && NonEmpty(s.pg, s.ring)
  }

  // ----- free list operations -----

  function Pop(s: State, b: nat): State
    requires |s.slots| == BINS && b < BINS && s.slots[b] != []
  {
    s.(slots := s.slots[b := s.slots[b][1..]], live := s.live[s.slots[b][0] := Small(b)])
  }

  lemma PopSound(s: State, b: nat)
    requires Sound(s) && 1 <= b < BINS && |s.slots| == BINS && s.slots[b] != []
    ensures Sound(Pop(s, b)) && s.slots[b][0] !in s.live
    ensures LinkOK(s.mem, s.key, s.slots[b][0], BinSize(b), First(s.slots[b][1..]))
  {
    hide LiveInv, Lists, HugeLive, NodesOK, RegionsOK, LinksOK, ChunksOK, LinkOK, BinSize;
    ListsPop(s.mem, s.key, s.slots, b);
    LivePop(s.pg, s.slots, s.live, b);
    HugeLiveSet(s.huge, s.live, s.slots[b][0], Small(b));
  }

  /** Freeing the small block `a`. */
  function Push(s: State, b: nat, a: int): State
    requires |s.slots| == BINS && b < BINS && 0 <= a && 0 <= First(s.slots[b])
  {
    BinFacts(b);
    s.(slots := s.slots[b := [a] + s.slots[b]], live := s.live - {a},
       mem := SetNext(s.mem, s.key, a, BinSize(b), First(s.slots[b])))
  }

  /** A live small block can carry a link, and is neither free nor a chunk boundary. */
  lemma LiveSmall(s: State, b: nat, a: int)
    requires Sound(s) && b < BINS && a in s.live && s.live[a] == Small(b)
    ensures |s.slots| == BINS && 1 <= b && a !in s.slots[b] && a % CHUNK != 0
    ensures BlockAt(s.pg, a) == Small(b) && Base(a) in s.pg && ChunksWF(s.pg)
    ensures 0 < a && 16 <= BinSize(b) && a + BinSize(b) <= ADDRESS_LIMIT && Mapped(s.mem, a, BinSize(b))
    ensures IsAddress(First(s.slots[b])) && 0 <= First(s.slots[b])
  {
    hide LiveInv, Lists, HugeLive, NodesOK, LinksOK, ChunksOK, BinSize, ChunksWF, BlockAt, Chain, Mapped;
    ChunksAreWF(s.pg, s.ring, s.cached);
    LiveNotFree(s.pg, s.slots, s.live, a, b);
    SlotsLength(s.pg, s.slots, s.live);
    BlockInChunk(s.pg, a);
    SmallUsable(b);
    MappedPart(s.mem, Base(a), CHUNK, a, BinSize(b));
    SizeOfUsed(b);
    FirstIsAddress(s, b);
  }

  lemma SizeOfUsed(b: nat)
    requires 1 <= b < BINS
    ensures 16 <= BinSize(b)
  {}

  lemma MappedPart(m: Mem, a: int, n: int, b: int, k: int)
    requires Mapped(m, a, n) && a <= b && b + k <= a + n
    ensures Mapped(m, b, k)
  {}

  lemma FirstIsAddress(s: State, b: nat)
    requires Sound(s) && b < BINS && |s.slots| == BINS
    ensures IsAddress(First(s.slots[b]))
  {
    hide LiveInv, HugeLive, NodesOK, RegionsOK, LinksOK, ChunksOK, BinSize;
    if s.slots[b] != [] {
      assert Chain(s.mem, s.key, BinSize(b), s.slots[b]);
    }
  }

  lemma PushSound(s: State, b: nat, a: int)
    requires Sound(s) && b < BINS && a in s.live && s.live[a] == Small(b) && !IsNode(s.huge, a)
    requires |s.slots| == BINS && 0 <= a && 0 <= First(s.slots[b])
    ensures Sound(Push(s, b, a)) && SameLive(s.mem, Push(s, b, a).mem, s.live, a)
  {
    hide LiveInv, Lists, HugeLive, NodesOK, RegionsOK, LinksOK, ChunksOK, BinSize, ChunksWF, LinkOK, SameBytes, SameLive,
      BlockAt, OnlyInside, SetNext, IsNode, Mapped;
    LiveSmall(s, b, a);
    var r := Push(s, b, a);
    SetNextOK(s.mem, s.key, a, BinSize(b), First(s.slots[b]));
    SmallUsable(b);
    forall d | 0 <= d < BINS ensures a !in s.slots[d] { LiveNotFree(s.pg, s.slots, s.live, a, d); }
    WriteKeeps(s.pg, s.slots, s.live, s.huge, s.key, s.mem, r.mem, a);
    ListsPush(s.mem, r.mem, s.key, s.slots, b, a);
    LivePush(s.pg, s.slots, s.live, b, a);
    HugeLiveRemove(s.huge, s.live, a);
  }

  // ----- page operations on an active chunk -----

  lemma RegionsSameKeys(m: Mem, pg: map<int, Pages>, pg2: map<int, Pages>, huge: seq<HugeRec>)
    requires RegionsOK(m, pg, huge) && pg2.Keys == pg.Keys
    ensures RegionsOK(m, pg2, huge)
  {
    hide HugeRegion, Apart, Mapped;
    assert forall c :: c in pg2 ==> c in pg.Keys;
  }

  lemma ChunksUpdate(pg: map<int, Pages>, ring: seq<int>, cached: seq<int>, c: int, r: Pages)
    requires ChunksOK(pg, ring, cached) && c in ring && PagesOK(r)
    ensures ChunksOK(pg[c := r], ring, cached)
  {
    hide PagesOK, Blank, ChunkBase;
  }

  lemma InRing(pg: map<int, Pages>, ring: seq<int>, cached: seq<int>, c: int)
    requires ChunksOK(pg, ring, cached) && c in ring
    ensures c in pg && PagesOK(pg[c]) && RunsOK(pg[c]) && ChunkBase(c) && c !in cached
    ensures |pg[c].own| == |pg[c].info| == PAGES
  {
    hide Blank, RunsOK, TailOK, CountFree;
    assert PagesOK(pg[c]);
    RunsLength(pg[c]);
  }

  /** The pages of one active chunk and the live blocks change; lists and memory do not. */
  lemma PagesSound(s: State, c: int, r: Pages, live2: map<int, Block>)
    requires Sound(s) && c in s.ring && PagesOK(r)
    requires LiveInv(s.pg[c := r], s.slots, live2) && HugeLive(s.huge, live2) && NoTiny(live2)
    ensures Sound(s.(pg := s.pg[c := r], live := live2))
  {
    hide LiveInv, Lists, HugeLive, NodesOK, RegionsOK, PagesOK, NoTiny;
    InRing(s.pg, s.ring, s.cached, c);
    hide ChunksOK;
    ChunksUpdate(s.pg, s.ring, s.cached, c, r);
    RegionsSameKeys(s.mem, s.pg, s.pg[c := r], s.huge);
    LinksUpdate(s.pg, s.pg[c := r], s.ln, s.ring, s.cached, s.key);
  }

  lemma LinksUpdate(pg: map<int, Pages>, pg2: map<int, Pages>, ln: map<int, Links>, ring: seq<int>, cached: seq<int>, key: Word8)
    requires LinksOK(pg, ln, ring, cached, key) && pg2.Keys == pg.Keys
    ensures LinksOK(pg2, ln, ring, cached, key)
  {
    hide RingOK, HomeOK, CachedOK;
  }

  function Take(s: State, c: int, page: nat, n: nat): State
    requires c in s.pg && page < |s.pg[c].info|
  {
    s.(pg := s.pg[c := TakeRun(s.pg[c], page, n)], live := s.live[PageAddr(c, page) := Large(n)])
  }

  lemma TakeSound(s: State, c: int, page: nat, n: nat)
    requires Sound(s) && c in s.ring && c in s.pg
    requires 1 <= page && 1 <= n && page + n <= PAGES && AllFree(s.pg[c].own, page, page + n) && page <= s.pg[c].freeTail
    requires page < |s.pg[c].info|
    ensures Sound(Take(s, c, page, n)) && PageAddr(c, page) !in s.live
    ensures Quiet(s.pg) ==> Quiet(Take(s, c, page, n).pg)
  {
    hide LiveInv, Lists, HugeLive, NodesOK, RegionsOK, LinksOK, PagesOK, RunsOK, TakeRun, AllFree, ChunksOK;
    InRing(s.pg, s.ring, s.cached, c);
    TakePagesOK(s.pg[c], page, n);
    LiveTake(s.pg, s.slots, s.live, c, page, n);
    HugeLiveSet(s.huge, s.live, PageAddr(c, page), Large(n));
    PagesSound(s, c, TakeRun(s.pg[c], page, n), s.live[PageAddr(c, page) := Large(n)]);
  }

  /** The large block at page `page` of chunk `c`. */
  ghost predicate LargeRun(s: State, c: int, page: nat, n: nat) {
    && c in s.ring && c in s.pg && |s.pg[c].own| == |s.pg[c].info| == PAGES
    && 1 <= page < PAGES && s.pg[c].own[page] == page && s.pg[c].info[page] == LRun(n)
  }

  lemma LargeIsLive(s: State, c: int, page: nat, n: nat)
    requires Sound(s) && LargeRun(s, c, page, n)
    ensures var a := PageAddr(c, page);
      && a in s.live && s.live[a] == Large(n) && !IsNode(s.huge, a) && BlockAt(s.pg, a) == Large(n)
      && page + n <= PAGES && 1 <= n
  {
    hide Lists, NodesOK, RegionsOK, LinksOK, PagesOK, RunsOK, ChunksOK, BlockIn, HeadInfo, Full, CountFree;
    InRing(s.pg, s.ring, s.cached, c);
    var a := PageAddr(c, page);
    AddressParts(c, page * PAGE);
    LargeBlock(s.pg[c], page, n, 0);
    assert Owned(s.pg, s.slots, s.live, a);
  }

  function Release(s: State, c: int, page: nat, n: nat): State
    requires c in s.pg && page < |s.pg[c].info|
  {
    s.(pg := s.pg[c := FreeRun(s.pg[c], page, n)], live := s.live - {PageAddr(c, page)})
  }

  lemma ReleaseSound(s: State, c: int, page: nat, n: nat)
    requires Sound(s) && LargeRun(s, c, page, n)
    ensures Sound(Release(s, c, page, n))
    ensures Quiet(s.pg) ==> Quiet(Release(s, c, page, n).pg)
  {
    LargeIsLive(s, c, page, n);
    hide LiveInv, Lists, HugeLive, NodesOK, RegionsOK, LinksOK, PagesOK, RunsOK, FreeRun, ChunksOK, BlockAt, IsNode, CountFree;
    InRing(s.pg, s.ring, s.cached, c);
    FreePagesOK(s.pg[c], page, n);
    LiveRelease(s.pg, s.slots, s.live, c, page, n);
    HugeLiveRemove(s.huge, s.live, PageAddr(c, page));
    PagesSound(s, c, FreeRun(s.pg[c], page, n), s.live - {PageAddr(c, page)});
  }

  function Shrink(s: State, c: int, page: nat, n: nat, m: nat): State
    requires c in s.pg && page < |s.pg[c].info|
  {
    s.(pg := s.pg[c := ShrinkRun(s.pg[c], page, n, m)], live := s.live[PageAddr(c, page) := Large(m)])
  }

  lemma ShrinkSound(s: State, c: int, page: nat, n: nat, m: nat)
    requires Sound(s) && LargeRun(s, c, page, n) && 1 <= m < n
    ensures Sound(Shrink(s, c, page, n, m))
    ensures Quiet(s.pg) ==> Quiet(Shrink(s, c, page, n, m).pg)
  {
    LargeIsLive(s, c, page, n);
    hide LiveInv, Lists, HugeLive, NodesOK, RegionsOK, LinksOK, PagesOK, RunsOK, ShrinkRun, ChunksOK, BlockAt, IsNode, CountFree;
    InRing(s.pg, s.ring, s.cached, c);
    ShrinkPagesOK(s.pg[c], page, n, m);
    LiveShrink(s.pg, s.slots, s.live, c, page, n, m);
    HugeLiveSet(s.huge, s.live, PageAddr(c, page), Large(m));
    PagesSound(s, c, ShrinkRun(s.pg[c], page, n, m), s.live[PageAddr(c, page) := Large(m)]);
  }

  function Grow(s: State, c: int, page: nat, n: nat, m: nat): State
    requires c in s.pg && page < |s.pg[c].info|
  {
    s.(pg := s.pg[c := GrowRun(s.pg[c], page, n, m)], live := s.live[PageAddr(c, page) := Large(m)])
  }

  lemma GrowSound(s: State, c: int, page: nat, n: nat, m: nat)
    requires Sound(s) && LargeRun(s, c, page, n) && n < m
    requires page + m <= PAGES && AllFree(s.pg[c].own, page + n, page + m)
    ensures Sound(Grow(s, c, page, n, m))
    ensures Quiet(s.pg) ==> Quiet(Grow(s, c, page, n, m).pg)
  {
    LargeIsLive(s, c, page, n);
    hide LiveInv, Lists, HugeLive, NodesOK, RegionsOK, LinksOK, PagesOK, RunsOK, GrowRun, ChunksOK, BlockAt, IsNode, CountFree, AllFree;
    InRing(s.pg, s.ring, s.cached, c);
    GrowPagesOK(s.pg[c], page, n, m);
    LiveGrow(s.pg, s.slots, s.live, c, page, n, m);
    HugeLiveSet(s.huge, s.live, PageAddr(c, page), Large(m));
    PagesSound(s, c, GrowRun(s.pg[c], page, n, m), s.live[PageAddr(c, page) := Large(m)]);
  }

  /** A fresh large block becomes a small run: memory `m2` holds its free list. */
  function Cut(s: State, c: int, page: nat, b: nat, m2: Mem): State
    requires c in s.pg && page < |s.pg[c].info| && b < BINS && |s.slots| == BINS
  {
    var a := PageAddr(c, page);
    s.(pg := s.pg[c := MakeSmall(s.pg[c], page, b)], slots := s.slots[b := Elements(a, b)],
       live := s.live[a := Small(b)], mem := m2)
  }

  lemma CutSound(s: State, c: int, page: nat, b: nat, m2: Mem)
    requires Sound(s) && 1 <= b < BINS && LargeRun(s, c, page, BinPages(b)) && |s.slots| == BINS && s.slots[b] == []
    requires OnlyInside(s.mem, m2, PageAddr(c, page), BinPages(b) * PAGE)
    requires Chain(m2, s.key, BinSize(b), Elements(PageAddr(c, page), b))
    ensures Sound(Cut(s, c, page, b, m2)) && SameLive(s.mem, m2, s.live, PageAddr(c, page))
    ensures Quiet(s.pg) ==> Quiet(Cut(s, c, page, b, m2).pg)
  {
    LargeIsLive(s, c, page, BinPages(b));
    hide LiveInv, Lists, HugeLive, NodesOK, RegionsOK, LinksOK, PagesOK, RunsOK, MakeSmall, ChunksOK, BlockAt, IsNode, CountFree,
      Chain, Elements, BinSize, BinPages, OnlyInside, SameBytes, SameLive, ChunksWF;
    var a := PageAddr(c, page);
    InRing(s.pg, s.ring, s.cached, c);
    ChunksAreWF(s.pg, s.ring, s.cached);
    forall d | 0 <= d < BINS ensures a !in s.slots[d] { LiveNotFree(s.pg, s.slots, s.live, a, d); }
    WriteKeeps(s.pg, s.slots, s.live, s.huge, s.key, s.mem, m2, a);
    SmallPagesOK(s.pg[c], page, b);
    LiveCut(s.pg, s.slots, s.live, c, page, b);
    if Quiet(s.pg) { QuietCut(s.pg, c, page, b); }
    HugeLiveSet(s.huge, s.live, a, Small(b));
    var r := MakeSmall(s.pg[c], page, b);
    var t := s.(slots := s.slots[b := Elements(a, b)], mem := m2);
    ListsSet(m2, s.key, s.slots, b, Elements(a, b));
    ChunksUpdate(s.pg, s.ring, s.cached, c, r);
    RegionsSameKeys(m2, s.pg, s.pg[c := r], s.huge);
    LinksUpdate(s.pg, s.pg[c := r], s.ln, s.ring, s.cached, s.key);
  }

  // ----- tail marks -----

  /** Only tail marks differ. */
  ghost predicate SameButTails(pg: map<int, Pages>, pg2: map<int, Pages>) {
    && pg2.Keys == pg.Keys
    && (forall c :: c in pg ==> pg2[c] == pg[c].(freeTail := pg2[c].freeTail))
  }

  lemma TailAt(pg: map<int, Pages>, pg2: map<int, Pages>, c: int)
    requires SameButTails(pg, pg2)
    ensures c in pg <==> c in pg2
    ensures c in pg ==> pg2[c].own == pg[c].own && pg2[c].info == pg[c].info && pg2[c].freePages == pg[c].freePages
  {
    assert c in pg <==> c in pg.Keys;
    assert c in pg2 <==> c in pg2.Keys;
  }

  lemma TailsChunks(pg: map<int, Pages>, pg2: map<int, Pages>, ring: seq<int>, cached: seq<int>)
    requires ChunksOK(pg, ring, cached) && SameButTails(pg, pg2)
    requires forall i :: 0 <= i < |ring| && ring[i] in pg2 ==> PagesOK(pg2[ring[i]])
    ensures ChunksOK(pg2, ring, cached)
  {
    hide PagesOK, ChunkBase;
    forall c | c in pg2 ensures ChunkBase(c) && (c in ring || c in cached) { assert c in pg.Keys; }
    forall i | 0 <= i < |ring| ensures ring[i] in pg2 && PagesOK(pg2[ring[i]]) { assert ring[i] in pg.Keys; }
    forall i | 0 <= i < |cached|
      ensures cached[i] in pg2 && cached[i] !in ring && Blank(pg2[cached[i]].own) && |pg2[cached[i]].info| == PAGES
    {
      TailAt(pg, pg2, cached[i]);
    }
  }

  lemma TailsSame(pg: map<int, Pages>, pg2: map<int, Pages>, a: int)
    requires SameButTails(pg, pg2)
    ensures BlockAt(pg2, a) == BlockAt(pg, a) && HeadInfo(pg2, a) == HeadInfo(pg, a)
  {
    hide BlockIn, HeadIn;
    if Base(a) in pg.Keys { TailBlocks(pg[Base(a)], pg2[Base(a)], a % CHUNK); }
    assert Base(a) in pg.Keys <==> Base(a) in pg2.Keys;
  }

  lemma TailsSound(s: State, pg2: map<int, Pages>)
    requires Sound(s) && SameButTails(s.pg, pg2)
    requires forall i :: 0 <= i < |s.ring| && s.ring[i] in pg2 ==> PagesOK(pg2[s.ring[i]])
    ensures Sound(s.(pg := pg2))
  {
    hide LiveInv, Lists, HugeLive, NodesOK, RegionsOK, LinksOK, PagesOK, BlockAt, HeadInfo, ChunksOK;
    TailsChunks(s.pg, pg2, s.ring, s.cached);
    forall a ensures BlockAt(pg2, a) == BlockAt(s.pg, a) && HeadInfo(pg2, a) == HeadInfo(s.pg, a) {
      TailsSame(s.pg, pg2, a);
    }
    SameBlocks(s.pg, pg2, s.slots, s.live);
    assert pg2.Keys == s.pg.Keys;
    hide SameButTails;
    RegionsSameKeys(s.mem, s.pg, pg2, s.huge);
    LinksUpdate(s.pg, pg2, s.ln, s.ring, s.cached, s.key);
  }

  lemma TailsSettled(s: State, pg2: map<int, Pages>)
    requires Settled(s) && SameButTails(s.pg, pg2)
    ensures Settled(s.(pg := pg2))
  {
    hide BlockAt, HeadInfo;
    forall a | BlockAt(pg2, a).Small? ensures HeadInfo(pg2, a) == SRun(BlockAt(pg2, a).bin, 0) {
      TailsSame(s.pg, pg2, a);
    }
    forall i | 1 <= i < |s.ring| && s.ring[i] in pg2 ensures !EmptyChunk(pg2[s.ring[i]]) {
      TailAt(s.pg, pg2, s.ring[i]);
      assert !EmptyChunk(s.pg[s.ring[i]]);
    }
  }

  lemma TailBlocks(p: Pages, r: Pages, off: int)
    requires r == p.(freeTail := r.freeTail)
    ensures BlockIn(r, off) == BlockIn(p, off) && HeadIn(r, off) == HeadIn(p, off)
  {
    hide ElementAt;
  }

  // ----- chunks come and go -----

  /** A mapped chunk that belongs to neither the ring, the cache nor a huge block. */
  ghost predicate Spare(s: State, c: int) {
    && ChunkBase(c) && c !in s.pg && Mapped(s.mem, c, CHUNK)
    && (forall i :: 0 <= i < |s.huge| ==> Apart(s.huge[i].ptr, s.huge[i].size, c, CHUNK))
  }

  lemma SpareOf(s: State, s2: State, c: int)
    requires Sound(s) && c in s.pg && s2.huge == s.huge && s2.mem == s.mem && c !in s2.pg
    ensures Spare(s2, c)
  {
    hide LiveInv, Lists, HugeLive, NodesOK, LinksOK, Mapped, Apart, HugeRegion, PagesOK, Blank;
  }

  lemma SpareAddress(s: State, c: int)
    requires Spare(s, c)
    ensures 0 < c && c % CHUNK == 0 && c !in s.pg && Mapped(s.mem, c, CHUNK)
  {}

  /** A spare chunk stays spare when others leave the tables or are given back. */
  lemma SpareKept(s: State, t: State, c: int, d: int)
    requires Spare(s, c) && t.huge == s.huge && t.pg.Keys <= s.pg.Keys
    requires t.mem == s.mem || (t.mem == RemoveRegion(s.mem, d, CHUNK) && d % CHUNK == 0 && d != c)
    ensures Spare(t, c)
  {
    hide Apart;
    assert c !in t.pg.Keys;
  }

  /** Dropping a chunk without blocks from the tables keeps lists, blocks and memory right. */
  lemma DropSound(s: State, c: int, ring2: seq<int>, cached2: seq<int>, ln2: map<int, Links>)
    requires Sound(s) && c in s.pg && NoBlocksIn(s.pg[c])
    requires ChunksOK(s.pg - {c}, ring2, cached2) && LinksOK(s.pg - {c}, ln2, ring2, cached2, s.key)
    ensures Sound(s.(pg := s.pg - {c}, ln := ln2, ring := ring2, cached := cached2))
    ensures Quiet(s.pg) ==> Quiet(s.pg - {c})
  {
    hide LiveInv, Lists, HugeLive, NodesOK, LinksOK, ChunksOK, NoBlocksIn, RegionsOK;
    LiveDropChunk(s.pg, s.slots, s.live, c);
    RegionsDrop(s.mem, s.pg, s.huge, c);
  }

  lemma RegionsDrop(m: Mem, pg: map<int, Pages>, huge: seq<HugeRec>, c: int)
    requires RegionsOK(m, pg, huge)
    ensures RegionsOK(m, pg - {c}, huge)
  {
    hide HugeRegion, Apart, Mapped;
  }

  function DropCached(s: State): State
    requires s.cached != []
  {
    var c := s.cached[0];
    s.(pg := s.pg - {c}, ln := s.ln - {c}, cached := s.cached[1..])
  }

  lemma DropCachedSound(s: State)
    requires Sound(s) && s.cached != []
    ensures Sound(DropCached(s)) && Spare(DropCached(s), s.cached[0])
    ensures s.cached[0] in s.pg && Blank(s.pg[s.cached[0]].own) && |s.pg[s.cached[0]].info| == PAGES
    ensures s.cached[0] in s.ln && s.ln[s.cached[0]].next == First(s.cached[1..])
    ensures CachedAt(s.ln, s.cached, s.key, 0) && NextOf(s.cached, 0) == First(s.cached[1..])
    ensures First(s.cached[1..]) % CHUNK == 0 && s.cached[0] % CHUNK == 0
    ensures Quiet(s.pg) ==> Quiet(DropCached(s).pg)
  {
    hide LiveInv, Lists, HugeLive, NodesOK, RegionsOK, PagesOK, RingOK, HomeOK, Encode, Decode, Mapped, CachedOK;
    var c := s.cached[0];
    CachedTail(s.ln, s.cached, s.key);
    assert c in s.pg && Blank(s.pg[c].own) && c !in s.ring && ChunkBase(c);
    BlankNoBlocks(s.pg[c]);
    DropFirst(s.cached, s.ln, s.key);
    if s.cached[1..] != [] { assert s.cached[1] in s.pg; }
    assert ChunksOK(s.pg - {c}, s.ring, s.cached[1..]) by { ChunksDropCached(s.pg, s.ring, s.cached); }
    assert LinksOK(s.pg - {c}, s.ln - {c}, s.ring, s.cached[1..], s.key) by {
      LinksDrop(s.pg, s.ln, s.ring, s.cached[1..], s.key, c);
    }
    DropSound(s, c, s.ring, s.cached[1..], s.ln - {c});
    SpareOf(s, DropCached(s), c);
  }

  lemma DropFirst(cached: seq<int>, ln: map<int, Links>, key: Word8)
    requires CachedOK(ln, cached, key) && cached != []
    ensures cached[0] !in cached[1..]
  {
    hide CachedAt;
  }

  lemma ChunksDropCached(pg: map<int, Pages>, ring: seq<int>, cached: seq<int>)
    requires ChunksOK(pg, ring, cached) && cached != [] && cached[0] !in cached[1..]
    ensures ChunksOK(pg - {cached[0]}, ring, cached[1..])
  {
    hide PagesOK, Blank, ChunkBase;
    var c := cached[0];
    forall x | x in pg - {c} ensures ChunkBase(x) && (x in ring || x in cached[1..]) {
      assert x in cached ==> x in cached[1..];
    }
  }

  lemma LinksDrop(pg: map<int, Pages>, ln: map<int, Links>, ring: seq<int>, cached: seq<int>, key: Word8, c: int)
    requires ln.Keys == pg.Keys && RingOK(ln, ring) && HomeOK(ln, ring) && CachedOK(ln, cached, key)
    requires c !in ring && c !in cached
    ensures LinksOK(pg - {c}, ln - {c}, ring, cached, key)
  {
    hide RingOK, CachedOK;
    assert (pg - {c}).Keys == pg.Keys - {c} && (ln - {c}).Keys == ln.Keys - {c};
    RingMembers(ln, ring);
    CachedMembers(ln, cached, key);
    RingSame(ln, ln - {c}, ring);
    CachedSame(ln, ln - {c}, cached, key);
  }

  lemma RingMembers(ln: map<int, Links>, ring: seq<int>)
    requires RingOK(ln, ring)
    ensures |ring| > 0 && forall i :: 0 <= i < |ring| ==> ring[i] in ln
  {
    forall i | 0 <= i < |ring| ensures ring[i] in ln { assert Linked(ln, ring, i); }
  }

  lemma CachedMembers(ln: map<int, Links>, cached: seq<int>, key: Word8)
    requires CachedOK(ln, cached, key)
    ensures forall i :: 0 <= i < |cached| ==> cached[i] in ln
  {
    hide Encode;
    forall i | 0 <= i < |cached| ensures cached[i] in ln { assert CachedAt(ln, cached, key, i); }
  }

  function DropActive(s: State, k: nat): State
    requires k < |s.ring|
  {
    var c := s.ring[k];
    s.(pg := s.pg - {c}, ln := Unlink(s.ln, c) - {c}, ring := WithoutAt(s.ring, k))
  }

  /** An empty chunk leaves the ring. */
  lemma DropActiveSound(s: State, k: nat)
    requires Sound(s) && 1 <= k < |s.ring| && s.ring[k] in s.pg && EmptyChunk(s.pg[s.ring[k]])
    ensures s.ring[k] in s.ln && s.ln[s.ring[k]].next in s.ln && s.ln[s.ring[k]].prev in s.ln
    ensures s.ln[s.ln[s.ring[k]].next].prev == s.ring[k] && s.ln[s.ln[s.ring[k]].prev].next == s.ring[k]
    ensures Sound(DropActive(s, k)) && Spare(DropActive(s, k), s.ring[k])
    ensures Blank(s.pg[s.ring[k]].own) && |s.pg[s.ring[k]].info| == PAGES
    ensures Quiet(s.pg) ==> Quiet(DropActive(s, k).pg)
  {
    hide LiveInv, Lists, HugeLive, NodesOK, RegionsOK, PagesOK, RingOK, HomeOK, Blank, Mapped, CachedOK, NoBlocksIn;
    var c := s.ring[k];
    assert PagesOK(s.pg[c]);
    EmptyIsBlank(s.pg[c]);
    BlankNoBlocks(s.pg[c]);
    assert c !in s.cached;
    UnlinkAt(s.ln, s.ring, k);
    var ln2, ring2 := Unlink(s.ln, c), WithoutAt(s.ring, k);
    assert ChunksOK(s.pg - {c}, ring2, s.cached) by { ChunksDropActive(s.pg, s.ring, s.cached, k); }
    assert HomeOK(ln2, ring2) by { HomeUnlink(s.ln, s.ring, k); }
    assert CachedOK(ln2, s.cached, s.key) by { CachedUnlink(s.pg, s.ln, s.ring, s.cached, s.key, k); }
    hide ChunksOK;
    LinksDrop(s.pg, ln2, ring2, s.cached, s.key, c);
    DropSound(s, c, ring2, s.cached, ln2 - {c});
    SpareOf(s, DropActive(s, k), c);
  }

  lemma ChunksDropActive(pg: map<int, Pages>, ring: seq<int>, cached: seq<int>, k: nat)
    requires ChunksOK(pg, ring, cached) && k < |ring| && ring[k] !in WithoutAt(ring, k)
    ensures ChunksOK(pg - {ring[k]}, WithoutAt(ring, k), cached)
  {
    hide PagesOK, Blank, ChunkBase;
    var c, r2 := ring[k], WithoutAt(ring, k);
    forall x | x in pg - {c} ensures ChunkBase(x) && (x in r2 || x in cached) {
      if x in ring {
        var i :| 0 <= i < |ring| && ring[i] == x;
        assert r2[if i < k then i else i - 1] == x;
      }
    }
    forall i | 0 <= i < |r2| ensures r2[i] in pg - {c} && PagesOK((pg - {c})[r2[i]]) {
      assert r2[i] == ring[if i < k then i else i + 1];
      assert r2[i] in r2;
    }
    forall i | 0 <= i < |cached| ensures cached[i] in pg - {c} && cached[i] !in r2 {
      assert cached[i] !in ring && ring[k] in ring;
      forall j | 0 <= j < |r2| ensures r2[j] != cached[i] {
        assert r2[j] == ring[if j < k then j else j + 1];
      }
    }
  }

  lemma HomeUnlink(ln: map<int, Links>, ring: seq<int>, k: nat)
    requires RingOK(ln, ring) && HomeOK(ln, ring) && 1 <= k < |ring|
    requires ring[k] in ln && ln[ring[k]].next in ln && ln[ring[k]].prev in ln
    ensures HomeOK(Unlink(ln, ring[k]), WithoutAt(ring, k))
  {
    hide RingOK;
    var l2, r2 := Unlink(ln, ring[k]), WithoutAt(ring, k);
    forall i | 0 <= i < |r2| && r2[i] in l2 ensures l2[r2[i]].heap == r2[0] + HEAP_OFFSET {
      assert r2[i] == ring[if i < k then i else i + 1];
    }
  }

  lemma CachedUnlink(pg: map<int, Pages>, ln: map<int, Links>, ring: seq<int>, cached: seq<int>, key: Word8, k: nat)
    requires ChunksOK(pg, ring, cached) && RingOK(ln, ring) && CachedOK(ln, cached, key) && 1 <= k < |ring|
    requires ring[k] in ln && ln[ring[k]].next in ln && ln[ring[k]].prev in ln
    ensures CachedOK(Unlink(ln, ring[k]), cached, key)
  {
    hide PagesOK, Blank, ChunkBase, CachedOK;
    assert Linked(ln, ring, k);
    assert After(ring, k) in ring && Before(ring, k) in ring;
    CachedMembers(ln, cached, key);
    hide RingOK;
    assert forall i :: 0 <= i < |cached| ==> cached[i] !in ring;
    CachedSame(ln, Unlink(ln, ring[k]), cached, key);
  }

  // ----- memory regions -----

  /** The operating system adds a region that the heap did not hold. */
  lemma MapSound(s: State, p: int, n: int)
    requires Sound(s) && (forall x :: p <= x < p + n ==> x !in s.mem)
    ensures Sound(s.(mem := AddRegion(s.mem, p, n)))
    ensures SameLive(s.mem, AddRegion(s.mem, p, n), s.live, 0)
  {
    hide LiveInv, HugeLive, LinksOK, ChunksOK, Chain, BinSize, NodeOK, Usable;
    var m2 := AddRegion(s.mem, p, n);
    assert forall a, k :: SameBytes(s.mem, m2, a, k);
    MemoryGrows(s.mem, m2, s.pg, s.slots, s.huge, s.key);
  }

  /** More memory, same contents. */
  lemma MemoryGrows(m: Mem, m2: Mem, pg: map<int, Pages>, slots: Slots, huge: seq<HugeRec>, key: Word8)
    requires forall x :: x in m ==> x in m2 && m2[x] == m[x]
    requires Lists(m, key, slots) && NodesOK(m, huge) && RegionsOK(m, pg, huge)
    ensures Lists(m2, key, slots) && NodesOK(m2, huge) && RegionsOK(m2, pg, huge)
  {
    hide Chain, BinSize, NodeOK;
    forall b | 0 <= b < BINS && b < |slots| ensures Chain(m2, key, BinSize(b), slots[b]) {
      ChainSame(m, m2, key, BinSize(b), slots[b]);
    }
    forall i | 0 <= i < |huge| ensures NodeOK(m2, huge[i], FirstNode(huge[i + 1..])) {
      NodeKept(m, m2, huge[i], FirstNode(huge[i + 1..]));
    }
  }

  /** What the heap uses stays clear of `p..p+n`. */
  ghost predicate Unused(s: State, p: int, n: int) {
    && (forall c :: c in s.pg ==> Apart(p, n, c, CHUNK))
    && (forall i :: 0 <= i < |s.huge| ==> Apart(p, n, s.huge[i].ptr, s.huge[i].size))
  }

  lemma SpareUnused(s: State, c: int)
    requires Sound(s) && Spare(s, c)
    ensures Unused(s, c, CHUNK)
  {
    hide LiveInv, Lists, HugeLive, NodesOK, LinksOK, Mapped, HugeRegion, PagesOK, Blank;
    forall d | d in s.pg ensures Apart(c, CHUNK, d, CHUNK) {
      assert ChunkBase(d);
    }
  }

  /** A region that is not in use goes back to the operating system. */
  lemma UnmapSound(s: State, p: int, n: int)
    requires Sound(s) && Unused(s, p, n)
    ensures Sound(s.(mem := RemoveRegion(s.mem, p, n)))
    ensures SameLive(s.mem, RemoveRegion(s.mem, p, n), s.live, 0)
  {
    hide LiveInv, HugeLive, LinksOK, ChunksOK, Lists, NodesOK, RegionsOK, SameLive, BlockAt, Unused;
    UnmapLive(s, p, n);
    UnmapLists(s, p, n);
    UnmapRegions(s, p, n);
  }

  lemma BlockUnused(s: State, p: int, n: int, a: int)
    requires ChunksOK(s.pg, s.ring, s.cached) && Unused(s, p, n) && BlockAt(s.pg, a) != NoBlock
    ensures SameBytes(s.mem, RemoveRegion(s.mem, p, n), a, Usable(BlockAt(s.pg, a)))
  {
    hide ChunksOK, BlockAt, Usable, ChunksWF;
    ChunksAreWF(s.pg, s.ring, s.cached);
    BlockInChunk(s.pg, a);
    assert Apart(p, n, Base(a), CHUNK);
  }

  lemma UnmapLive(s: State, p: int, n: int)
    requires Sound(s) && Unused(s, p, n)
    ensures SameLive(s.mem, RemoveRegion(s.mem, p, n), s.live, 0)
    ensures NodesOK(RemoveRegion(s.mem, p, n), s.huge)
  {
    hide LinksOK, ChunksOK, Lists, RegionsOK, BlockAt, HeadInfo, Full, NodeOK, SameBytes, Unused, OnList, BinSize;
    var m2 := RemoveRegion(s.mem, p, n);
    forall a | a in s.live ensures SameBytes(s.mem, m2, a, Usable(s.live[a])) {
      assert Owned(s.pg, s.slots, s.live, a);
      if s.live[a].Huge? {
        var i :| 0 <= i < |s.huge| && s.huge[i].ptr == a;
        HugeUnused(s, p, n, i);
        HugeUsable(s.live[a]);
      } else {
        BlockUnused(s, p, n, a);
      }
    }
    forall i | 0 <= i < |s.huge| ensures NodeOK(m2, s.huge[i], FirstNode(s.huge[i + 1..])) {
      assert s.huge[i].node in s.live && s.live[s.huge[i].node] == Small(NODE_BIN);
      SmallUsable(NODE_BIN);
      NodeSize();
      NodeKept(s.mem, m2, s.huge[i], FirstNode(s.huge[i + 1..]));
    }
  }

  lemma HugeUnused(s: State, p: int, n: int, i: int)
    requires Unused(s, p, n) && 0 <= i < |s.huge|
    ensures SameBytes(s.mem, RemoveRegion(s.mem, p, n), s.huge[i].ptr, s.huge[i].size)
  {
    assert Apart(p, n, s.huge[i].ptr, s.huge[i].size);
  }

  lemma UnmapLists(s: State, p: int, n: int)
    requires Sound(s) && Unused(s, p, n)
    ensures Lists(RemoveRegion(s.mem, p, n), s.key, s.slots)
  {
    hide LinksOK, ChunksOK, RegionsOK, BlockAt, HeadInfo, Full, SameBytes, Unused, Owned, Chain, BinSize, HugeLive, NodesOK;
    var m2 := RemoveRegion(s.mem, p, n);
    forall b | 0 <= b < BINS && b < |s.slots| ensures Chain(m2, s.key, BinSize(b), s.slots[b]) {
      assert OnList(s.pg, s.slots, b);
      forall i | 0 <= i < |s.slots[b]| ensures SameBytes(s.mem, m2, s.slots[b][i], BinSize(b)) {
        BlockUnused(s, p, n, s.slots[b][i]);
        SmallUsable(b);
      }
      ChainSame(s.mem, m2, s.key, BinSize(b), s.slots[b]);
    }
  }

  lemma UnmapRegions(s: State, p: int, n: int)
    requires Sound(s) && Unused(s, p, n)
    ensures RegionsOK(RemoveRegion(s.mem, p, n), s.pg, s.huge)
  {
    hide LinksOK, ChunksOK, LiveInv, Lists, HugeLive, NodesOK;
  }

  /** A spare chunk with freshly initialised pages `r` joins the end of the ring. */
  function Attach(s: State, c: int, r: Pages, l: Links): State
    requires |s.ring| > 0
  {
    s.(pg := s.pg[c := r], ln := Insert(s.ln[c := l], c, s.ring[|s.ring| - 1], s.ring[0]), ring := s.ring + [c])
  }

  lemma AttachSound(s: State, c: int, r: Pages, l: Links)
    requires Sound(s) && Spare(s, c) && PagesOK(r) && NoBlocksIn(r)
    requires |s.ring| > 0 && l.heap == s.ring[0] + HEAP_OFFSET
    ensures s.ring[0] in s.ln && s.ring[|s.ring| - 1] in s.ln && c !in s.ring
    ensures s.ln[s.ring[0]].prev == s.ring[|s.ring| - 1]
    ensures Sound(Attach(s, c, r, l))
    ensures Quiet(s.pg) ==> Quiet(Attach(s, c, r, l).pg)
  {
    hide LiveInv, Lists, HugeLive, NodesOK, RegionsOK, PagesOK, RingOK, CachedOK, HomeOK, NoBlocksIn, Mapped, Apart;
    SpareOutside(s, c);
    RingMembers(s.ln, s.ring);
    LinksAttach(s.ln, s.ring, s.cached, s.key, c, l);
    LiveSetChunk(s.pg, s.slots, s.live, c, r);
    RegionsAdd(s, c, r);
    assert ChunksOK(s.pg[c := r], s.ring + [c], s.cached) by { ChunksAttach(s.pg, s.ring, s.cached, c, r); }
    var t := Attach(s, c, r, l);
    assert t.ln.Keys == t.pg.Keys;
  }

  lemma SpareOutside(s: State, c: int)
    requires Sound(s) && Spare(s, c)
    ensures c !in s.ring && c !in s.cached && c !in s.ln && 0 < c
  {
    hide LiveInv, Lists, HugeLive, NodesOK, RegionsOK, PagesOK, RingOK, CachedOK, HomeOK, Blank, Mapped, Apart;
    assert c in s.ln <==> c in s.ln.Keys;
  }

  lemma ChunksAttach(pg: map<int, Pages>, ring: seq<int>, cached: seq<int>, c: int, r: Pages)
    requires ChunksOK(pg, ring, cached) && c !in pg && ChunkBase(c) && PagesOK(r)
    ensures ChunksOK(pg[c := r], ring + [c], cached)
  {
    hide PagesOK, Blank, ChunkBase;
  }

  lemma RegionsAdd(s: State, c: int, r: Pages)
    requires Sound(s) && Spare(s, c)
    ensures RegionsOK(s.mem, s.pg[c := r], s.huge)
  {
    hide LiveInv, Lists, HugeLive, NodesOK, LinksOK, ChunksOK, Mapped, HugeRegion, PagesOK;
  }

  lemma LinksAttach(ln: map<int, Links>, ring: seq<int>, cached: seq<int>, key: Word8, c: int, l: Links)
    requires RingOK(ln, ring) && HomeOK(ln, ring) && CachedOK(ln, cached, key)
    requires c !in ring && c !in cached && l.heap == ring[0] + HEAP_OFFSET
    requires forall i, j :: 0 <= i < |ring| && 0 <= j < |cached| ==> cached[j] != ring[i]
    ensures ring[0] in ln && ring[|ring| - 1] in ln && ln[ring[0]].prev == ring[|ring| - 1]
    ensures var l2 := Insert(ln[c := l], c, ring[|ring| - 1], ring[0]);
      RingOK(l2, ring + [c]) && HomeOK(l2, ring + [c]) && CachedOK(l2, cached, key)
  {
    hide RingOK, CachedOK;
    var l1 := ln[c := l];
    RingMembers(ln, ring);
    CachedMembers(ln, cached, key);
    RingSame(ln, l1, ring);
    InsertLast(l1, ring, c);
    CachedSame(ln, Insert(l1, c, ring[|ring| - 1], ring[0]), cached, key);
  }

  /** A spare chunk with blank pages goes to the head of the cached list. */
  function PutInCache(s: State, c: int, p: Pages, l: Links): State {
    s.(pg := s.pg[c := p], ln := s.ln[c := l], cached := [c] + s.cached)
  }

  lemma PutInCacheSound(s: State, c: int, p: Pages, l: Links)
    requires Sound(s) && Spare(s, c) && Blank(p.own) && |p.info| == PAGES
    requires 0 <= First(s.cached) && l.next == First(s.cached)
    requires l.shadow == Encode(s.key, c + SHADOW_OFFSET, First(s.cached))
    ensures Sound(PutInCache(s, c, p, l))
    ensures Quiet(s.pg) ==> Quiet(PutInCache(s, c, p, l).pg)
  {
    hide LiveInv, Lists, HugeLive, NodesOK, RegionsOK, PagesOK, RingOK, CachedOK, HomeOK, NoBlocksIn, Mapped, Apart, Blank, Encode;
    SpareOutside(s, c);
    RingMembers(s.ln, s.ring);
    CachedMembers(s.ln, s.cached, s.key);
    BlankNoBlocks(p);
    LiveSetChunk(s.pg, s.slots, s.live, c, p);
    RegionsAdd(s, c, p);
    FirstCachedAddress(s);
    var ln2 := s.ln[c := l];
    CachedPush(s.ln, ln2, s.cached, s.key, c);
    RingSame(s.ln, ln2, s.ring);
    HomeSame(s.ln, ln2, s.ring);
    assert ChunksOK(s.pg[c := p], s.ring, [c] + s.cached) by { ChunksPut(s.pg, s.ring, s.cached, c, p); }
    assert ln2.Keys == s.pg[c := p].Keys;
  }

  lemma HomeSame(ln: map<int, Links>, ln2: map<int, Links>, ring: seq<int>)
    requires HomeOK(ln, ring)
    requires forall i :: 0 <= i < |ring| && ring[i] in ln2 ==> ring[i] in ln && ln2[ring[i]].heap == ln[ring[i]].heap
    ensures HomeOK(ln2, ring)
  {}

  lemma FirstCachedAddress(s: State)
    requires Sound(s)
    ensures IsAddress(First(s.cached)) && First(s.cached) % CHUNK == 0
  {
    hide LiveInv, Lists, HugeLive, NodesOK, RegionsOK, LinksOK, PagesOK, Blank;
    if s.cached != [] { assert s.cached[0] in s.pg && ChunkBase(s.cached[0]); }
  }

  lemma ChunksPut(pg: map<int, Pages>, ring: seq<int>, cached: seq<int>, c: int, p: Pages)
    requires ChunksOK(pg, ring, cached) && c !in pg && ChunkBase(c) && Blank(p.own) && |p.info| == PAGES
    ensures ChunksOK(pg[c := p], ring, [c] + cached)
  {
    hide PagesOK, ChunkBase, Blank;
    assert c !in ring;
    var k := [c] + cached;
    forall x | x in pg[c := p] ensures ChunkBase(x) && (x in ring || x in k) {
      if x in cached {
        var i :| 0 <= i < |cached| && cached[i] == x;
        assert k[i + 1] == x;
      }
      if x == c { assert k[0] == c; }
    }
  }

  // ----- what a change of the cache leaves alone -----

  /** The active chunks, the lists and the blocks are the same. */
  ghost predicate SameActive(s: State, t: State)
    ensures SameActive(s, t) ==>
      t.ring == s.ring && t.slots == s.slots && t.huge == s.huge && t.live == s.live && t.key == s.key
  {
    && t.ring == s.ring && t.slots == s.slots && t.huge == s.huge && t.live == s.live && t.key == s.key
    && (forall c :: c in s.ring ==> c in s.pg && c in t.pg && t.pg[c] == s.pg[c])
    && (Quiet(s.pg) ==> Quiet(t.pg))
    && SameLive(s.mem, t.mem, s.live, 0)
  }

  lemma SameActiveChain(s: State, t: State, u: State)
    requires SameActive(s, t) && SameActive(t, u)
    ensures SameActive(s, u)
  {
    hide Quiet;
    forall x | x in s.live && x != 0 ensures SameBytes(s.mem, u.mem, x, Usable(s.live[x])) {
      SameBytesChain(s.mem, t.mem, u.mem, x, Usable(s.live[x]));
    }
  }

  lemma RingHeld(s: State)
    requires Sound(s)
    ensures forall c :: c in s.ring ==> c in s.pg
    ensures forall i :: 0 <= i < |s.cached| ==> 0 < s.cached[i] && s.cached[i] in s.pg && s.cached[i] !in s.ring
  {
    hide LiveInv, Lists, HugeLive, NodesOK, RegionsOK, LinksOK, PagesOK, Blank;
  }

  lemma SamePut(s: State, c: int, p: Pages, l: Links)
    requires Sound(s) && c !in s.pg && (Quiet(s.pg) ==> Quiet(PutInCache(s, c, p, l).pg))
    ensures SameActive(s, PutInCache(s, c, p, l))
  {
    hide Sound, Quiet;
    RingHeld(s);
  }

  lemma SameDrop(s: State)
    requires Sound(s) && s.cached != [] && (Quiet(s.pg) ==> Quiet(DropCached(s).pg))
    ensures SameActive(s, DropCached(s))
  {
    hide Sound, Quiet;
    RingHeld(s);
    assert s.cached[0] !in s.ring;
  }

  lemma SameMem(s: State, m2: Mem)
    requires Sound(s) && SameLive(s.mem, m2, s.live, 0)
    ensures SameActive(s, s.(mem := m2))
  {
    hide Sound, Quiet, SameLive;
    RingHeld(s);
  }

  /** Any relinking that keeps the ring, its members' home and the cached links. */
  lemma RelinkSound(s: State, ln2: map<int, Links>, ring2: seq<int>)
    requires Sound(s) && ln2.Keys == s.ln.Keys
    requires RingOK(ln2, ring2) && HomeOK(ln2, ring2) && CachedOK(ln2, s.cached, s.key)
    requires |ring2| == |s.ring| && (forall c :: c in ring2 <==> c in s.ring)
    ensures Sound(s.(ln := ln2, ring := ring2))
  {
    hide LiveInv, Lists, HugeLive, NodesOK, RegionsOK, PagesOK, RingOK, CachedOK, HomeOK, Blank, ChunkBase;
    ChunksRelink(s.pg, s.ring, s.cached, ring2);
    hide ChunksOK;
    LinksAre(s.pg, ln2, ring2, s.cached, s.key);
  }

  lemma LinksAre(pg: map<int, Pages>, ln: map<int, Links>, ring: seq<int>, cached: seq<int>, key: Word8)
    requires ln.Keys == pg.Keys && RingOK(ln, ring) && HomeOK(ln, ring) && CachedOK(ln, cached, key)
    ensures LinksOK(pg, ln, ring, cached, key)
  {
    hide RingOK, HomeOK, CachedOK;
  }

  lemma ChunksRelink(pg: map<int, Pages>, ring: seq<int>, cached: seq<int>, ring2: seq<int>)
    requires ChunksOK(pg, ring, cached)
    requires forall c :: c in ring2 <==> c in ring
    ensures ChunksOK(pg, ring2, cached)
  {
    hide PagesOK, Blank, ChunkBase;
    forall c | c in pg ensures ChunkBase(c) && (c in ring2 || c in cached) {
      assert c in ring || c in cached;
    }
    forall i | 0 <= i < |ring2| ensures ring2[i] in pg && PagesOK(pg[ring2[i]]) {
      assert ring2[i] in ring2;
      InRing(pg, ring, cached, ring2[i]);
    }
    forall i | 0 <= i < |cached| ensures cached[i] !in ring2 {
      var c := cached[i];
      assert c in ring2 <==> c in ring;
    }
  }

  function ToFront(r: seq<int>, k: int): (q: seq<int>)
    requires 1 <= k < |r|
    ensures |q| == |r|
  {
    [r[0], r[k]] + WithoutAt(r, k)[1..]
  }

  lemma ToFrontMembers(r: seq<int>, k: int)
    requires 1 <= k < |r|
    ensures forall c :: c in ToFront(r, k) <==> c in r
  {
    var w, q := WithoutAt(r, k), ToFront(r, k);
    forall c | c in r ensures c in q {
      var i :| 0 <= i < |r| && r[i] == c;
      assert q[if i == 0 then 0 else if i == k then 1 else if i < k then i + 1 else i] == c;
    }
    forall c | c in q ensures c in r {
      var i :| 0 <= i < |q| && q[i] == c;
      if i >= 2 { assert q[i] == w[1..][i - 2] == w[i - 1]; }
      assert r[if i == 0 then 0 else if i == 1 then k else if i <= k then i - 1 else i] == c;
    }
  }

  /** The links after moving chunk `c` right behind the main chunk `m`. */
  function MoveLinks(ln: map<int, Links>, c: int, m: int): map<int, Links>
    requires c in ln && m in ln && ln[c].next in ln && ln[c].prev in ln
    requires Unlink(ln, c)[m].next in ln
  {
    Insert(Unlink(ln, c), c, m, Unlink(ln, c)[m].next)
  }

  lemma MoveSound(s: State, k: nat)
    requires Sound(s) && 1 <= k < |s.ring|
    ensures var c := s.ring[k]; var m := s.ring[0];
      && c in s.ln && m in s.ln && s.ln[c].next in s.ln && s.ln[c].prev in s.ln
      && s.ln[s.ln[c].next].prev == c && s.ln[s.ln[c].prev].next == c
      && Unlink(s.ln, c)[m].next in s.ln
      && Sound(s.(ln := MoveLinks(s.ln, c, m), ring := ToFront(s.ring, k)))
  {
    hide LiveInv, Lists, HugeLive, NodesOK, RegionsOK, PagesOK, RingOK, CachedOK, HomeOK, Blank, ChunkBase;
    var c := s.ring[k];
    RingMembers(s.ln, s.ring);
    UnlinkAt(s.ln, s.ring, k);
    var l1, r1 := Unlink(s.ln, c), WithoutAt(s.ring, k);
    InsertSecond(l1, r1, c);
    ToFrontMembers(s.ring, k);
    assert ToFront(s.ring, k) == [r1[0], c] + r1[1..];
    CachedUnlink(s.pg, s.ln, s.ring, s.cached, s.key, k);
    var l2 := MoveLinks(s.ln, c, s.ring[0]);
    MoveCached(s, l1, l2, r1, k);
    HomeMove(s.ln, l2, s.ring, k);
    RelinkSound(s, l2, ToFront(s.ring, k));
  }

  lemma MoveCached(s: State, l1: map<int, Links>, l2: map<int, Links>, r1: seq<int>, k: nat)
    requires ChunksOK(s.pg, s.ring, s.cached) && 1 <= k < |s.ring| && CachedOK(l1, s.cached, s.key)
    requires RingOK(l1, r1) && r1 == WithoutAt(s.ring, k) && s.ring[k] in l1
    requires r1[0] in l1 && After(r1, 0) in l1 && l2 == Insert(l1, s.ring[k], r1[0], After(r1, 0))
    ensures CachedOK(l2, s.cached, s.key)
  {
    hide PagesOK, Blank, ChunkBase, CachedOK, RingOK;
    assert r1[0] == s.ring[0];
    assert After(r1, 0) in s.ring;
    CachedMembers(l1, s.cached, s.key);
    assert forall i :: 0 <= i < |s.cached| ==> s.cached[i] !in s.ring;
    CachedSame(l1, l2, s.cached, s.key);
  }

  lemma HomeMove(ln: map<int, Links>, l2: map<int, Links>, ring: seq<int>, k: nat)
    requires RingOK(ln, ring) && HomeOK(ln, ring) && 1 <= k < |ring|
    requires ring[k] in ln && ring[0] in ln && ln[ring[k]].next in ln && ln[ring[k]].prev in ln
    requires Unlink(ln, ring[k])[ring[0]].next in ln && l2 == MoveLinks(ln, ring[k], ring[0])
    ensures HomeOK(l2, ToFront(ring, k))
  {
    hide RingOK;
    RingMembers(ln, ring);
    ToFrontMembers(ring, k);
    var q := ToFront(ring, k);
    forall i | 0 <= i < |q| && q[i] in l2 ensures l2[q[i]].heap == q[0] + HEAP_OFFSET {
      assert q[i] in ring;
      var j :| 0 <= j < |ring| && ring[j] == q[i];
      assert ln[ring[j]].heap == ring[0] + HEAP_OFFSET;
    }
  }

  // ----- huge blocks -----

  /** Adding a huge block recorded in the node block `rec.node`; memory `m2` holds the node. */
  function AddHuge(s: State, rec: HugeRec, m2: Mem): State
    requires 0 <= rec.size
  {
    s.(huge := [rec] + s.huge, live := s.live[rec.ptr := Huge(rec.size)], mem := m2)
  }

  lemma AddHugeSound(s: State, rec: HugeRec, m2: Mem)
    requires Sound(s) && HugeRegion(s.mem, rec) && Unused(s, rec.ptr, rec.size)
    requires rec.node in s.live && s.live[rec.node] == Small(NODE_BIN) && !IsNode(s.huge, rec.node)
    requires rec.ptr !in s.live
    requires OnlyInside(s.mem, m2, rec.node, NODE_SIZE) && NodeOK(m2, rec, FirstNode(s.huge))
    requires 0 <= rec.size
    ensures Sound(AddHuge(s, rec, m2)) && SameLive(s.mem, m2, s.live, rec.node)
  {
    assert m2.Keys == s.mem.Keys;
    hide LiveInv, Lists, HugeLive, NodesOK, RegionsOK, LinksOK, PagesOK, HugeRegion, Unused, IsNode, NodeOK, BlockAt,
      SameLive, SameBytes, OnlyInside, ChunksWF, BinSize, ChunksOK, Chain;
    LiveSmall(s, NODE_BIN, rec.node);
    NodeSize();
    SmallUsable(NODE_BIN);
    forall d | 0 <= d < BINS ensures rec.node !in s.slots[d] { LiveNotFree(s.pg, s.slots, s.live, rec.node, d); }
    WriteKeeps(s.pg, s.slots, s.live, s.huge, s.key, s.mem, m2, rec.node);
    assert rec.ptr % CHUNK == 0 by { RegionFacts(s.mem, rec); }
    LiveHugeAdd(s.pg, s.slots, s.live, rec.ptr, rec.size);
    HugeLiveAdd(s, rec);
    NodesAdd(s.huge, m2, rec);
    RegionsAddHuge(s, rec, m2);
    assert NoTiny(s.live[rec.ptr := Huge(rec.size)]);
  }

  lemma RegionFacts(m: Mem, h: HugeRec)
    requires HugeRegion(m, h)
    ensures h.ptr % CHUNK == 0 && 0 < h.ptr && 0 < h.size && h.ptr + h.size <= ADDRESS_LIMIT && h.size % PAGE == 0
  {}

  lemma HugeLiveAdd(s: State, rec: HugeRec)
    requires HugeLive(s.huge, s.live) && 0 <= rec.size
    requires rec.node in s.live && s.live[rec.node] == Small(NODE_BIN) && !IsNode(s.huge, rec.node)
    requires rec.ptr !in s.live
    ensures HugeLive([rec] + s.huge, s.live[rec.ptr := Huge(rec.size)])
  {
    var h2, l2 := [rec] + s.huge, s.live[rec.ptr := Huge(rec.size)];
    forall a | a in l2 && l2[a].Huge? ensures IsHuge(h2, a) {
      if a == rec.ptr {
        assert h2[0].ptr == a;
      } else {
        var i :| 0 <= i < |s.huge| && s.huge[i].ptr == a;
        assert h2[i + 1].ptr == a;
      }
    }
    assert forall i :: 0 <= i < |s.huge| ==> s.huge[i].node != rec.node;
  }

  lemma NodesAdd(huge: seq<HugeRec>, m: Mem, rec: HugeRec)
    requires NodesOK(m, huge) && NodeOK(m, rec, FirstNode(huge))
    ensures NodesOK(m, [rec] + huge)
  {
    hide NodeOK;
    var h2 := [rec] + huge;
    forall i | 0 <= i < |h2| ensures NodeOK(m, h2[i], FirstNode(h2[i + 1..])) {
      if i == 0 { assert h2[1..] == huge; } else { assert h2[i + 1..] == huge[i..]; }
    }
  }

  lemma RegionsAddHuge(s: State, rec: HugeRec, m2: Mem)
    requires RegionsOK(m2, s.pg, s.huge) && HugeRegion(s.mem, rec) && Unused(s, rec.ptr, rec.size) && m2.Keys == s.mem.Keys
    ensures RegionsOK(m2, s.pg, [rec] + s.huge)
  {
    MappedKept(s.mem, m2, rec.ptr, rec.size);
    hide Mapped;
  }
}
