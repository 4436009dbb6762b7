/** Release of blocks of any size, and what an address tells about its block. */
module FreeCalls {
  import opened Sizes
  import opened Pages
  import opened Memory
  import opened Blocks
  import opened Live
  import opened FreeLists
  import opened Chunks
  import opened Rings
  import opened HeapModel
  import opened HeapState
  import opened HugeSteps
  import opened HeaderTable
  import opened Collecting
  import opened Collectors
  import opened Heaps
  import opened PageAllocs
  import opened SmallRuns
  import opened LargeRuns
  import opened HeapCalls

  // ----- decoding an address -----

  /** A live block that is not huge: where it lies and what the page map says there. */
  lemma LiveBlock(s: State, p: int)
    requires Sound(s) && p in s.live && !s.live[p].Huge?
    ensures var c := Base(p);
      && p % CHUNK != 0 && c in s.ring && c in s.pg && PagesWF(s.pg[c]) && PagesOK(s.pg[c]) && |s.pg[c].own| == |s.pg[c].info| == PAGES
      && BlockIn(s.pg[c], p % CHUNK) == s.live[p] && s.live[p] != NoBlock
      && |s.ring| > 0 && c in s.ln && s.ln[c].heap == s.ring[0] + HEAP_OFFSET
  {
    hide Lists, NodesOK, RegionsOK, OnList, HeadInfo, Full, PagesOK, ChunkBase, CachedOK, RingOK, Blank, BlockIn, PagesWF;
    ChunksAreWF(s.pg, s.ring, s.cached);
    assert Owned(s.pg, s.slots, s.live, p);
    BlockInRing(s.pg, s.ring, s.cached, p);
    InRing(s.pg, s.ring, s.cached, Base(p));
    BlockInChunk(s.pg, p);
    RingMembers(s.ln, s.ring);
  }

  /** The label of a large block is on its first page. */
  lemma LargeLabel(p: Pages, off: int, n: nat)
    requires PagesWF(p) && 0 <= off < CHUNK && BlockIn(p, off) == Large(n)
    ensures |p.own| == |p.info| == PAGES && 1 <= off / PAGE < PAGES && off % PAGE == 0
    ensures p.own[off / PAGE] == off / PAGE && p.info[off / PAGE] == LRun(n)
  {
    hide CountFree, ElementAt, Blank;
    BlockRun(p, off);
  }

  /** What the label of the page says about the block. */
  ghost predicate Names(info: PageInfo, k: Block) {
    match k
    case Small(b) => (info.SRun? || info.NRun?) && info.bin == b
    case Large(n) => info == LRun(n)
    case _ => false
  }

  /** Chunk, page and label of a live block that is not huge. */
  method Identify(h: Heap, p: int) returns (c: int, page: nat, info: PageInfo)
    requires h.Ready() && p in h.s.live && !h.s.live[p].Huge?
    ensures p % CHUNK != 0 && Names(info, h.s.live[p])
    ensures info.LRun? ==> p % PAGE == 0 && LargeRun(h.s, c, page, info.pages) && p == PageAddr(c, page)
  {
    hide Sound, Headers.Valid, Clear, Heap.Heads, Heap.Account, Settled, PagesOK, PagesWF, BlockIn;
    LiveBlock(h.s, p);
    HeapFacts(h);
    c, page := Base(p), PageOf(p);
    info := h.hm.Label(c, page);
    assert h.hm.Get(c).heap == h.mainChunk + HEAP_OFFSET;   // ZEND_MM_CHECK
    if h.s.live[p].Small? {
      SmallLabel(h.s.pg[c], p % CHUNK);
    } else {
      assert h.s.live[p].Large?;
      LargeLabel(h.s.pg[c], p % CHUNK, h.s.live[p].pages);
    }
  }

  // ----- the huge list -----

  /** Where a huge block is recorded. */
  lemma HugeIndex(s: State, p: int) returns (i: nat)
    requires Sound(s) && p in s.live && s.live[p].Huge?
    ensures i < |s.huge| && s.huge[i].ptr == p && s.live[p] == Huge(s.huge[i].size)
    ensures forall j :: 0 <= j < |s.huge| && s.huge[j].ptr == p ==> j == i
  {
    hide LiveInv, Lists, NodesOK, RegionsOK, LinksOK, ChunksOK, IsNode;
    assert IsHuge(s.huge, p);
    i :| i < |s.huge| && s.huge[i].ptr == p;
  }

  /** The fields of list node `i` in memory. */
  lemma NodeFields(s: State, i: nat)
    requires Sound(s) && i < |s.huge|
    ensures var a := s.huge[i].node;
      && 0 < a && Mapped(s.mem, a, 8) && Mapped(s.mem, a + 8, 8) && Mapped(s.mem, a + 16, 8)
      && LoadPtr(s.mem, a) == s.huge[i].ptr && LoadPtr(s.mem, a + 8) == s.huge[i].size
      && LoadPtr(s.mem, a + 16) == FirstNode(s.huge[i + 1..])
  {
    hide Sound, Mapped, LoadPtr, HugeRegion;
    NodeFacts(s, i);
    NodeRoom(s.mem, s.huge[i].node);
  }

  lemma NodeAt(s: State, k: nat)
    requires Sound(s) && k < |s.huge|
    ensures FirstNode(s.huge[k..]) == s.huge[k].node && 0 < s.huge[k].node
  {
    hide Sound, LoadPtr, Mapped;
    NodeFields(s, k);
  }

  /** zend_mm_check_huge_block_size holds for every recorded size. */
  lemma SizeChecked(h: Heap, i: nat)
    requires h.Ready() && i < |h.s.huge| && 0 <= h.floating
    ensures h.s.huge[i].size != 0 && h.s.huge[i].size % PAGE == 0 && h.s.huge[i].size <= h.realSize
  {
    hide Sound, Headers.Valid, Clear, Settled, SumHuge, Heap.Tables, Heap.Heads;
    SizeInSum(h.s, i);
  }

  /** zend_mm_get_huge_block_size */
  method HugeSize(h: Heap, p: int) returns (n: int)
    requires h.Ready() && p in h.s.live && h.s.live[p].Huge? && 0 <= h.floating
    ensures 0 < n && h.s.live[p] == Huge(n)
  {
    hide Sound, Headers.Valid, Clear, Heap.Heads, Heap.Account, Settled, Mapped, LoadPtr, SumHuge;
    ghost var i := HugeIndex(h.s, p);
    ghost var k := 0;
    NodeHead(h);
    assert h.s.huge[0..] == h.s.huge;
    var list := h.hugeList;
    while list != 0
      invariant 0 <= k <= i && list == FirstNode(h.s.huge[k..])
      decreases i - k
    {
      NodeAt(h.s, k);
      NodeFields(h.s, k);
      if LoadPtr(h.mem, list) == p {
        n := LoadPtr(h.mem, list + 8);
        SizeChecked(h, k);
        assert n != 0 && n % PAGE == 0 && n <= h.realSize;   // ZEND_MM_CHECK
        return;
      }
      list := LoadPtr(h.mem, list + 16);
      k := k + 1;
    }
    NodeAt(h.s, k);
    assert false;   // ZEND_MM_CHECK(0): every huge block is on the list
    n := 0;
  }

  /** Taking record `i` out of the list: its block is no longer live, its node still is. */
  lemma DropFacts(s: State, i: nat, m2: Mem, size: int)
    requires Sound(s) && Settled(s) && i < |s.huge| && Relinked(s, i, m2)
    ensures var t := DropHuge(s, i, m2); var a := s.huge[i].node; var p := s.huge[i].ptr; var n := s.huge[i].size;
      && Sound(t) && Settled(t) && Unused(t, p, n) && a in t.live && t.live[a] == Small(NODE_BIN) && !IsNode(t.huge, a)
      && UserKept(s, t, p) && User(s) == User(t)[p := Huge(n)] - {a} && a in User(t) && a !in User(s) && p !in User(t) && p in User(s)
      && Mapped(t.mem, p, n) && Drift(size - n, t) == Drift(size, s) && t.mem.Keys == s.mem.Keys
  {
    hide LiveInv, Lists, HugeLive, NodesOK, RegionsOK, LinksOK, ChunksOK, Quiet, NonEmpty, Relinked, Unused, SameLive, IsNode, SumUsable, Mapped;
    var t := DropHuge(s, i, m2);
    DropHugeSound(s, i, m2);
    NodeFacts(s, i);
    RelinkedKeys(s, i, m2);
    RegionFacts(s.mem, s.huge[i]);
    MappedKept(s.mem, m2, s.huge[i].ptr, s.huge[i].size);
    DropUser(s, t, i);
    DropBytes(s, t, i);
    SumRemove(s.live, s.huge[i].ptr);
  }

  lemma RelinkedKeys(s: State, i: nat, m2: Mem)
    requires i < |s.huge| && Relinked(s, i, m2)
    ensures m2.Keys == s.mem.Keys
  {
    hide NodeOK;
  }

  lemma DropUser(s: State, t: State, i: nat)
    requires Sound(s) && i < |s.huge| && t.huge == WithoutAt(s.huge, i) && t.live == s.live - {s.huge[i].ptr}
    ensures var a := s.huge[i].node; var p := s.huge[i].ptr;
      User(s) == User(t)[p := Huge(s.huge[i].size)] - {a} && a in User(t) && a !in User(s) && p !in User(t) && p in User(s)
  {
    hide LiveInv, Lists, HugeLive, NodesOK, RegionsOK, LinksOK, ChunksOK, IsNode;
    NodeFacts(s, i);
    HugeLiveDrop(s.huge, s.live, i);
    HugeNotNode(s, i);
    forall x ensures IsNode(s.huge, x) <==> x == s.huge[i].node || IsNode(t.huge, x) { NodeDropped(s.huge, i, x); }
  }

  lemma HugeNotNode(s: State, i: nat)
    requires Sound(s) && i < |s.huge|
    ensures !IsNode(s.huge, s.huge[i].ptr) && s.huge[i].ptr != s.huge[i].node
  {
    hide LiveInv, Lists, NodesOK, RegionsOK, LinksOK, ChunksOK;
    NodeIsLive(s.huge, s.live, s.huge[i].ptr);
  }

  lemma NodeDropped(huge: seq<HugeRec>, i: nat, x: int)
    requires i < |huge|
    ensures IsNode(huge, x) <==> x == huge[i].node || IsNode(WithoutAt(huge, i), x)
  {
    var h2 := WithoutAt(huge, i);
    if IsNode(huge, x) && x != huge[i].node {
      var j :| 0 <= j < |huge| && huge[j].node == x;
      assert h2[if j < i then j else j - 1].node == x;
    }
    if IsNode(h2, x) {
      var j :| 0 <= j < |h2| && h2[j].node == x;
      assert huge[if j < i then j else j + 1].node == x;
    }
  }

  lemma DropBytes(s: State, t: State, i: nat)
    requires Sound(s) && i < |s.huge| && SameLive(s.mem, t.mem, s.live, if i == 0 then 0 else s.huge[i - 1].node)
    ensures UserKept(s, t, s.huge[i].ptr)
  {
    hide LiveInv, Lists, HugeLive, NodesOK, RegionsOK, LinksOK, ChunksOK, SameBytes, Usable;
    ZeroNotLive(s);
    if i > 0 { NodeFacts(s, i - 1); }
  }

  /** The node has been freed too. */
  lemma NodeFreed(s: State, t: State, u: State, p: int, k: Block, node: int)
    requires User(s) == User(t)[p := k] - {node} && node !in User(s) && p !in User(t) && p in User(s) && node in User(t) && p != node
    requires UserKept(s, t, p) && Freed(t, u, node) && Sound(t) && t.key == s.key
    ensures GivenBack(s, u, p)
  {
    hide Sound, SameBytes, Usable, IsNode;
    GivenOne(t, u, node);
    UserAfter(s, t, u, p, k, node);
    forall x | x in User(s) && x != p ensures SameBytes(s.mem, u.mem, x, Usable(s.live[x])) {
      UserSame(s, t, p, k, node, x);
      SameBytesChain(s.mem, t.mem, u.mem, x, Usable(s.live[x]));
    }
  }

  lemma UserSame(s: State, t: State, p: int, k: Block, node: int, x: int)
    requires User(s) == User(t)[p := k] - {node} && x in User(s) && x != p
    ensures x in User(t) && x != node && t.live[x] == s.live[x] && x in t.live
  {
    hide IsNode;
    assert User(s)[x] == User(t)[x];
  }

  lemma UserAfter(s: State, t: State, u: State, p: int, k: Block, node: int)
    requires User(s) == User(t)[p := k] - {node} && p !in User(t) && p != node && User(u) == User(t) - {node}
    ensures User(u) == User(s) - {p}
  {
    hide User;
  }

  // ----- release -----

  /** A caller may give back what it holds. */
  ghost predicate Held(s: State, p: int) {
    p in s.live && !IsNode(s.huge, p)
  }

  /** A small block is pushed on its list. */
  method FreeSmallBlock(h: Heap, p: int, b: nat)
    requires h.Ready() && b < BINS && p in h.s.live && h.s.live[p] == Small(b) && !IsNode(h.s.huge, p)
    modifies h`size, h`s, h`mem, h.freeSlot
    ensures h.Ready() && Freed(old(h.s), h.s, p) && h.s.pg == old(h.s).pg && h.s.mem.Keys == old(h.s).mem.Keys
    ensures Drift(h.size, h.s) == Drift(old(h.size), old(h.s)) && h.hm.objs == old(h.hm.objs)
    ensures h.size <= old(h.size)
  {
    hide Sound, Headers.Valid, Clear, Heap.Heads, Heap.Account, Settled, SumHuge, IsNode, BinSize, Freed, Drift, SetNext, Heap.Tables, Push, BIN_SIZE;
    ghost var s := h.s;
    SlotFacts(h, b);
    ClassSmall(s, p, b);
    h.FreeSmall(p, b);
    BinFacts(b);
    SlotFacts(h, b);
    PushFreed(s, h.s, b, p);
    LiveAddress(s, p);
    DriftRemove(s, h.s, p, old(h.size));
    SmallUsable(b);
  }

  lemma ClassSmall(s: State, p: int, b: nat)
    requires Sound(s) && b < BINS && p in s.live && s.live[p] == Small(b)
    ensures 1 <= b && 0 < p
  {
    hide Sound;
    LiveSmall(s, b, p);
  }

  lemma PushFreed(s: State, t: State, b: nat, p: int)
    requires |s.slots| == BINS && b < BINS && 0 <= p && 0 <= First(s.slots[b]) && t == Push(s, b, p)
    requires SameLive(s.mem, t.mem, s.live, p) && Sound(s)
    ensures Freed(s, t, p) && t.pg == s.pg && t.mem.Keys == s.mem.Keys && t.live == s.live - {p}
  {
    hide Sound, SameBytes, Usable, BinSize;
    ZeroNotLive(s);
    forall x | x in t.live && x != 0 ensures SameBytes(s.mem, t.mem, x, Usable(t.live[x])) {
      assert x in s.live && x != p && s.live[x] == t.live[x];
    }
    hide SetNext;
  }

  /** The node that records huge block `p`, and the node before it. */
  method FindHuge(h: Heap, p: int) returns (prev: int, list: int, ghost k: nat)
    requires h.Ready() && p in h.s.live && h.s.live[p].Huge?
    ensures k < |h.s.huge| && h.s.huge[k].ptr == p && list == h.s.huge[k].node && 0 < list
    ensures h.s.live[p] == Huge(h.s.huge[k].size) && prev == (if k == 0 then 0 else h.s.huge[k - 1].node)
  {
    hide Sound, Headers.Valid, Clear, Heap.Heads, Heap.Account, Settled, Mapped, LoadPtr, SumHuge;
    ghost var i := HugeIndex(h.s, p);
    k := 0;
    NodeHead(h);
    assert h.s.huge[0..] == h.s.huge;
    prev, list := 0, h.hugeList;
    while list != 0
      invariant 0 <= k <= i && list == FirstNode(h.s.huge[k..]) && prev == (if k == 0 then 0 else h.s.huge[k - 1].node)
      decreases i - k
    {
      NodeAt(h.s, k);
      NodeFields(h.s, k);
      if LoadPtr(h.mem, list) == p { return; }
      prev, list := list, LoadPtr(h.mem, list + 16);
      k := k + 1;
    }
    NodeAt(h.s, k);
    assert false;   // ZEND_MM_CHECK(0): every huge block is on the list
  }

  /** The record of huge block `p` leaves the list; its node is freed. */
  method DelHugeBlock(h: Heap, p: int) returns (n: int)
    requires h.Ready() && Held(h.s, p) && h.s.live[p].Huge? && 0 <= h.floating
    modifies h`s, h`mem, h`size, h`realSize, h`chunksCount, h`cachedChunks, h`cachedChunksCount, h`hugeList, h`floating,
      h`lastDeleteBoundary, h`lastDeleteCount, h.hm, h.hm.objs, h.freeSlot
    ensures h.Ready() && h.hm.objs == old(h.hm.objs) && h.realSize <= old(h.realSize)
    ensures 0 < n && n % PAGE == 0 && old(h.s).live[p] == Huge(n) && h.floating == old(h.floating) + n
    ensures GivenBack(old(h.s), h.s, p) && Unused(h.s, p, n) && Mapped(h.s.mem, p, n)
    ensures Drift(h.size - n, h.s) == Drift(old(h.size), old(h.s))
    ensures h.size <= old(h.size)
    decreases 1, 0
  {
    hide Sound, Headers.Valid, Clear, Heap.Heads, Heap.Account, Heap.Tables, Settled, Mapped, LoadPtr, StorePtr, SumHuge, Freed, GivenBack, Drift, Unused, IsNode, User,
      UserKept, Relinked, NodeOK;
    ghost var s := h.s;
    var prev, list, k := FindHuge(h, p);
    NodeFields(s, k);
    SizeInSum(s, k);
    SlotFacts(h, 0);
    n := LoadPtr(h.mem, list + 8);
    RelinkHuge(h, k, prev, LoadPtr(h.mem, list + 16));
    ghost var t := h.s;
    DropFacts(s, k, t.mem, h.size);
    SlotFacts(h, 0);
    NodeInside(t, list);
    FreeHeap(h, list);
    HugeNotNode(s, k);
    NodeFreed(s, t, h.s, p, Huge(n), list);
    UnusedKept(t, h.s, p, n);
    MappedKept(t.mem, h.s.mem, p, n);
    DriftLess(t, h.s, old(h.size), h.size, n);
  }

  lemma NodeInside(t: State, a: int)
    requires Sound(t) && a in t.live && t.live[a] == Small(NODE_BIN)
    ensures a % CHUNK != 0
  {
    hide Sound;
    LiveSmall(t, NODE_BIN, a);
  }

  lemma UnusedKept(t: State, u: State, p: int, n: int)
    requires Unused(t, p, n) && u.pg == t.pg && u.huge == t.huge
    ensures Unused(u, p, n)
  {}

  lemma DriftLess(t: State, u: State, size0: int, size: int, n: int)
    requires Drift(size, u) == Drift(size0, t)
    ensures Drift(size - n, u) == Drift(size0 - n, t)
  {}

  /** prev->next = next */
  method WriteNext(h: Heap, ghost s: State, ghost k: nat, prev: int, next: int)
    requires Sound(s) && 0 < k < |s.huge| && prev == s.huge[k - 1].node && 0 <= prev && h.mem == s.mem && Clear(h.reserved, h.mem)
    requires next == FirstNode(s.huge[k + 1..]) && IsAddress(next)
    modifies h`mem
    ensures Relinked(s, k, h.mem) && Clear(h.reserved, h.mem)
  {
    hide Sound, Clear, StorePtr, NodeOK, OnlyInside;
    NodeFacts(s, k - 1);
    RelinkNode(s.mem, s.huge[k - 1], FirstNode(s.huge[k..]), next);
    h.mem := StorePtr(h.mem, prev + 16, next);
    InsideSameKeys(s.mem, h.mem, prev, NODE_SIZE);
    ClearSame(h.reserved, s.mem, h.mem);
  }

  /** prev->next = list->next, or the head of the list moves on. */
  method RelinkHuge(h: Heap, ghost k: nat, prev: int, next: int)
    requires h.Ready() && k < |h.s.huge| && prev == (if k == 0 then 0 else h.s.huge[k - 1].node)
    requires next == FirstNode(h.s.huge[k + 1..])
    modifies h`s, h`mem, h`hugeList, h`floating
    ensures h.Ready() && Relinked(old(h.s), k, h.s.mem) && h.s == DropHuge(old(h.s), k, h.s.mem)
    ensures h.floating == old(h.floating) + old(h.s).huge[k].size
  {
    hide Sound, Headers.Valid, Clear, Heap.Heads, Heap.Account, Settled, SumHuge, Relinked, Drift, User, UserKept, Unused, IsNode, Mapped;
    ghost var s := h.s;
    RestAddress(s, k);
    if k > 0 { NodeAt(s, k - 1); }
    if prev != 0 {
      WriteNext(h, s, k, prev, next);
      KeepHead(h, s, k);
    } else {
      DropHead(h, s, next);
      RelinkedFirst(s);
    }
    DropFacts(s, k, h.mem, 0);
    SizeInSum(s, k);
    h.s, h.floating := DropHuge(s, k, h.mem), h.floating + s.huge[k].size;
  }

  lemma RelinkedFirst(s: State)
    requires s.huge != []
    ensures Relinked(s, 0, s.mem)
  {}

  lemma RestAddress(s: State, k: nat)
    requires Sound(s) && k < |s.huge|
    ensures IsAddress(FirstNode(s.huge[k + 1..]))
  {
    hide Sound;
    if k + 1 < |s.huge| {
      NodeFacts(s, k + 1);
      LiveAddress(s, s.huge[k + 1].node);
      assert s.huge[k + 1..][0] == s.huge[k + 1];
    }
  }

  lemma KeepHead(h: Heap, s: State, k: nat)
    requires h.Heads(s.slots, s.ring, s.cached, s.huge) && 0 < k < |s.huge|
    ensures h.Heads(s.slots, s.ring, s.cached, WithoutAt(s.huge, k))
  {}

  method DropHead(h: Heap, ghost s: State, next: int)
    requires h.Heads(s.slots, s.ring, s.cached, s.huge) && s.huge != [] && next == FirstNode(s.huge[1..])
    modifies h`hugeList
    ensures h.Heads(s.slots, s.ring, s.cached, WithoutAt(s.huge, 0))
  {
    h.hugeList := next;
    assert WithoutAt(s.huge, 0) == s.huge[1..];
  }

  /** zend_mm_free_huge */
  method FreeHuge(h: Heap, p: int)
    requires h.Ready() && Held(h.s, p) && h.s.live[p].Huge? && 0 <= h.floating
    modifies h`s, h`mem, h`size, h`realSize, h`chunksCount, h`cachedChunks, h`cachedChunksCount, h`hugeList, h`floating,
      h`lastDeleteBoundary, h`lastDeleteCount, h.hm, h.hm.objs, h.freeSlot
    ensures h.Ready() && h.hm.objs == old(h.hm.objs) && h.realSize <= old(h.realSize) && h.floating == old(h.floating)
    ensures GivenBack(old(h.s), h.s, p) && Drift(h.size, h.s) == Drift(old(h.size), old(h.s))
    ensures h.size <= old(h.size)
    decreases 1, 1
  {
    hide Sound, Headers.Valid, Clear, Heap.Heads, Settled, Mapped, SumHuge, GivenBack, Drift, Unused, IsNode, RemoveRegion, SameLive, Heap.Tables;
    ghost var s := h.s;
    SlotFacts(h, 0);
    var n := DelHugeBlock(h, p);
    ghost var t := h.s;
    assert n != 0 && n % PAGE == 0;   // ZEND_MM_CHECK
    SlotFacts(h, 0);
    UnmapHuge(h, p, n);
    UnmapKept(s, t, h.s, p);
    SlotFacts(h, 0);
    SubHugeSize(h, n);
    h.size := h.size - n;
  }

  method SubHugeSize(h: Heap, n: int)
    requires h.Ready() && 0 < n <= h.floating
    modifies h`realSize, h`floating
    ensures h.Ready() && h.floating == old(h.floating) - n && h.realSize == old(h.realSize) - n
  {
    hide Sound, Headers.Valid, Clear, Heap.Heads, SumHuge, Settled;
    SumNonNeg(h.s);
    h.realSize, h.floating := h.realSize - n, h.floating - n;
  }

  lemma SumNonNeg(s: State)
    requires Sound(s)
    ensures 0 <= SumHuge(s.huge)
  {
    hide LiveInv, Lists, HugeLive, NodesOK, LinksOK, ChunksOK, HugeRegion;
    SumSign(s.mem, s.huge);
  }

  method UnmapHuge(h: Heap, p: int, n: int)
    requires h.Ready() && Unused(h.s, p, n) && Mapped(h.s.mem, p, n)
    modifies h`s, h`mem
    ensures h.Ready() && h.s == old(h.s).(mem := h.s.mem) && SameLive(old(h.s).mem, h.s.mem, h.s.live, 0)
  {
    hide Sound, Headers.Valid, Clear, Heap.Heads, Heap.Account, Settled, Mapped, Unused, RemoveRegion, SameLive;
    UnmapSound(h.s, p, n);
    SettledSame(h.s, h.s.(mem := RemoveRegion(h.s.mem, p, n)));
    h.OsFree(p, n);
    h.s := h.s.(mem := h.mem);
  }

  lemma UnmapKept(s: State, t: State, u: State, p: int)
    requires GivenBack(s, t, p) && u == t.(mem := u.mem) && SameLive(t.mem, u.mem, t.live, 0) && Sound(t)
    ensures GivenBack(s, u, p)
    ensures forall size :: Drift(size, u) == Drift(size, t)
  {
    hide Sound, SameBytes, Usable, IsNode, SumUsable;
    ZeroNotLive(t);
    assert User(u) == User(t);
    forall x | x in User(s) && x != p ensures SameBytes(s.mem, u.mem, x, Usable(s.live[x])) {
      assert x in User(t) && User(t)[x] == User(s)[x];
      SameBytesChain(s.mem, t.mem, u.mem, x, Usable(s.live[x]));
    }
  }

  /** zend_mm_free_heap */
  method FreeHeap(h: Heap, p: int)
    requires h.Ready() && (p == 0 || Held(h.s, p)) && 0 <= h.floating
    modifies h`s, h`mem, h`size, h`realSize, h`chunksCount, h`cachedChunks, h`cachedChunksCount, h`hugeList, h`floating,
      h`lastDeleteBoundary, h`lastDeleteCount, h.hm, h.hm.objs, h.freeSlot
    ensures h.Ready() && h.hm.objs == old(h.hm.objs) && h.realSize <= old(h.realSize) && h.floating == old(h.floating)
    ensures p == 0 ==> h.s == old(h.s) && h.size == old(h.size)
    ensures p != 0 ==> GivenBack(old(h.s), h.s, p) && Drift(h.size, h.s) == Drift(old(h.size), old(h.s))
    ensures p != 0 && !old(h.s).live[p].Huge? ==> Freed(old(h.s), h.s, p)
    ensures p != 0 && old(h.s).live[p].Small? ==> h.s.pg == old(h.s).pg && h.s.mem.Keys == old(h.s).mem.Keys
    ensures h.size <= old(h.size)
    decreases if p % CHUNK == 0 then 1 else 0, 2
  {
    hide Sound, Headers.Valid, Clear, Heap.Heads, Heap.Account, Heap.Tables, Settled, SumHuge, GivenBack, Drift, IsNode, Freed;
    ghost var s := h.s;
    AddressKind(s, p);
    SlotFacts(h, 0);
    if p % CHUNK == 0 {
      if p != 0 {
        FreeHuge(h, p);
      }
    } else {
      var c, page, info := Identify(h, p);
      if info.SRun? || info.NRun? {
        FreeSmallBlock(h, p, info.bin);
      } else {
        assert info.LRun? && p % PAGE == 0;   // ZEND_MM_CHECK
        LargeFacts(s, c, page, info.pages);
        FreeLarge(h, c, page, info.pages);
        DriftRemove(s, h.s, p, old(h.size));
      }
      GivenOne(s, h.s, p);
    }
  }

  lemma LargeFacts(s: State, c: int, page: nat, n: nat)
    requires Sound(s) && LargeRun(s, c, page, n)
    ensures PageAddr(c, page) in s.live && s.live[PageAddr(c, page)] == Large(n) && IsAddress(PageAddr(c, page))
  {
    hide Sound, LargeRun;
    LargeIsLive(s, c, page, n);
    LiveAddress(s, PageAddr(c, page));
  }

  /** An address at a chunk boundary is null or huge; any other lies in a chunk. */
  lemma AddressKind(s: State, p: int)
    requires Sound(s) && (p == 0 || Held(s, p))
    ensures p != 0 ==> (p % CHUNK == 0 <==> s.live[p].Huge?)
    ensures p != 0 && s.live[p].Small? ==> s.live[p].bin < BINS
  {
    hide Lists, HugeLive, NodesOK, RegionsOK, LinksOK, ChunksOK, IsNode, ChunksWF, BlockAt;
    if p != 0 {
      if s.live[p].Huge? { LiveHuge(s.pg, s.slots, s.live, p); } else { LiveBlock(s, p); }
      LiveOwned(s.pg, s.slots, s.live, p);
    }
  }

  /** zend_mm_size */
  method BlockSize(h: Heap, p: int) returns (n: int)
    requires h.Ready() && Held(h.s, p) && 0 <= h.floating
    ensures n == Usable(h.s.live[p])
  {
    hide Sound, Headers.Valid, Clear, Heap.Heads, Heap.Account, Heap.Tables, Settled, SumHuge, IsNode, BinSize, LargeRun;
    HeldNotNull(h.s, p);
    AddressKind(h.s, p);
    if p % CHUNK == 0 {
      n := HugeSize(h, p);
    } else {
      var c, page, info := Identify(h, p);
      if info.SRun? || info.NRun? {
        n := BinSize(info.bin);
      } else {
        assert info.LRun?;   // ZEND_MM_CHECK
        n := info.pages * PAGE;
      }
    }
  }

  lemma HeldNotNull(s: State, p: int)
    requires Sound(s) && Held(s, p)
    ensures p != 0
  {
    hide Sound, IsNode;
    LiveMapped(s, p);
  }
}
