/** Allocation and release of blocks of any size. */
module HeapCalls {
  import opened Sizes
  import opened Pages
  import opened Memory
  import opened Blocks
  import opened Live
  import opened FreeLists
  import opened Chunks
  import opened Rings
  import opened HeapModel
  import opened HeapState
  import opened HugeSteps
  import opened HeaderTable
  import GcSpec
  import opened GcResult
  import opened Collectors
  import opened Heaps
  import opened PageAllocs
  import opened SmallRuns
  import opened LargeRuns

  // ----- the caller's view -----

  /** The blocks that callers hold: live blocks that are not nodes of the huge list. */
  ghost function User(s: State): map<int, Block> {
    map a | a in s.live && !IsNode(s.huge, a) :: s.live[a]
  }

  /** No byte of a caller's block changes, except of block `a`. */
  ghost predicate UserKept(s: State, t: State, a: int) {
    forall x :: x in User(s) && x != a ==> SameBytes(s.mem, t.mem, x, Usable(s.live[x]))
  }

  /** Block `p` has been handed out. */
  ghost predicate Allocated(s: State, t: State, p: int)
    ensures Allocated(s, t, p) ==> p in User(t) && p !in s.live && p != 0 && p in t.live && !IsNode(t.huge, p)
  {
    && p != 0 && p !in s.live && p in t.live && !IsNode(t.huge, p)
    && User(t) == User(s)[p := t.live[p]]
    && t.key == s.key && SameLive(s.mem, t.mem, s.live, 0)
  }

  /** Nothing has been handed out, and nothing has been lost. */
  ghost predicate Refused(s: State, t: State)
    ensures Refused(s, t) ==> t.live == s.live && LiveKept(s, t)
  {
    t.live == s.live && LiveKept(s, t)
  }

  /** Block `p` has been given back. */
  ghost predicate GivenBack(s: State, t: State, p: int) {
    User(t) == User(s) - {p} && t.key == s.key && UserKept(s, t, p)
  }

  lemma AllocatedOne(s: State, t: State, p: int, k: Block)
    requires LiveKept(s, t) && p != 0 && p !in s.live && t.live == s.live[p := k] && !IsNode(t.huge, p)
    ensures Allocated(s, t, p)
  {
    hide SameLive, IsNode;
  }

  lemma ZeroNotLive(s: State)
    requires Sound(s)
    ensures 0 !in s.live
  {
    hide Sound;
    if 0 in s.live { LiveMapped(s, 0); }
  }

  lemma GivenOne(s: State, t: State, p: int)
    requires Sound(s) && Freed(s, t, p)
    ensures GivenBack(s, t, p)
  {
    hide Sound, SameBytes, IsNode, Usable;
    ZeroNotLive(s);
    forall x | x in User(s) && x != p ensures SameBytes(s.mem, t.mem, x, Usable(s.live[x])) {
      assert x in t.live;
    }
  }

  // ----- usage -----

  /** How far the usage counter is off. */
  ghost function Drift(size: int, s: State): int {
    size - SumUsable(s.live)
  }

  lemma DriftAdd(s: State, t: State, p: int, k: Block, size: int)
    requires p !in s.live && t.live == s.live[p := k] && IsAddress(p)
    ensures Drift(size + Usable(k), t) == Drift(size, s)
  {
    hide Usable, SumUsable;
    SumSet(s.live, p, k);
  }

  lemma DriftRemove(s: State, t: State, p: int, size: int)
    requires p in s.live && t.live == s.live - {p} && IsAddress(p)
    ensures Drift(size - Usable(s.live[p]), t) == Drift(size, s)
  {
    hide Usable, SumUsable;
    SumRemove(s.live, p);
  }

  lemma LiveAddress(s: State, p: int)
    requires Sound(s) && p in s.live
    ensures IsAddress(p)
  {
    hide Sound;
    LiveMapped(s, p);
  }

  // ----- what a request needs -----

  /** The class for a request, at least two pointers wide. */
  function ClassFor(size: int): (b: nat)
    requires 0 <= size <= MAX_SMALL
    ensures 1 <= b < BINS && size <= BinSize(b) && Usable(Small(b)) == BinSize(b)
    ensures BinSize(b - 1) < if size < MIN_USABLE then MIN_USABLE else size
  {
    var sz := if size < MIN_USABLE then MIN_USABLE else size;
    SizeToBinFits(sz);
    SmallestClass();
    SizeToBin(sz)
  }

  lemma SmallestClass()
    ensures BinSize(0) < MIN_USABLE
  {}

  lemma NodeClass()
    ensures ClassFor(NODE_SIZE) == NODE_BIN && Usable(Small(NODE_BIN)) == NODE_SIZE
  {}

  /** `size` rounded up to whole pages, in machine words. */
  function RoundUp(size: int): int {
    (size + PAGE - 1) / PAGE * PAGE % 0x1_0000_0000_0000_0000
  }

  /** Unless it wraps around, the rounded size is the least multiple of the page size that
      is large enough. */
  lemma RoundUpFits(size: int)
    requires 0 < size < 0x1_0000_0000_0000_0000
    ensures RoundUp(size) >= size ==> RoundUp(size) % PAGE == 0 && RoundUp(size) < size + PAGE && RoundUp(size) < ADDRESS_LIMIT
    ensures RoundUp(size) < size <==> 0x1_0000_0000_0000_0000 - PAGE < size
    ensures RoundUp(size) < size ==> RoundUp(size) == 0
    ensures MAX_LARGE < size <= RoundUp(size) ==> CHUNK <= RoundUp(size)
  {}

  /** The block that a request gets, if it gets one. */
  function BlockFor(size: int): Block
    requires 0 <= size
  {
    if size <= MAX_SMALL then Small(ClassFor(size))
    else if size <= MAX_LARGE then Large(PagesFor(size))
    else Huge(RoundUp(size))
  }

  /** No free memory of the heap serves the request. */
  ghost predicate Exhausted(s: State, size: int)
    requires 0 <= size
  {
    if size <= MAX_SMALL then ClassEmpty(s, ClassFor(size))
    else if size <= MAX_LARGE then MustAsk(s, PagesFor(size))
    else true
  }

  /** Why a request failed: the operating system has refused since there were `before`
      refusals, the limit forbids another chunk or the huge block, with nothing left to
      collect, or the size cannot be rounded up to pages. */
  ghost predicate OutOfMemory(h: Heap, size: int, before: nat)
    reads h`s, h`limit, h`overflow, h`realSize, h`refusals
  {
    || Starved(h, before)
    || (size > MAX_LARGE && (RoundUp(size) < size || OverLimit(h, RoundUp(size))))
  }

  ghost predicate OverLimit(h: Heap, n: int)
    reads h`s, h`limit, h`overflow, h`realSize
  {
    !h.overflow && n > Room(h.limit, h.realSize) && GcSpec.NoIdle(h.s.pg, h.s.slots)
  }

  // ----- entering a huge block -----

  /** A region that the operating system keeps for the heap: it is not mapped yet. */
  ghost predicate Promised(reserved: set<int>, p: int, n: int) {
    && p % CHUNK == 0 && 0 < p && p + n <= ADDRESS_LIMIT && 0 < n && n % PAGE == 0 && n < ADDRESS_LIMIT
    && (forall x :: p <= x < p + n ==> x in reserved)
  }

  lemma PromisedFacts(reserved: set<int>, p: int, n: int)
    requires Promised(reserved, p, n)
    ensures 0 < p < ADDRESS_LIMIT && 0 < n && p % CHUNK == 0 && p + n <= ADDRESS_LIMIT && n % PAGE == 0
  {}

  lemma PromisedFresh(h: Heap, p: int, n: int)
    requires Promised(h.reserved, p, n) && Clear(h.reserved, h.mem)
    ensures forall x :: p <= x < p + n ==> x !in h.mem
  {}

  /** The state after the region has joined memory and has been recorded in the node. */
  ghost function Entered(s: State, p: int, n: int, node: int): State
    requires 0 <= p && 0 <= n && 0 <= FirstNode(s.huge)
  {
    var m := AddRegion(s.mem, p, n);
    AddHuge(s.(mem := m), HugeRec(node, p, n), WriteNode(m, node, p, n, FirstNode(s.huge)))
  }

  lemma FirstNodeAddress(s: State)
    requires Sound(s)
    ensures IsAddress(FirstNode(s.huge))
  {
    hide Sound, NodeOK, HugeRegion;
    if s.huge != [] {
      NodeFacts(s, 0);
      LiveAddress(s, s.huge[0].node);
    }
  }

  lemma EnteredSound(s: State, p: int, n: int, node: int)
    requires Sound(s) && Settled(s) && p % CHUNK == 0 && 0 < p && p + n <= ADDRESS_LIMIT && 0 < n && n % PAGE == 0
    requires forall x :: p <= x < p + n ==> x !in s.mem
    requires node in s.live && s.live[node] == Small(NODE_BIN) && !IsNode(s.huge, node)
    ensures IsAddress(FirstNode(s.huge)) && p !in s.live
    ensures var t := Entered(s, p, n, node);
      && Sound(t) && Settled(t) && SameLive(s.mem, t.mem, s.live, node) && t.mem.Keys == AddRegion(s.mem, p, n).Keys
  {
    hide LiveInv, Lists, HugeLive, NodesOK, RegionsOK, LinksOK, ChunksOK, Quiet, NonEmpty, Mapped, IsNode, AddRegion, SameLive, Unused,
      WriteNode, OnlyInside, NodeOK, ChunksWF, BlockAt, BinSize;
    ZeroNotLive(s);
    FirstNodeAddress(s);
    FreshUnused(s, p, n);
    FreshNotLive(s, p);
    MapSound(s, p, n);
    var m := AddRegion(s.mem, p, n);
    var s1, rec := s.(mem := m), HugeRec(node, p, n);
    LiveSmall(s1, NODE_BIN, node);
    NodeSize();
    RegionMapped(s.mem, p, n);
    WriteNodeOK(m, rec, FirstNode(s.huge));
    InsideSameKeys(m, WriteNode(m, node, p, n, FirstNode(s.huge)), node, NODE_SIZE);
    UnusedSame(s, s1, p, n);
    AddHugeSound(s1, rec, WriteNode(m, node, p, n, FirstNode(s.huge)));
    SameLiveTwo(s.mem, m, WriteNode(m, node, p, n, FirstNode(s.huge)), s.live, node);
  }

  lemma UnusedSame(s: State, s1: State, p: int, n: int)
    requires Unused(s, p, n) && s1.pg == s.pg && s1.huge == s.huge
    ensures Unused(s1, p, n)
  {}

  lemma RegionMapped(m: Mem, p: int, n: int)
    ensures Mapped(AddRegion(m, p, n), p, n)
  {}

  lemma SameLiveTwo(m: Mem, m2: Mem, m3: Mem, live: map<int, Block>, a: int)
    requires SameLive(m, m2, live, 0) && SameLive(m2, m3, live, a) && 0 !in live
    ensures SameLive(m, m3, live, a)
  {
    hide SameBytes;
    forall x | x in live && x != a ensures SameBytes(m, m3, x, Usable(live[x])) {
      SameBytesChain(m, m2, m3, x, Usable(live[x]));
    }
  }

  /** From the state before the node was allocated to the state after the block was entered. */
  lemma EnteredAllocated(s0: State, s: State, p: int, n: int, node: int)
    requires Sound(s) && LiveKept(s0, s) && node != 0 && node !in s0.live && s.live == s0.live[node := Small(NODE_BIN)] && !IsNode(s.huge, node)
    requires 0 < p < ADDRESS_LIMIT && 0 <= n && 0 <= FirstNode(s.huge) && p !in s.live
    requires SameLive(s.mem, Entered(s, p, n, node).mem, s.live, node)
    ensures Allocated(s0, Entered(s, p, n, node), p) && Entered(s, p, n, node).live == s0.live[node := Small(NODE_BIN)][p := Huge(n)]
    ensures SumUsable(Entered(s, p, n, node).live) == SumUsable(s.live) + n
    ensures !IsNode(s0.huge, p) && p !in s0.live
  {
    hide Sound, SumUsable, SameLive, AddRegion, WriteNode, IsNode;
    var t := Entered(s, p, n, node);
    EnteredUser(s0, s, t, p, n, node);
    EnteredBytes(s0, s, t, node);
    SumSet(s.live, p, Huge(n));
  }

  lemma EnteredBytes(s0: State, s: State, t: State, node: int)
    requires LiveKept(s0, s) && SameLive(s.mem, t.mem, s.live, node) && node !in s0.live && s.live == s0.live[node := Small(NODE_BIN)]
    ensures SameLive(s0.mem, t.mem, s0.live, 0)
  {
    hide SameBytes, Usable;
    forall x | x in s0.live && x != 0 ensures SameBytes(s0.mem, t.mem, x, Usable(s0.live[x])) {
      assert x in s.live && s.live[x] == s0.live[x] && x != node;
      SameBytesChain(s0.mem, s.mem, t.mem, x, Usable(s0.live[x]));
    }
  }

  lemma EnteredUser(s0: State, s: State, t: State, p: int, n: nat, node: int)
    requires Sound(s) && s.huge == s0.huge && node !in s0.live && s.live == s0.live[node := Small(NODE_BIN)] && !IsNode(s.huge, node)
    requires p !in s.live && t.huge == [HugeRec(node, p, n)] + s.huge && t.live == s.live[p := Huge(n)]
    ensures User(t) == User(s0)[p := Huge(n)] && !IsNode(t.huge, p) && !IsNode(s0.huge, p) && p !in s0.live
  {
    hide LiveInv, Lists, NodesOK, RegionsOK, LinksOK, ChunksOK;
    NodeIsLiveHere(s, p);
    forall x ensures IsNode(t.huge, x) <==> x == node || IsNode(s.huge, x) { NodeAdded(s.huge, HugeRec(node, p, n), x); }
    hide IsNode;
    assert node in s.live && p != node;
  }

  lemma NodeIsLiveHere(s: State, a: int)
    requires Sound(s)
    ensures IsNode(s.huge, a) ==> a in s.live
  {
    hide LiveInv, Lists, NodesOK, RegionsOK, LinksOK, ChunksOK;
  }

  lemma NodeAdded(huge: seq<HugeRec>, r: HugeRec, x: int)
    ensures IsNode([r] + huge, x) <==> x == r.node || IsNode(huge, x)
  {
    var h2 := [r] + huge;
    assert h2[0] == r;
    assert forall i :: 0 <= i < |huge| ==> h2[i + 1] == huge[i];
    if IsNode(huge, x) {
      var i :| 0 <= i < |huge| && huge[i].node == x;
      assert h2[i + 1].node == x;
    }
    if IsNode(h2, x) {
      var i :| 0 <= i < |h2| && h2[i].node == x;
      assert i > 0 ==> huge[i - 1].node == x;
    }
  }

  // ----- allocation -----

  lemma SumCons(r: HugeRec, huge: seq<HugeRec>)
    ensures SumHuge([r] + huge) == r.size + SumHuge(huge)
  {
    assert ([r] + huge)[1..] == huge;
  }

  /** The region joins memory, the node is written, the node becomes the head of the list. */
  method EnterNode(h: Heap, p: int, n: int, node: int)
    requires h.Ready() && Promised(h.reserved, p, n) && 0 < node
    requires node in h.s.live && h.s.live[node] == Small(NODE_BIN) && !IsNode(h.s.huge, node)
    modifies h`mem, h`reserved, h`hugeList, h`s, h`floating
    ensures h.Ready() && 0 <= FirstNode(old(h.s).huge) && h.s == Entered(old(h.s), p, n, node) && h.floating == old(h.floating) - n
    ensures p !in old(h.s).live && SameLive(old(h.s).mem, h.s.mem, old(h.s).live, node)
  {
    hide Sound, Headers.Valid, Clear, Heap.Heads, Heap.Account, SumHuge, Settled, IsNode, AddRegion, WriteNode, SameLive, Entered, Promised;
    ghost var s := h.s;
    PromisedFresh(h, p, n);
    PromisedFacts(h.reserved, p, n);
    EnteredSound(s, p, n, node);
    EnteredIs(s, p, n, node);
    NodeHead(h);
    WriteEntry(h, p, n, node);
    SetHugeHead(h, node, HugeRec(node, p, n), s);
    SumCons(HugeRec(node, p, n), s.huge);
    h.s, h.floating := Entered(s, p, n, node), h.floating - n;
  }

  lemma EnteredRing(s: State, p: int, n: int, node: int)
    requires 0 <= p && 0 <= n && 0 <= FirstNode(s.huge)
    ensures Entered(s, p, n, node).ring == s.ring
  {
    hide AddRegion, WriteNode;
  }

  lemma NodeHead(h: Heap)
    requires h.Fields()
    ensures h.hugeList == FirstNode(h.s.huge)
  {}

  lemma EnteredIs(s: State, p: int, n: int, node: int)
    requires 0 <= p && 0 <= n && 0 <= FirstNode(s.huge)
    ensures var t := Entered(s, p, n, node);
      && t.pg == s.pg && t.ln == s.ln && t.ring == s.ring && t.cached == s.cached && t.slots == s.slots && t.key == s.key
      && t.huge == [HugeRec(node, p, n)] + s.huge && t.mem == WriteNode(AddRegion(s.mem, p, n), node, p, n, FirstNode(s.huge))
  {
    hide AddRegion, WriteNode;
  }

  /** The memory part: the region joins memory, the node is written. */
  method WriteEntry(h: Heap, p: int, n: int, node: int)
    requires Clear(h.reserved, h.mem) && 0 <= p && 0 <= n && 0 <= h.hugeList
    modifies h`mem, h`reserved
    ensures h.mem == WriteNode(AddRegion(old(h.mem), p, n), node, p, n, h.hugeList) && Clear(h.reserved, h.mem)
  {
    hide Clear, AddRegion, Span;
    ghost var r, m := h.reserved, h.mem;
    h.mem, h.reserved := AddRegion(h.mem, p, n), h.reserved - Span(p, n);
    ClearEntered(r, m, p, n);
    h.mem := WriteNode(h.mem, node, p, n, h.hugeList);
    ClearSame(h.reserved, AddRegion(m, p, n), h.mem);
  }

  method SetHugeHead(h: Heap, node: int, ghost r: HugeRec, ghost s: State)
    requires h.Heads(s.slots, s.ring, s.cached, s.huge) && r.node == node
    modifies h`hugeList
    ensures h.Heads(s.slots, s.ring, s.cached, [r] + s.huge) && h.hugeList == node
  {
    h.hugeList := node;
  }

  lemma ClearEntered(r: set<int>, m: Mem, p: int, n: int)
    requires Clear(r, m)
    ensures Clear(r - Span(p, n), AddRegion(m, p, n))
  {
    ClearSame(r - Span(p, n), m, m);
    ClearAdd(r - Span(p, n), m, p, n);
  }

  lemma DriftEntered(s0: State, s: State, t: State, size0: int, size: int, n: int)
    requires Drift(size, s) == Drift(size0, s0) && SumUsable(t.live) == SumUsable(s.live) + n
    ensures Drift(size + n, t) == Drift(size0, s0)
  {
    hide SumUsable;
  }

  lemma Accounted(h: Heap)
    requires h.Money()
    ensures h.realSize == CHUNK * (|h.s.ring| + |h.s.cached|) + SumHuge(h.s.huge) + h.floating
  {}

  lemma ByChunks(r0: int, r1: int, k0: int, k1: int)
    requires r1 - CHUNK * k1 == r0 - CHUNK * k0
    ensures (r1 - r0) % CHUNK == 0
  {
    assert r1 - r0 == CHUNK * (k1 - k0);
  }

  /** zend_mm_add_huge_block. The node comes from the heap itself; when there is no memory
      for it the region stays with the operating system's bookkeeping. */
  method AddHugeBlock(h: Heap, p: int, n: int) returns (ok: bool)
    requires h.Ready() && Promised(h.reserved, p, n)
    modifies h, h.hm, h.hm.objs, h.freeSlot
    ensures h.Ready() && fresh(h.hm.objs - old(h.hm.objs)) && h.limit == old(h.limit) && h.overflow == old(h.overflow)
    ensures !ok ==> Refused(old(h.s), h.s) && h.floating == old(h.floating) && Starved(h, old(h.refusals))
    ensures old(h.refusals) <= h.refusals
    ensures !ClassEmpty(old(h.s), NODE_BIN) ==> ok && h.realSize == old(h.realSize) && h.refusals == old(h.refusals)
    ensures ClassEmpty(old(h.s), NODE_BIN) && CHUNK <= Room(h.limit, old(h.realSize)) && h.refusals == old(h.refusals) ==>
      ok && h.realSize == old(h.realSize) + CHUNK
    ensures ok ==> Allocated(old(h.s), h.s, p) && h.s.live[p] == Huge(n) && h.floating == old(h.floating) - n
    ensures ok ==> Drift(h.size + n, h.s) == Drift(old(h.size), old(h.s)) && h.peak == Larger(old(h.peak), h.size)
    ensures h.realSize <= old(h.realSize) + CHUNK && (h.realSize - old(h.realSize)) % CHUNK == 0
    ensures h.realPeak == Larger(old(h.realPeak), h.realSize) && h.peakChunksCount == Larger(old(h.peakChunksCount), |h.s.ring|)
    decreases 1, 0
  {
    hide Sound, Headers.Valid, Clear, Heap.Heads, Heap.Account, SumHuge, Heap.Tables, LiveKept, Settled, IsNode, Allocated, Drift, Promised, Entered, SumUsable,
      AddRegion, WriteNode, Span, SameLive, ClassFor, Refused, ClassEmpty, Room, LimitHit, Starved;
    ghost var s0, k0 := h.s, |h.s.ring| + |h.s.cached|;
    NodeClass();
    SlotFacts(h, 0);
    Accounted(h);
    var node := AllocHeap(h, NODE_SIZE);
    Accounted(h);
    ByChunks(old(h.realSize), h.realSize, k0, |h.s.ring| + |h.s.cached|);
    ok := node != 0;
    if ok {
      ghost var s := h.s;
      LiveMapped(s, node);
      PromisedFacts(h.reserved, p, n);
      EnterNode(h, p, n, node);
      EnteredRing(s, p, n, node);
      EnteredAllocated(s0, s, p, n, node);
      DriftEntered(s0, s, h.s, old(h.size), h.size, n);
    }
  }

  /** A region for a huge block; it is not part of the heap's memory yet. */
  method Reserve(h: Heap, n: int) returns (p: int)
    requires h.Ready() && 0 < n < ADDRESS_LIMIT && n % PAGE == 0
    modifies h`reserved, h`refusals
    ensures h.Ready() && h.refusals == old(h.refusals) + if p == 0 then 1 else 0
    ensures p == 0 ==> h.reserved == old(h.reserved)
    ensures p != 0 ==> Promised(h.reserved, p, n)
  {
    hide Sound, Headers.Valid, Heap.Heads, Heap.Account, Settled, Span;
    p := h.OsPick(n);
    if p != 0 {
      ClearMore(h.reserved, h.mem, p, n);
      h.reserved := h.reserved + Span(p, n);
    }
  }

  lemma ClearMore(r: set<int>, m: Mem, p: int, n: int)
    requires Clear(r, m) && forall x :: p <= x < p + n ==> x !in m
    ensures Clear(r + Span(p, n), m)
  {}

  /** The limit check and the request to the operating system, each retried once after a
      collection. It fails only when the limit forbids the block with nothing left to collect,
      or the operating system refuses. */
  method ReserveHuge(h: Heap, n: int) returns (p: int)
    requires h.Ready() && 0 < n < ADDRESS_LIMIT && n % PAGE == 0
    modifies h`s, h`mem, h`reserved, h`refusals, h`realSize, h`chunksCount, h`cachedChunks, h`cachedChunksCount,
      h`lastDeleteBoundary, h`lastDeleteCount, h.hm, h.hm.objs, h.freeSlot
    ensures h.Ready() && h.hm.objs == old(h.hm.objs) && Refused(old(h.s), h.s)
    ensures old(h.refusals) <= h.refusals && (p == 0 ==> old(h.refusals) < h.refusals || OverLimit(h, n))
    ensures n <= Room(h.limit, old(h.realSize)) && h.refusals == old(h.refusals) ==>
      p != 0 && h.s == old(h.s) && h.realSize == old(h.realSize)
    ensures p != 0 ==> Promised(h.reserved, p, n)
    ensures p != 0 && !h.overflow && old(h.realSize) <= h.limit ==> h.realSize + n <= h.limit
    ensures h.realSize <= old(h.realSize)
  {
    hide Sound, Headers.Valid, Clear, Heap.Heads, Heap.Account, SumHuge, Settled, Room, Collected, GcSpec.GcPages, LiveKept, Promised, Heap.Tables,
      GcSpec.NoIdle;
    ghost var s := h.s;
    SlotFacts(h, 0);
    RefusedSame(s);
    AccountSign(h);
    RoomIs(h.limit, h.realSize);
    if n > Room(h.limit, h.realSize) {
      var r := Gc(h);
      RefusedGc(s, h.s);
      AccountSign(h);
      RoomIs(h.limit, h.realSize);
      if r != 0 && n <= Room(h.limit, h.realSize) {
      } else if !h.overflow {
        return 0;
      }
    }
    SlotFacts(h, 0);
    p := Reserve(h, n);
    if p == 0 {
      ghost var t := h.s;
      var r := Gc(h);
      RefusedGc(t, h.s);
      RefusedChain(s, t, h.s);
      if r != 0 {
        SlotFacts(h, 0);
        p := Reserve(h, n);
      }
    }
  }

  lemma RefusedSame(s: State)
    ensures Refused(s, s)
  {}

  lemma RefusedGc(s: State, t: State)
    requires Collected(s, t)
    ensures Refused(s, t)
  {
    hide Collected, SameLive;
  }

  lemma RefusedChain(s: State, t: State, u: State)
    requires Refused(s, t) && Refused(t, u)
    ensures Refused(s, u)
  {
    hide SameLive;
    SameLiveChain(s.mem, t.mem, u.mem, s.live);
  }

  lemma AllocatedAfter(s: State, t: State, u: State, p: int)
    requires Refused(s, t) && Allocated(t, u, p)
    ensures Allocated(s, u, p)
  {
    hide SameLive, IsNode;
    SameLiveChain(s.mem, t.mem, u.mem, s.live);
  }

  /** The block itself, without its list node, fits below the limit. */
  ghost predicate Fitting(size: int, limit: int, realSize: int) {
    size <= RoundUp(size) && realSize + RoundUp(size) <= limit
  }

  /** The heap at some moment. */
  datatype Moment = Moment(s: State, realSize: int, refusals: nat)

  /** zend_mm_alloc_huge. The block's size is the request rounded up to whole pages. `mid` is
      the moment after the check against the limit, which does not foresee the list node: if
      the node takes another chunk, `realSize` may end above the limit. */
  method AllocHuge(h: Heap, size: int) returns (p: int, ghost mid: Moment)
    requires h.Ready() && MAX_LARGE < size < 0x1_0000_0000_0000_0000
    modifies h, h.hm, h.hm.objs, h.freeSlot
    ensures h.Ready() && fresh(h.hm.objs - old(h.hm.objs)) && h.limit == old(h.limit) && h.overflow == old(h.overflow)
    ensures h.floating == old(h.floating)
    ensures p == 0 ==> Refused(old(h.s), h.s)
    ensures p != 0 ==> Allocated(old(h.s), h.s, p) && h.s.live[p] == Huge(RoundUp(size)) && size <= RoundUp(size)
    ensures p != 0 ==> Drift(h.size, h.s) == Drift(old(h.size), old(h.s)) && h.peak == Larger(old(h.peak), h.size)
    ensures old(h.refusals) <= h.refusals && (p == 0 ==> OutOfMemory(h, size, old(h.refusals)))
    ensures p != 0 ==> Refused(old(h.s), mid.s) && mid.realSize <= old(h.realSize) && old(h.refusals) <= mid.refusals <= h.refusals
    ensures p != 0 && !h.overflow && old(h.realSize) <= h.limit ==> mid.realSize + RoundUp(size) <= h.limit
    ensures p != 0 ==> h.realSize <= mid.realSize + RoundUp(size) + CHUNK
    ensures p != 0 && !h.overflow && old(h.realSize) <= h.limit && h.refusals == mid.refusals ==>
      h.realSize == mid.realSize + RoundUp(size) + if ClassEmpty(mid.s, NODE_BIN) then CHUNK else 0
    ensures p != 0 && !h.overflow && old(h.realSize) <= h.limit && h.realSize > h.limit ==>
      ClassEmpty(mid.s, NODE_BIN) && mid.realSize + RoundUp(size) + CHUNK > h.limit
    ensures p != 0 && !h.overflow && old(h.realSize) <= h.limit && h.refusals == mid.refusals ==>
      (h.realSize > h.limit <==> ClassEmpty(mid.s, NODE_BIN) && mid.realSize + RoundUp(size) + CHUNK > h.limit)
    ensures p != 0 && !h.overflow && old(h.realSize) <= h.limit ==>
      (h.realSize > h.limit <==> mid.realSize + RoundUp(size) < h.realSize && h.limit < mid.realSize + RoundUp(size) + CHUNK)
    ensures Fitting(size, h.limit, old(h.realSize)) && h.refusals == old(h.refusals) ==>
      p != 0 && mid == old(Moment(h.s, h.realSize, h.refusals))
    ensures h.realPeak == Larger(old(h.realPeak), h.realSize) && h.peakChunksCount == Larger(old(h.peakChunksCount), |h.s.ring|)
    decreases 1, 2
  {
    hide Sound, Headers.Valid, Clear, Heap.Heads, Heap.Account, SumHuge, Heap.Tables, LiveKept, Settled, Allocated, Drift, Promised, SumUsable, Refused, RoundUp, Room, ClassEmpty,
      LimitHit, GcSpec.NoIdle;
    ghost var s := h.s;
    mid := Moment(s, h.realSize, h.refusals);
    RoundUpFits(size);
    var n := RoundUp(size);
    PeakFacts(h);
    if n < size { RefusedSame(s); return 0, mid; }
    SlotFacts(h, 0);
    AccountSign(h);
    RoomIs(h.limit, h.realSize);
    p := ReserveHuge(h, n);
    PeakFacts(h);
    if p == 0 { return 0, mid; }
    ghost var t := h.s;
    mid := Moment(t, h.realSize, h.refusals);
    SlotFacts(h, 0);
    AccountSign(h);
    RoomIs(h.limit, h.realSize);
    var ok := CommitHuge(h, p, n);
    if !ok { RefusedChain(s, t, h.s); return 0, mid; }
    AllocatedAfter(s, t, h.s, p);
    DriftSame(s, t, old(h.size));
  }

  /** The part after the limit check: the record, then the counters. */
  method CommitHuge(h: Heap, p: int, n: int) returns (ok: bool)
    requires h.Ready() && Promised(h.reserved, p, n)
    modifies h, h.hm, h.hm.objs, h.freeSlot
    ensures h.Ready() && fresh(h.hm.objs - old(h.hm.objs)) && h.limit == old(h.limit) && h.overflow == old(h.overflow)
    ensures h.floating == old(h.floating) && old(h.refusals) <= h.refusals
    ensures !ok ==> Refused(old(h.s), h.s) && Starved(h, old(h.refusals))
    ensures ok ==> Allocated(old(h.s), h.s, p) && h.s.live[p] == Huge(n) && h.realSize <= old(h.realSize) + n + CHUNK
    ensures ok ==> (h.realSize - old(h.realSize) - n) % CHUNK == 0
    ensures ok ==> Drift(h.size, h.s) == Drift(old(h.size), old(h.s)) && h.peak == Larger(old(h.peak), h.size)
    ensures !ClassEmpty(old(h.s), NODE_BIN) ==> ok && h.realSize == old(h.realSize) + n && h.refusals == old(h.refusals)
    ensures ClassEmpty(old(h.s), NODE_BIN) && CHUNK <= Room(h.limit, old(h.realSize)) && h.refusals == old(h.refusals) ==>
      ok && h.realSize == old(h.realSize) + n + CHUNK
    ensures h.realPeak == Larger(old(h.realPeak), h.realSize) && h.peakChunksCount == Larger(old(h.peakChunksCount), |h.s.ring|)
    decreases 1, 1
  {
    hide Heap.Ready, Sound, ClassEmpty, Room, Allocated, Refused, Drift, Promised, LimitHit, Starved;
    PromisedFacts(h.reserved, p, n);
    ok := AddHugeBlock(h, p, n);
    if ok {
      ReadyFacts(h);
      AddHugeSize(h, n);
      h.AddUsage(n);
    }
  }

  lemma ReadyFacts(h: Heap)
    requires h.Ready()
    ensures h !in h.hm.objs && h.freeSlot !in h.hm.objs
  {
    hide Sound;
  }

  method AddHugeSize(h: Heap, n: int)
    requires h.Ready() && 0 < n
    modifies h`realSize, h`realPeak, h`floating
    ensures h.Ready() && h.floating == old(h.floating) + n && h.realSize == old(h.realSize) + n
    ensures h.realPeak == Larger(old(h.realPeak), h.realSize)
  {
    hide Sound, Headers.Valid, Clear, Heap.Heads, SumHuge, Settled;
    h.realSize := h.realSize + n;
    h.realPeak := if h.realPeak < h.realSize then h.realSize else h.realPeak;
    h.floating := h.floating + n;
  }

  lemma DriftSame(s: State, t: State, size: int)
    requires Refused(s, t)
    ensures Drift(size, t) == Drift(size, s)
  {}

  /** A request for a small block. */
  method AllocSmallBlock(h: Heap, size: int) returns (p: int)
    requires h.Ready() && 0 <= size <= MAX_SMALL
    modifies h`s, h`mem, h`refusals, h`size, h`peak, h`realSize, h`realPeak, h`chunksCount, h`peakChunksCount, h`cachedChunks,
      h`cachedChunksCount, h`lastDeleteBoundary, h`lastDeleteCount, h.hm, h.hm.objs, h.freeSlot
    ensures h.Ready() && fresh(h.hm.objs - old(h.hm.objs)) && LiveKept(old(h.s), h.s)
    ensures p == 0 ==> Refused(old(h.s), h.s)
    ensures p != 0 ==> Allocated(old(h.s), h.s, p) && h.s.live == old(h.s).live[p := Small(ClassFor(size))]
    ensures old(h.refusals) <= h.refusals
    ensures p == 0 ==> ClassEmpty(old(h.s), ClassFor(size)) && Starved(h, old(h.refusals))
    ensures !ClassEmpty(old(h.s), ClassFor(size)) ==> h.realSize == old(h.realSize) && h.refusals == old(h.refusals)
    ensures ClassEmpty(old(h.s), ClassFor(size)) && CHUNK <= Room(h.limit, old(h.realSize)) && h.refusals == old(h.refusals) ==>
      p != 0 && h.realSize == old(h.realSize) + CHUNK
    ensures h.realPeak == Larger(old(h.realPeak), h.realSize) && h.peakChunksCount == Larger(old(h.peakChunksCount), |h.s.ring|)
    ensures p != 0 ==> Drift(h.size, h.s) == Drift(old(h.size), old(h.s)) && h.peak == Larger(old(h.peak), h.size)
    ensures !h.overflow && old(h.realSize) <= h.limit ==> h.realSize <= h.limit
    ensures h.realSize <= old(h.realSize) + CHUNK
  {
    hide Sound, Headers.Valid, Clear, Heap.Heads, Heap.Account, SumHuge, Heap.Tables, LiveKept, Settled, Allocated, Drift, SumUsable, IsNode,
      Usable, BinSize, ClassEmpty, LimitHit, Room;
    ghost var s := h.s;
    var b := ClassFor(size);
    p := AllocSmall(h, b);
    if p != 0 {
      LiveAddress(h.s, p);
      AllocatedOne(s, h.s, p, Small(b));
      DriftAdd(s, h.s, p, Small(b), old(h.size));
    }
  }

  /** A request for a large block. */
  method AllocLargeBlock(h: Heap, size: int) returns (p: int)
    requires h.Ready() && 0 < size <= MAX_LARGE
    modifies h`s, h`mem, h`refusals, h`size, h`peak, h`realSize, h`realPeak, h`chunksCount, h`peakChunksCount, h`cachedChunks,
      h`cachedChunksCount, h`lastDeleteBoundary, h`lastDeleteCount, h.hm, h.hm.objs, h.freeSlot
    ensures h.Ready() && fresh(h.hm.objs - old(h.hm.objs)) && LiveKept(old(h.s), h.s)
    ensures p == 0 ==> Refused(old(h.s), h.s)
    ensures p != 0 ==> Allocated(old(h.s), h.s, p) && h.s.live == old(h.s).live[p := Large(PagesFor(size))]
    ensures old(h.refusals) <= h.refusals
    ensures (p != 0 ==> RunAt(h.s, p, PagesFor(size))) && Housekept(old(h.s), h.s)
    ensures p == 0 ==> MustAsk(old(h.s), PagesFor(size)) && Starved(h, old(h.refusals))
    ensures !MustAsk(old(h.s), PagesFor(size)) ==> h.realSize == old(h.realSize) && h.refusals == old(h.refusals)
    ensures MustAsk(old(h.s), PagesFor(size)) && CHUNK <= Room(h.limit, old(h.realSize)) && h.refusals == old(h.refusals) ==>
      p != 0 && h.realSize == old(h.realSize) + CHUNK
    ensures h.realPeak == Larger(old(h.realPeak), h.realSize) && h.peakChunksCount == Larger(old(h.peakChunksCount), |h.s.ring|)
    ensures p != 0 ==> Drift(h.size, h.s) == Drift(old(h.size), old(h.s)) && h.peak == Larger(old(h.peak), h.size)
    ensures !h.overflow && old(h.realSize) <= h.limit ==> h.realSize <= h.limit
    ensures h.realSize <= old(h.realSize) + CHUNK
  {
    hide Sound, Headers.Valid, Clear, Heap.Heads, Heap.Account, SumHuge, Heap.Tables, LiveKept, Settled, Allocated, Drift, SumUsable, IsNode,
      PagesFor, MustAsk, LimitHit, Room, RunAt, Housekept;
    ghost var s := h.s;
    p := AllocLarge(h, size);
    if p != 0 {
      LiveAddress(h.s, p);
      AllocatedOne(s, h.s, p, Large(PagesFor(size)));
      DriftAdd(s, h.s, p, Large(PagesFor(size)), old(h.size));
    }
  }

  /** zend_mm_alloc_heap */
  method AllocHeap(h: Heap, size: int) returns (p: int)
    requires h.Ready() && 0 <= size < 0x1_0000_0000_0000_0000
    modifies h, h.hm, h.hm.objs, h.freeSlot
    ensures h.Ready() && fresh(h.hm.objs - old(h.hm.objs)) && h.limit == old(h.limit) && h.overflow == old(h.overflow)
    ensures h.floating == old(h.floating)
    ensures p == 0 ==> Refused(old(h.s), h.s)
    ensures p != 0 ==> Allocated(old(h.s), h.s, p) && size <= Usable(h.s.live[p])
    ensures p != 0 ==> Drift(h.size, h.s) == Drift(old(h.size), old(h.s)) && h.peak == Larger(old(h.peak), h.size)
    ensures size <= MAX_LARGE ==> h.reserved == old(h.reserved) && LiveKept(old(h.s), h.s)
    ensures size <= MAX_LARGE && !h.overflow && old(h.realSize) <= h.limit ==> h.realSize <= h.limit
    ensures p != 0 && size <= MAX_SMALL ==> h.s.live == old(h.s).live[p := Small(ClassFor(size))]
    ensures size <= MAX_LARGE ==> h.realSize <= old(h.realSize) + CHUNK
    ensures p != 0 ==> h.s.live[p] == BlockFor(size)
    ensures MAX_SMALL < size <= MAX_LARGE ==> (p != 0 ==> RunAt(h.s, p, PagesFor(size))) && Housekept(old(h.s), h.s)
    ensures old(h.refusals) <= h.refusals
    ensures p == 0 ==> Exhausted(old(h.s), size) && OutOfMemory(h, size, old(h.refusals))
    ensures !Exhausted(old(h.s), size) ==> h.realSize == old(h.realSize) && h.refusals == old(h.refusals)
    ensures size <= MAX_LARGE && Exhausted(old(h.s), size) && CHUNK <= Room(h.limit, old(h.realSize)) && h.refusals == old(h.refusals) ==>
      p != 0 && h.realSize == old(h.realSize) + CHUNK
    ensures size > MAX_LARGE && p != 0 && !h.overflow && old(h.realSize) <= h.limit ==> h.realSize <= h.limit + CHUNK
    ensures size > MAX_LARGE && p != 0 && !h.overflow && old(h.realSize) + RoundUp(size) + CHUNK <= h.limit ==> h.realSize <= h.limit
    ensures size > MAX_LARGE && !h.overflow && Fitting(size, h.limit, old(h.realSize)) && h.refusals == old(h.refusals) ==>
      p != 0 && h.realSize == old(h.realSize) + RoundUp(size) + if ClassEmpty(old(h.s), NODE_BIN) then CHUNK else 0
    ensures h.realPeak == Larger(old(h.realPeak), h.realSize) && h.peakChunksCount == Larger(old(h.peakChunksCount), |h.s.ring|)
    decreases if size > MAX_LARGE then 1 else 0, 3
  {
    hide Sound, Headers.Valid, Clear, Heap.Heads, Heap.Account, SumHuge, Heap.Tables, LiveKept, Settled, Allocated, Drift, SumUsable, Refused,
      RoundUp, IsNode, BinSize, ClassFor, RunAt, Housekept, ClassEmpty, MustAsk, LimitHit, GcSpec.NoIdle, Room;
    ghost var s := h.s;
    SlotFacts(h, 0);
    ClassOfSmall(size);
    var sz := if size < MIN_USABLE then MIN_USABLE else size;
    if sz <= MAX_SMALL {
      p := AllocSmallBlock(h, sz);
    } else if sz <= MAX_LARGE {
      p := AllocLargeBlock(h, sz);
    } else {
      ghost var mid;
      p, mid := AllocHuge(h, sz);
    }
  }

  lemma ClassOfSmall(size: int)
    ensures 0 <= size < MIN_USABLE ==> ClassFor(size) == ClassFor(MIN_USABLE)
    ensures 0 <= size <= MAX_SMALL ==> ClassFor(size) < BINS && size <= Usable(Small(ClassFor(size)))
  {}
}
