/** The parts of the heap invariant that span memory, labels, lists and counters, and what
    a write inside one block cannot disturb. */
module HeapModel {
  import opened Sizes
  import opened Pages
  import opened Memory
  import opened Blocks
  import opened FreeLists

  /** One huge block and the list node that records it. */
  datatype HugeRec = HugeRec(node: int, ptr: int, size: int)

  const NODE_BIN: nat := 2     // list nodes are three words
  const NODE_SIZE: int := 24

  // ----- chunks -----

  ghost predicate ChunksOK(pg: map<int, Pages>, ring: seq<int>, cached: seq<int>) {
    && (forall c :: c in pg ==> ChunkBase(c) && (c in ring || c in cached))
    && (forall i :: 0 <= i < |ring| ==> ring[i] in pg && PagesOK(pg[ring[i]]))
    && (forall i :: 0 <= i < |cached| ==>
         cached[i] in pg && cached[i] !in ring && Blank(pg[cached[i]].own) && |pg[cached[i]].info| == PAGES)
  }

  lemma ChunksAreWF(pg: map<int, Pages>, ring: seq<int>, cached: seq<int>)
    requires ChunksOK(pg, ring, cached)
    ensures ChunksWF(pg)
  {
    hide RunsOK, TailOK, Blank, CountFree;
  }

  /** A chunk whose only owned page is its header. */
  predicate EmptyChunk(p: Pages) {
    p.freePages == PAGES - FIRST_PAGE
  }

  /** No chunk but the main one is completely free between calls. */
  ghost predicate NonEmpty(pg: map<int, Pages>, ring: seq<int>) {
    forall i :: 1 <= i < |ring| && ring[i] in pg ==> !EmptyChunk(pg[ring[i]])
  }

  // ----- regions of memory -----

  ghost predicate HugeRegion(mem: Mem, h: HugeRec) {
    && h.ptr % CHUNK == 0 && 0 < h.ptr && h.ptr + h.size <= ADDRESS_LIMIT
    && 0 < h.size && h.size % PAGE == 0 && Mapped(mem, h.ptr, h.size)
  }

  predicate Apart(a: int, n: int, b: int, k: int) {
    a + n <= b || b + k <= a
  }

  /** Chunks and huge blocks are mapped and pairwise disjoint. */
  ghost predicate RegionsOK(mem: Mem, pg: map<int, Pages>, huge: seq<HugeRec>) {
    && (forall c :: c in pg ==> Mapped(mem, c, CHUNK))
    && (forall i :: 0 <= i < |huge| ==> HugeRegion(mem, huge[i]))
    && (forall i, c :: 0 <= i < |huge| && c in pg ==> Apart(huge[i].ptr, huge[i].size, c, CHUNK))
    && (forall i, j :: 0 <= i < j < |huge| ==> Apart(huge[i].ptr, huge[i].size, huge[j].ptr, huge[j].size))
  }

  // ----- the huge list in memory -----

  function FirstNode(h: seq<HugeRec>): int {
    if h == [] then 0 else h[0].node
  }

  ghost predicate NodeOK(mem: Mem, h: HugeRec, next: int) {
    && 0 < h.node && h.node + NODE_SIZE <= ADDRESS_LIMIT && Mapped(mem, h.node, NODE_SIZE)
    && 0 <= h.ptr && 0 <= h.size && 0 <= next
    && LoadPtr(mem, h.node) == h.ptr && LoadPtr(mem, h.node + 8) == h.size && LoadPtr(mem, h.node + 16) == next
  }

  ghost predicate NodesOK(mem: Mem, huge: seq<HugeRec>) {
    forall i :: 0 <= i < |huge| ==> NodeOK(mem, huge[i], FirstNode(huge[i + 1..]))
  }

  /** The huge list names the huge live blocks, each once; its nodes are live small blocks. */
  ghost predicate HugeLive(huge: seq<HugeRec>, live: map<int, Block>) {
    && (forall i :: 0 <= i < |huge| ==>
         && huge[i].node in live && live[huge[i].node] == Small(NODE_BIN)
         && huge[i].ptr in live && live[huge[i].ptr].Huge? && live[huge[i].ptr].size == huge[i].size)
    && (forall i, j :: 0 <= i < j < |huge| ==> huge[i].node != huge[j].node && huge[i].ptr != huge[j].ptr)
    && (forall a :: a in live && live[a].Huge? ==> IsHuge(huge, a))
  }

  ghost predicate IsHuge(huge: seq<HugeRec>, a: int) {
    exists i :: 0 <= i < |huge| && huge[i].ptr == a
  }

  ghost predicate IsNode(huge: seq<HugeRec>, a: int) {
    exists i :: 0 <= i < |huge| && huge[i].node == a
  }

  // ----- free lists -----

  ghost predicate Lists(mem: Mem, key: Word8, slots: Slots) {
    forall b :: 0 <= b < BINS && b < |slots| ==> Chain(mem, key, BinSize(b), slots[b])
  }

  /** Class 0 is too small for a link and its shadow and is never used. */
  ghost predicate NoTiny(live: map<int, Block>) {
    forall a :: a in live ==> live[a] != Small(0)
  }

  // ----- counters -----

  function UsableAt(live: map<int, Block>, a: int): nat {
    if a in live then Usable(live[a]) else 0
  }

  /** Usable size of the live blocks at addresses below `n`. */
  ghost function SumBelow(live: map<int, Block>, n: nat): nat {
    if n == 0 then 0 else SumBelow(live, n - 1) + UsableAt(live, n - 1)
  }

  /** Total usable size of all live blocks. */
  ghost function SumUsable(live: map<int, Block>): nat {
    SumBelow(live, ADDRESS_LIMIT)
  }

  function SumHuge(huge: seq<HugeRec>): int {
    if huge == [] then 0 else huge[0].size + SumHuge(huge[1..])
  }

  /** Changing one entry changes the sum by the difference. */
  lemma {:induction false} SumOneChanged(live: map<int, Block>, live2: map<int, Block>, a: int, n: nat)
    requires forall x :: x != a ==> UsableAt(live2, x) == UsableAt(live, x)
    ensures SumBelow(live2, n) == SumBelow(live, n) + (if 0 <= a < n then UsableAt(live2, a) - UsableAt(live, a) else 0)
  {
    hide UsableAt;
    if n > 0 {
      SumOneChanged(live, live2, a, n - 1);
    }
  }

  lemma SumRemove(live: map<int, Block>, a: int)
    requires a in live && IsAddress(a)
    ensures SumUsable(live) == Usable(live[a]) + SumUsable(live - {a})
  {
    hide Usable;
    SumOneChanged(live, live - {a}, a, ADDRESS_LIMIT);
  }

  lemma SumSet(live: map<int, Block>, a: int, k: Block)
    requires IsAddress(a)
    ensures SumUsable(live[a := k]) == SumUsable(live) - UsableAt(live, a) + Usable(k)
  {
    hide Usable;
    SumOneChanged(live, live[a := k], a, ADDRESS_LIMIT);
  }

  lemma {:induction false} SumEmpty(n: nat)
    ensures SumBelow(map[], n) == 0
  {
    if n > 0 { SumEmpty(n - 1); }
  }

  // ----- writes inside one block -----

  /** A write inside block `a` leaves every other block's bytes alone. */
  lemma OtherBlockBytes(pg: map<int, Pages>, m: Mem, m2: Mem, a: int, x: int)
    requires ChunksWF(pg) && BlockAt(pg, a) != NoBlock && BlockAt(pg, x) != NoBlock && a != x
    requires OnlyInside(m, m2, a, Usable(BlockAt(pg, a)))
    ensures SameBytes(m, m2, x, Usable(BlockAt(pg, x)))
  {
    hide ChunksWF, BlockAt, Usable, SameBytes, OnlyInside;
    if a < x { BlocksApart(pg, a, x); } else { BlocksApart(pg, x, a); }
    InsideElsewhere(m, m2, a, Usable(BlockAt(pg, a)), x, Usable(BlockAt(pg, x)));
  }

  lemma OtherHugeBytes(pg: map<int, Pages>, huge: seq<HugeRec>, m: Mem, m2: Mem, a: int, i: int)
    requires ChunksWF(pg) && BlockAt(pg, a) != NoBlock && RegionsOK(m, pg, huge) && 0 <= i < |huge|
    requires OnlyInside(m, m2, a, Usable(BlockAt(pg, a)))
    ensures SameBytes(m, m2, huge[i].ptr, huge[i].size)
  {
    hide ChunksWF, BlockAt, Usable, SameBytes, OnlyInside;
    BlockInChunk(pg, a);
    assert Apart(huge[i].ptr, huge[i].size, Base(a), CHUNK);
    InsideElsewhere(m, m2, a, Usable(BlockAt(pg, a)), huge[i].ptr, huge[i].size);
  }

  /** Every live block but `a` keeps its bytes. */
  ghost predicate SameLive(m: Mem, m2: Mem, live: map<int, Block>, a: int) {
    forall x :: x in live && x != a ==> SameBytes(m, m2, x, Usable(live[x]))
  }

  lemma LiveBytes(pg: map<int, Pages>, slots: Slots, live: map<int, Block>, huge: seq<HugeRec>, m: Mem, m2: Mem, a: int)
    requires ChunksWF(pg) && LiveInv(pg, slots, live) && RegionsOK(m, pg, huge) && HugeLive(huge, live)
    requires BlockAt(pg, a) != NoBlock
    requires OnlyInside(m, m2, a, Usable(BlockAt(pg, a)))
    ensures SameLive(m, m2, live, a)
  {
    hide ChunksWF, BlockAt, Usable, SameBytes, OnlyInside, RegionsOK, HeadInfo, Full;
    forall x | x in live && x != a ensures SameBytes(m, m2, x, Usable(live[x])) {
      assert Owned(pg, slots, live, x);
      if live[x].Huge? {
        var i :| 0 <= i < |huge| && huge[i].ptr == x;
        OtherHugeBytes(pg, huge, m, m2, a, i);
        assert Usable(live[x]) == huge[i].size by { HugeUsable(live[x]); }
      } else {
        OtherBlockBytes(pg, m, m2, a, x);
      }
    }
  }

  lemma HugeUsable(k: Block)
    ensures k.Huge? ==> Usable(k) == k.size
  {}

  lemma ListsKept(pg: map<int, Pages>, slots: Slots, live: map<int, Block>, key: Word8, m: Mem, m2: Mem, a: int, b: nat)
    requires ChunksWF(pg) && LiveInv(pg, slots, live) && b < BINS
    requires BlockAt(pg, a) != NoBlock && a !in slots[b]
    requires OnlyInside(m, m2, a, Usable(BlockAt(pg, a)))
    requires Chain(m, key, BinSize(b), slots[b])
    ensures Chain(m2, key, BinSize(b), slots[b])
    ensures forall i :: 0 <= i < |slots[b]| ==> SameBytes(m, m2, slots[b][i], BinSize(b))
  {
    hide ChunksWF, BlockAt, Usable, SameBytes, OnlyInside, Owned, Chain, BinSize;
    assert OnList(pg, slots, b);
    forall i | 0 <= i < |slots[b]| ensures SameBytes(m, m2, slots[b][i], BinSize(b)) {
      OtherBlockBytes(pg, m, m2, a, slots[b][i]);
      SmallUsable(b);
    }
    ChainSame(m, m2, key, BinSize(b), slots[b]);
  }

  lemma SmallUsable(b: nat)
    requires b < BINS
    ensures Usable(Small(b)) == BinSize(b)
  {}

  lemma NodeKept(m: Mem, m2: Mem, h: HugeRec, next: int)
    requires NodeOK(m, h, next) && SameBytes(m, m2, h.node, NODE_SIZE)
    ensures NodeOK(m2, h, next)
  {
    hide Load, Value;
    LoadSame(m, m2, h.node);
    LoadSame(m, m2, h.node + 8);
    LoadSame(m, m2, h.node + 16);
  }

  lemma NodesKept(m: Mem, m2: Mem, huge: seq<HugeRec>, live: map<int, Block>, a: int)
    requires NodesOK(m, huge) && HugeLive(huge, live) && SameLive(m, m2, live, a) && !IsNode(huge, a)
    ensures NodesOK(m2, huge)
  {
    hide SameBytes, NodeOK, BinSize;
    assert BinSize(NODE_BIN) == NODE_SIZE by { NodeSize(); }
    forall i | 0 <= i < |huge| ensures NodeOK(m2, huge[i], FirstNode(huge[i + 1..])) {
      assert huge[i].node != a;
      NodeKept(m, m2, huge[i], FirstNode(huge[i + 1..]));
    }
  }

  lemma NodeSize()
    ensures BinSize(NODE_BIN) == NODE_SIZE
  {}

  lemma RegionsKept(m: Mem, m2: Mem, pg: map<int, Pages>, huge: seq<HugeRec>)
    requires RegionsOK(m, pg, huge) && m2.Keys == m.Keys
    ensures RegionsOK(m2, pg, huge)
  {
    forall c | c in pg ensures Mapped(m2, c, CHUNK) { MappedKept(m, m2, c, CHUNK); }
    forall i | 0 <= i < |huge| ensures HugeRegion(m2, huge[i]) {
      assert HugeRegion(m, huge[i]);
      MappedKept(m, m2, huge[i].ptr, huge[i].size);
    }
  }

  lemma MappedKept(m: Mem, m2: Mem, a: int, n: int)
    requires Mapped(m, a, n) && m2.Keys == m.Keys
    ensures Mapped(m2, a, n)
  {
    forall x | a <= x < a + n ensures x in m2 { assert x in m.Keys; }
  }

  /** What a write inside one block that is not a free element leaves intact. */
  lemma WriteKeepsLists(pg: map<int, Pages>, slots: Slots, live: map<int, Block>, huge: seq<HugeRec>, key: Word8,
                        m: Mem, m2: Mem, a: int)
    requires ChunksWF(pg) && LiveInv(pg, slots, live) && RegionsOK(m, pg, huge) && HugeLive(huge, live) && Lists(m, key, slots)
    requires BlockAt(pg, a) != NoBlock
    requires forall b :: 0 <= b < BINS ==> a !in slots[b]
    requires OnlyInside(m, m2, a, Usable(BlockAt(pg, a)))
    ensures Lists(m2, key, slots) && RegionsOK(m2, pg, huge)
    ensures SameLive(m, m2, live, a)
    ensures forall b, i :: 0 <= b < BINS && 0 <= i < |slots[b]| ==> SameBytes(m, m2, slots[b][i], BinSize(b))
  {
    assert |slots| == BINS;
    hide ChunksWF, BlockAt, Usable, SameBytes, LiveInv, HugeLive, Chain, BinSize, SameLive, RegionsOK;
    LiveBytes(pg, slots, live, huge, m, m2, a);
    RegionsKept(m, m2, pg, huge);
    forall b | 0 <= b < BINS
      ensures Chain(m2, key, BinSize(b), slots[b])
      ensures forall i :: 0 <= i < |slots[b]| ==> SameBytes(m, m2, slots[b][i], BinSize(b))
    {
      ListsKept(pg, slots, live, key, m, m2, a, b);
    }
  }

  /** The same for a block that is not a list node either. */
  lemma WriteKeeps(pg: map<int, Pages>, slots: Slots, live: map<int, Block>, huge: seq<HugeRec>, key: Word8,
                   m: Mem, m2: Mem, a: int)
    requires ChunksWF(pg) && LiveInv(pg, slots, live) && RegionsOK(m, pg, huge) && HugeLive(huge, live)
    requires NodesOK(m, huge) && Lists(m, key, slots)
    requires BlockAt(pg, a) != NoBlock && !IsNode(huge, a)
    requires forall b :: 0 <= b < BINS ==> a !in slots[b]
    requires OnlyInside(m, m2, a, Usable(BlockAt(pg, a)))
    ensures Lists(m2, key, slots) && NodesOK(m2, huge) && RegionsOK(m2, pg, huge)
    ensures SameLive(m, m2, live, a)
    ensures forall b, i :: 0 <= b < BINS && 0 <= i < |slots[b]| ==> SameBytes(m, m2, slots[b][i], BinSize(b))
  {
    assert |slots| == BINS;
    hide ChunksWF, BlockAt, Usable, SameBytes, LiveInv, HugeLive, NodesOK, Chain, BinSize, SameLive, RegionsOK, IsNode, Lists;
    WriteKeepsLists(pg, slots, live, huge, key, m, m2, a);
    NodesKept(m, m2, huge, live, a);
  }

  /** A live block is not on any free list. */
  lemma LiveNotFree(pg: map<int, Pages>, slots: Slots, live: map<int, Block>, a: int, b: nat)
    requires LiveInv(pg, slots, live) && ChunksWF(pg) && a in live && b < BINS
    ensures a !in slots[b]
    ensures !live[a].Huge? ==> BlockAt(pg, a) == live[a]
  {
    hide BlockAt, HeadInfo, Full, ChunksWF;
    assert Owned(pg, slots, live, a);
    assert OnList(pg, slots, b);
    ListedIsSmall(pg, slots, b, a);
  }

  lemma ListedIsSmall(pg: map<int, Pages>, slots: Slots, b: nat, a: int)
    requires |slots| == BINS && b < BINS && OnList(pg, slots, b)
    ensures a in slots[b] ==> BlockAt(pg, a) == Small(b)
  {
    hide BlockAt;
  }

  /** Freeing the small block `a`: it is written, and becomes the head of its list. */
  lemma ListsPush(m: Mem, m2: Mem, key: Word8, slots: Slots, b: nat, a: int)
    requires |slots| == BINS && b < BINS
    requires Lists(m, key, slots) && Lists(m2, key, slots)
    requires forall i :: 0 <= i < |slots[b]| ==> SameBytes(m, m2, slots[b][i], BinSize(b))
    requires LinkOK(m2, key, a, BinSize(b), First(slots[b]))
    ensures Lists(m2, key, slots[b := [a] + slots[b]])
  {
    hide Chain, BinSize, SameBytes, LinkOK;
    ChainPush(m, m2, key, BinSize(b), slots[b], a);
  }

  lemma ListsPop(m: Mem, key: Word8, slots: Slots, b: nat)
    requires |slots| == BINS && b < BINS && slots[b] != [] && Lists(m, key, slots)
    ensures LinkOK(m, key, slots[b][0], BinSize(b), First(slots[b][1..]))
    ensures Lists(m, key, slots[b := slots[b][1..]])
  {
    hide Chain, BinSize, LinkOK;
    ChainTail(m, key, BinSize(b), slots[b]);
  }

  lemma ListsSet(m: Mem, key: Word8, slots: Slots, b: nat, s: seq<int>)
    requires |slots| == BINS && b < BINS && Lists(m, key, slots) && Chain(m, key, BinSize(b), s)
    ensures Lists(m, key, slots[b := s])
  {
    hide Chain, BinSize;
  }

  lemma HugeLiveSet(huge: seq<HugeRec>, live: map<int, Block>, a: int, k: Block)
    requires HugeLive(huge, live) && !k.Huge?
    requires a !in live || (!live[a].Huge? && !IsNode(huge, a))
    ensures HugeLive(huge, live[a := k])
  {
    hide IsHuge;
  }

  lemma HugeLiveRemove(huge: seq<HugeRec>, live: map<int, Block>, a: int)
    requires HugeLive(huge, live)
    requires a in live ==> !live[a].Huge? && !IsNode(huge, a)
    ensures HugeLive(huge, live - {a})
  {
    hide IsHuge;
  }
}
