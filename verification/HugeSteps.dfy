/** Huge blocks on the state of the heap: entering one in the list, taking one out. */
module HugeSteps {
  import opened Sizes
  import opened Pages
  import opened Memory
  import opened Blocks
  import opened Live
  import opened FreeLists
  import opened Rings
  import opened HeapModel
  import opened HeapState

  // ----- reading and writing list nodes -----

  lemma StorePtrElsewhere(m: Mem, a: int, v: int, b: int)
    requires 0 <= v && Mapped(m, b, 8) && (b + 8 <= a || a + 8 <= b)
    ensures Mapped(StorePtr(m, a, v), b, 8) && LoadPtr(StorePtr(m, a, v), b) == LoadPtr(m, b)
  {
    hide Word, Load, Store, Value;
    StoreElsewhere(m, a, Word(v), b, 8);
    LoadSame(m, StorePtr(m, a, v), b);
  }

  lemma StorePtrLoad(m: Mem, a: int, v: int)
    requires IsAddress(v) && Mapped(m, a, 8)
    ensures Mapped(StorePtr(m, a, v), a, 8) && LoadPtr(StorePtr(m, a, v), a) == v
  {
    hide Word, Load, Store, Value;
    StoreLoad(m, a, Word(v));
    ValueOfWord(v);
  }

  /** list->ptr, list->size, list->next */
  function WriteNode(m: Mem, node: int, ptr: int, size: int, next: int): Mem
    requires 0 <= ptr && 0 <= size && 0 <= next
  {
    StorePtr(StorePtr(StorePtr(m, node, ptr), node + 8, size), node + 16, next)
  }

  lemma WriteNodeOK(m: Mem, h: HugeRec, next: int)
    requires 0 < h.node && h.node + NODE_SIZE <= ADDRESS_LIMIT && Mapped(m, h.node, NODE_SIZE)
    requires IsAddress(h.ptr) && IsAddress(h.size) && IsAddress(next)
    ensures NodeOK(WriteNode(m, h.node, h.ptr, h.size, next), h, next)
    ensures OnlyInside(m, WriteNode(m, h.node, h.ptr, h.size, next), h.node, NODE_SIZE)
  {
    hide StorePtr, LoadPtr, OnlyInside, Mapped, Load;
    var m1 := StorePtr(m, h.node, h.ptr);
    var m2 := StorePtr(m1, h.node + 8, h.size);
    var m3 := StorePtr(m2, h.node + 16, next);
    NodeRoom(m, h.node);
    StorePtrLoad(m, h.node, h.ptr);
    StorePtrKeys(m, h.node, h.ptr);
    NodeRoom(m1, h.node);
    StorePtrLoad(m1, h.node + 8, h.size);
    StorePtrElsewhere(m1, h.node + 8, h.size, h.node);
    StorePtrKeys(m1, h.node + 8, h.size);
    NodeRoom(m2, h.node);
    StorePtrLoad(m2, h.node + 16, next);
    StorePtrElsewhere(m2, h.node + 16, next, h.node);
    StorePtrElsewhere(m2, h.node + 16, next, h.node + 8);
    StorePtrKeys(m2, h.node + 16, next);
    NodeRoom(m3, h.node);
    PtrInside(m, h.node, h.ptr, h.node, NODE_SIZE);
    PtrInside(m1, h.node + 8, h.size, h.node, NODE_SIZE);
    PtrInside(m2, h.node + 16, next, h.node, NODE_SIZE);
    OnlyInsideTwice(m, m1, m2, h.node, NODE_SIZE);
    OnlyInsideTwice(m, m2, m3, h.node, NODE_SIZE);
  }

  lemma PtrInside(m: Mem, a: int, v: int, b: int, n: int)
    requires 0 <= v && b <= a && a + 8 <= b + n
    ensures OnlyInside(m, StorePtr(m, a, v), b, n)
  {
    hide Word, OnlyInside, Store;
    StoreInside(m, a, Word(v), b, n);
  }

  lemma StorePtrKeys(m: Mem, a: int, v: int)
    requires 0 <= v
    ensures forall b, n :: Mapped(m, b, n) ==> Mapped(StorePtr(m, a, v), b, n)
  {
    hide Mapped;
    forall b, n | Mapped(m, b, n) ensures Mapped(StorePtr(m, a, v), b, n) {
      MappedKept(m, StorePtr(m, a, v), b, n);
    }
  }

  lemma NodeRoom(m: Mem, a: int)
    requires Mapped(m, a, NODE_SIZE)
    ensures Mapped(m, a, 8) && Mapped(m, a + 8, 8) && Mapped(m, a + 16, 8)
  {}

  /** prev->next = next */
  lemma RelinkNode(m: Mem, h: HugeRec, old_: int, next: int)
    requires NodeOK(m, h, old_) && IsAddress(next)
    ensures NodeOK(StorePtr(m, h.node + 16, next), h, next)
    ensures OnlyInside(m, StorePtr(m, h.node + 16, next), h.node, NODE_SIZE)
  {
    hide StorePtr, OnlyInside, Mapped, Load, Value;
    NodeRoom(m, h.node);
    StorePtrLoad(m, h.node + 16, next);
    StorePtrElsewhere(m, h.node + 16, next, h.node);
    StorePtrElsewhere(m, h.node + 16, next, h.node + 8);
    StorePtrKeys(m, h.node + 16, next);
    PtrInside(m, h.node + 16, next, h.node, NODE_SIZE);
  }

  // ----- a region that joins the heap -----

  /** A mapped range and an unmapped one do not meet. */
  lemma FreshApart(m: Mem, a: int, n: int, b: int, k: int)
    requires Mapped(m, b, k) && 0 < n && 0 < k && forall x :: a <= x < a + n ==> x !in m
    ensures Apart(a, n, b, k) && Apart(b, k, a, n)
  {
    var x := if a <= b then b else a;
    assert b <= x < b + k ==> x in m;
    assert a <= x < a + n ==> x !in m;
  }

  lemma FreshUnused(s: State, p: int, n: int)
    requires Sound(s) && 0 < n && forall x :: p <= x < p + n ==> x !in s.mem
    ensures Unused(s, p, n)
  {
    hide LiveInv, Lists, HugeLive, NodesOK, LinksOK, ChunksOK, Mapped, Apart;
    forall c | c in s.pg ensures Apart(p, n, c, CHUNK) { FreshApart(s.mem, p, n, c, CHUNK); }
    forall i | 0 <= i < |s.huge| ensures Apart(p, n, s.huge[i].ptr, s.huge[i].size) {
      assert HugeRegion(s.mem, s.huge[i]);
      FreshApart(s.mem, p, n, s.huge[i].ptr, s.huge[i].size);
    }
  }

  /** Live blocks are mapped. */
  lemma LiveMapped(s: State, a: int)
    requires Sound(s) && a in s.live
    ensures a in s.mem && Mapped(s.mem, a, Usable(s.live[a])) && 0 < Usable(s.live[a]) && 0 < a && a + Usable(s.live[a]) <= ADDRESS_LIMIT
  {
    hide Lists, NodesOK, LinksOK, ChunksOK, BlockAt, HeadInfo, Full, Usable, OnList, ChunksWF;
    ChunksAreWF(s.pg, s.ring, s.cached);
    assert Owned(s.pg, s.slots, s.live, a);
    if s.live[a].Huge? {
      var i :| 0 <= i < |s.huge| && s.huge[i].ptr == a;
      assert HugeRegion(s.mem, s.huge[i]);
      HugeUsable(s.live[a]);
    } else {
      BlockInChunk(s.pg, a);
      MappedPart(s.mem, Base(a), CHUNK, a, Usable(s.live[a]));
    }
  }

  lemma FreshNotLive(s: State, p: int)
    requires Sound(s) && p !in s.mem
    ensures p !in s.live
  {
    hide Sound;
    if p in s.live { LiveMapped(s, p); }
  }

  // ----- taking a block out of the list -----

  /** Record `i` leaves the list: the node before it is relinked, its own node stays live. */
  function DropHuge(s: State, i: int, m2: Mem): State
    requires 0 <= i < |s.huge|
  {
    s.(huge := WithoutAt(s.huge, i), live := s.live - {s.huge[i].ptr}, mem := m2)
  }

  /** What the memory must be after relinking. */
  ghost predicate Relinked(s: State, i: int, m2: Mem)
    requires 0 <= i < |s.huge|
  {
    if i == 0 then m2 == s.mem
    else OnlyInside(s.mem, m2, s.huge[i - 1].node, NODE_SIZE) && NodeOK(m2, s.huge[i - 1], FirstNode(s.huge[i + 1..]))
  }

  /** Record `j` of those left, by its old position. */
  lemma LeftAt(huge: seq<HugeRec>, i: int, j: int) returns (k: int)
    requires 0 <= i < |huge| && 0 <= j < |huge| - 1
    ensures k == if j < i then j else j + 1
    ensures |WithoutAt(huge, i)| == |huge| - 1 && WithoutAt(huge, i)[j] == huge[k]
  {
    k := if j < i then j else j + 1;
  }

  lemma HugeDropOne(huge: seq<HugeRec>, live: map<int, Block>, i: int, j: int)
    requires HugeLive(huge, live) && 0 <= i < |huge| && 0 <= j < |huge| - 1
    ensures |WithoutAt(huge, i)| == |huge| - 1
    ensures var r, l2 := WithoutAt(huge, i)[j], live - {huge[i].ptr};
      && r.node in l2 && l2[r.node] == Small(NODE_BIN) && r.ptr in l2 && l2[r.ptr].Huge? && l2[r.ptr].size == r.size
      && r.node != huge[i].node
  {
    hide WithoutAt, IsHuge;
    var k := LeftAt(huge, i, j);
    assert huge[k].node != huge[i].node && huge[k].ptr != huge[i].ptr;
    assert live[huge[i].ptr].Huge?;
  }

  lemma HugeDropApart(huge: seq<HugeRec>, live: map<int, Block>, i: int, j: int, n: int)
    requires HugeLive(huge, live) && 0 <= i < |huge| && 0 <= j < n < |huge| - 1
    ensures |WithoutAt(huge, i)| == |huge| - 1
    ensures WithoutAt(huge, i)[j].node != WithoutAt(huge, i)[n].node && WithoutAt(huge, i)[j].ptr != WithoutAt(huge, i)[n].ptr
  {
    hide WithoutAt, IsHuge;
    var k := LeftAt(huge, i, j);
    var l := LeftAt(huge, i, n);
    assert k < l;
  }

  lemma StillHuge(huge: seq<HugeRec>, i: int, a: int)
    requires 0 <= i < |huge| && IsHuge(huge, a) && huge[i].ptr != a
    ensures IsHuge(WithoutAt(huge, i), a)
  {
    var j :| 0 <= j < |huge| && huge[j].ptr == a;
    assert WithoutAt(huge, i)[if j < i then j else j - 1].ptr == a;
  }

  lemma HugeLiveDrop(huge: seq<HugeRec>, live: map<int, Block>, i: int)
    requires HugeLive(huge, live) && 0 <= i < |huge|
    ensures HugeLive(WithoutAt(huge, i), live - {huge[i].ptr})
    ensures huge[i].node in live - {huge[i].ptr} && live[huge[i].node] == Small(NODE_BIN) && !IsNode(WithoutAt(huge, i), huge[i].node)
    ensures huge[i].ptr in live && live[huge[i].ptr] == Huge(huge[i].size)
  {
    hide WithoutAt, IsHuge;
    var h2, l2 := WithoutAt(huge, i), live - {huge[i].ptr};
    forall j | 0 <= j < |huge| - 1 ensures
      |h2| == |huge| - 1 && h2[j].node in l2 && l2[h2[j].node] == Small(NODE_BIN) && h2[j].ptr in l2 && l2[h2[j].ptr].Huge? && l2[h2[j].ptr].size == h2[j].size && h2[j].node != huge[i].node
    {
      HugeDropOne(huge, live, i, j);
    }
    assert |h2| == |huge| - 1 by { LeftSize(huge, i); }
    forall j, n | 0 <= j < n < |h2| ensures h2[j].node != h2[n].node && h2[j].ptr != h2[n].ptr {
      HugeDropApart(huge, live, i, j, n);
    }
    forall a | a in l2 && l2[a].Huge? ensures IsHuge(h2, a) {
      StillHuge(huge, i, a);
    }
  }

  lemma LeftSize(huge: seq<HugeRec>, i: int)
    requires 0 <= i < |huge|
    ensures |WithoutAt(huge, i)| == |huge| - 1
  {}

  lemma NodesDrop(m: Mem, m2: Mem, huge: seq<HugeRec>, live: map<int, Block>, i: int)
    requires NodesOK(m, huge) && HugeLive(huge, live) && 0 < i < |huge|
    requires SameLive(m, m2, live, huge[i - 1].node) && NodeOK(m2, huge[i - 1], FirstNode(huge[i + 1..]))
    ensures NodesOK(m2, WithoutAt(huge, i))
  {
    hide NodeOK, SameBytes, BinSize;
    var h2 := WithoutAt(huge, i);
    NodeSize();
    SmallUsable(NODE_BIN);
    forall j | 0 <= j < |h2| ensures NodeOK(m2, h2[j], FirstNode(h2[j + 1..])) {
      if j == i - 1 {
        assert h2[j + 1..] == huge[i + 1..];
      } else {
        var k := if j < i then j else j + 1;
        assert h2[j] == huge[k];
        assert FirstNode(h2[j + 1..]) == FirstNode(huge[k + 1..]);
        NodeKept(m, m2, huge[k], FirstNode(huge[k + 1..]));
      }
    }
  }

  lemma NodesDropFirst(m: Mem, huge: seq<HugeRec>)
    requires NodesOK(m, huge) && huge != []
    ensures NodesOK(m, WithoutAt(huge, 0))
  {
    hide NodeOK;
    var h2 := WithoutAt(huge, 0);
    forall j | 0 <= j < |h2| ensures NodeOK(m, h2[j], FirstNode(h2[j + 1..])) {
      assert h2[j] == huge[j + 1] && h2[j + 1..] == huge[j + 2..];
    }
  }

  lemma RegionsDropHuge(m: Mem, pg: map<int, Pages>, huge: seq<HugeRec>, i: int)
    requires RegionsOK(m, pg, huge) && 0 <= i < |huge|
    ensures RegionsOK(m, pg, WithoutAt(huge, i))
    ensures HugeRegion(m, huge[i])
    ensures forall c :: c in pg ==> Apart(huge[i].ptr, huge[i].size, c, CHUNK)
    ensures forall j :: 0 <= j < |huge| - 1 ==> Apart(huge[i].ptr, huge[i].size, WithoutAt(huge, i)[j].ptr, WithoutAt(huge, i)[j].size)
  {
    hide HugeRegion, Mapped, Apart;
    var h2 := WithoutAt(huge, i);
    forall j | 0 <= j < |h2| ensures h2[j] == huge[if j < i then j else j + 1] {}
    forall j | 0 <= j < |h2| ensures Apart(huge[i].ptr, huge[i].size, h2[j].ptr, h2[j].size) {
      ApartSwap(huge[i], h2[j]);
    }
  }

  lemma ApartSwap(a: HugeRec, b: HugeRec)
    ensures Apart(a.ptr, a.size, b.ptr, b.size) <==> Apart(b.ptr, b.size, a.ptr, a.size)
  {}

  /** The memory part of taking record `i` out of the list. */
  lemma DropMemory(s: State, i: nat, m2: Mem)
    requires Sound(s) && i < |s.huge| && Relinked(s, i, m2)
    ensures Lists(m2, s.key, s.slots) && NodesOK(m2, WithoutAt(s.huge, i)) && RegionsOK(m2, s.pg, s.huge) && m2.Keys == s.mem.Keys
    ensures SameLive(s.mem, m2, s.live, if i == 0 then 0 else s.huge[i - 1].node)
  {
    hide LiveInv, Lists, HugeLive, NodesOK, RegionsOK, LinksOK, ChunksOK, NodeOK, OnlyInside, SameLive, ChunksWF, BlockAt, IsNode, BinSize;
    if i == 0 {
      NodesDropFirst(s.mem, s.huge);
      assert SameLive(s.mem, s.mem, s.live, 0) by { SelfSame(s); }
    } else {
      var a := s.huge[i - 1].node;
      NodeFacts(s, i - 1);
      LiveSmall(s, NODE_BIN, a);
      SmallUsable(NODE_BIN);
      NodeSize();
      InsideSameKeys(s.mem, m2, a, NODE_SIZE);
      forall d | 0 <= d < BINS ensures a !in s.slots[d] { LiveNotFree(s.pg, s.slots, s.live, a, d); }
      WriteKeepsLists(s.pg, s.slots, s.live, s.huge, s.key, s.mem, m2, a);
      NodesDrop(s.mem, m2, s.huge, s.live, i);
    }
  }

  lemma SelfSame(s: State)
    ensures SameLive(s.mem, s.mem, s.live, 0)
  {}

  lemma NodeFacts(s: State, i: nat)
    requires Sound(s) && i < |s.huge|
    ensures s.huge[i].node in s.live && s.live[s.huge[i].node] == Small(NODE_BIN) && IsNode(s.huge, s.huge[i].node)
    ensures NodeOK(s.mem, s.huge[i], FirstNode(s.huge[i + 1..])) && HugeRegion(s.mem, s.huge[i])
    ensures s.huge[i].ptr in s.live && s.live[s.huge[i].ptr] == Huge(s.huge[i].size)
  {
    hide LiveInv, Lists, LinksOK, ChunksOK, NodeOK, HugeRegion, Mapped;
    assert s.live[s.huge[i].ptr].Huge? && s.live[s.huge[i].ptr].size == s.huge[i].size;
  }

  lemma DropHugeSound(s: State, i: nat, m2: Mem)
    requires Sound(s) && i < |s.huge| && Relinked(s, i, m2)
    ensures Sound(DropHuge(s, i, m2)) && Unused(DropHuge(s, i, m2), s.huge[i].ptr, s.huge[i].size)
    ensures SameLive(s.mem, m2, s.live, if i == 0 then 0 else s.huge[i - 1].node)
    ensures var t := DropHuge(s, i, m2); var a := s.huge[i].node;
      a in t.live && t.live[a] == Small(NODE_BIN) && !IsNode(t.huge, a)
  {
    hide LiveInv, Lists, HugeLive, NodesOK, RegionsOK, LinksOK, ChunksOK, NodeOK, OnlyInside, SameLive, ChunksWF, BlockAt, IsNode, Relinked, Apart;
    DropMemory(s, i, m2);
    NodeFacts(s, i);
    ChunksAreWF(s.pg, s.ring, s.cached);
    RegionFacts(s.mem, s.huge[i]);
    LiveHugeRemove(s.pg, s.slots, s.live, s.huge[i].ptr);
    HugeLiveDrop(s.huge, s.live, i);
    RegionsDropHuge(m2, s.pg, s.huge, i);
    assert NoTiny(s.live - {s.huge[i].ptr});
  }

  // ----- sums -----

  lemma {:induction false} SumDrop(huge: seq<HugeRec>, i: nat)
    requires i < |huge|
    ensures SumHuge(huge) == SumHuge(WithoutAt(huge, i)) + huge[i].size
  {
    if i == 0 {
      assert WithoutAt(huge, 0) == huge[1..];
    } else {
      SumDrop(huge[1..], i - 1);
      assert WithoutAt(huge, i)[1..] == WithoutAt(huge[1..], i - 1);
      assert WithoutAt(huge, i)[0] == huge[0];
    }
  }

  lemma {:induction false} SumSign(m: Mem, huge: seq<HugeRec>)
    requires forall i :: 0 <= i < |huge| ==> HugeRegion(m, huge[i])
    ensures 0 <= SumHuge(huge)
  {
    hide HugeRegion;
    if huge != [] {
      RegionFacts(m, huge[0]);
      SumSign(m, huge[1..]);
    }
  }

  /** Every recorded size is accounted for. */
  lemma SizeInSum(s: State, i: nat)
    requires Sound(s) && i < |s.huge|
    ensures 0 < s.huge[i].size <= SumHuge(s.huge) && s.huge[i].size % PAGE == 0
    ensures 0 <= SumHuge(WithoutAt(s.huge, i)) && SumHuge(s.huge) == SumHuge(WithoutAt(s.huge, i)) + s.huge[i].size
  {
    hide LiveInv, Lists, HugeLive, NodesOK, LinksOK, ChunksOK, HugeRegion, Mapped, Apart;
    RegionFacts(s.mem, s.huge[i]);
    SumDrop(s.huge, i);
    forall j | 0 <= j < |s.huge| - 1 ensures HugeRegion(s.mem, WithoutAt(s.huge, i)[j]) {
      assert WithoutAt(s.huge, i)[j] == s.huge[if j < i then j else j + 1];
    }
    SumSign(s.mem, WithoutAt(s.huge, i));
  }
}
