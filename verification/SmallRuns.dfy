/** Small runs: cutting a run into elements, and allocation and release of one element. */
module SmallRuns {
  import opened Sizes
  import opened Pages
  import opened Memory
  import opened Blocks
  import opened Live
  import opened FreeLists
  import opened Chunks
  import opened Rings
  import opened HeapModel
  import opened HeapState
  import opened HeaderTable
  import opened Collecting
  import opened Collectors
  import opened Heaps
  import opened PageAllocs

  /** Huge blocks, key and the bytes of live blocks are the same. */
  ghost predicate LiveKept(s: State, t: State)
    ensures LiveKept(s, t) ==> t.huge == s.huge && t.key == s.key
  {
    t.huge == s.huge && t.key == s.key && SameLive(s.mem, t.mem, s.live, 0)
  }

  // ----- the list of a fresh run -----

  /** Elements 1 to `k` of the run at `a` are linked to their successors. */
  ghost predicate Built(m: Mem, key: Word8, a: int, b: nat, k: int)
    requires b < BINS
  {
    forall i :: 1 <= i <= k ==> LinkOK(m, key, a + ElementOffset(b, i), BinSize(b), a + ElementOffset(b, i + 1))
  }

  /** Where element `k` lies in the run at `a`. */
  lemma ElementPlace(a: int, b: nat, k: nat)
    requires b < BINS && k < BinElements(b)
    ensures 0 <= ElementOffset(b, k) && ElementOffset(b, k) + BinSize(b) <= BinPages(b) * PAGE
    ensures ElementOffset(b, k + 1) == ElementOffset(b, k) + BinSize(b)
  {
    hide BinSize, BinElements, BinPages;
    BinFacts(b);
    ElementIs(b, k);
    ElementInside(b, ElementOffset(b, k));
  }

  lemma ElementsDisjoint(b: nat, i: nat, k: nat)
    requires b < BINS && i < k
    ensures ElementOffset(b, i) + BinSize(b) <= ElementOffset(b, k)
  {
    hide BinSize;
    BinFacts(b);
    MulOrder(BinSize(b), i, k);
  }

  /** Linking element `k + 1` keeps the links before it. */
  lemma BuiltNext(m: Mem, m2: Mem, key: Word8, a: int, b: nat, k: nat)
    requires b < BINS && Built(m, key, a, b, k) && OnlyInside(m, m2, a + ElementOffset(b, k + 1), BinSize(b))
    requires LinkOK(m2, key, a + ElementOffset(b, k + 1), BinSize(b), a + ElementOffset(b, k + 2))
    ensures Built(m2, key, a, b, k + 1)
  {
    hide LinkOK, OnlyInside, BinSize, ElementOffset, SameBytes;
    forall i | 1 <= i <= k
      ensures LinkOK(m2, key, a + ElementOffset(b, i), BinSize(b), a + ElementOffset(b, i + 1))
    {
      BuiltKept(m, m2, key, a, b, i, k + 1, a + ElementOffset(b, i + 1));
    }
  }

  lemma BuiltKept(m: Mem, m2: Mem, key: Word8, a: int, b: nat, i: nat, k: nat, next: int)
    requires b < BINS && i < k && LinkOK(m, key, a + ElementOffset(b, i), BinSize(b), next)
    requires OnlyInside(m, m2, a + ElementOffset(b, k), BinSize(b))
    ensures LinkOK(m2, key, a + ElementOffset(b, i), BinSize(b), next)
  {
    hide LinkOK, OnlyInside, BinSize, ElementOffset, SameBytes;
    ElementsDisjoint(b, i, k);
    InsideElsewhere(m, m2, a + ElementOffset(b, k), BinSize(b), a + ElementOffset(b, i), BinSize(b));
    LinkSame(m, m2, key, a + ElementOffset(b, i), BinSize(b), next);
  }

  /** With the last link null, the whole list is there. */
  lemma BuiltAll(m: Mem, m2: Mem, key: Word8, a: int, b: nat)
    requires b < BINS && Built(m, key, a, b, BinElements(b) - 2)
    requires OnlyInside(m, m2, a + ElementOffset(b, BinElements(b) - 1), BinSize(b))
    requires LinkOK(m2, key, a + ElementOffset(b, BinElements(b) - 1), BinSize(b), 0)
    ensures Chain(m2, key, BinSize(b), Elements(a, b))
  {
    hide LinkOK, OnlyInside, BinSize, ElementOffset, SameBytes, BinElements, Elements;
    var n, e := BinElements(b), Elements(a, b);
    forall i | 0 <= i < |e| ensures LinkOK(m2, key, e[i], BinSize(b), NextOf(e, i)) {
      ElementsSpread(a, b, i);
      if i + 1 < |e| {
        ElementsSpread(a, b, i + 1);
        BuiltKept(m, m2, key, a, b, i + 1, n - 1, NextOf(e, i));
      }
    }
  }

  /** The room of one element of the run. */
  lemma ElementRoom(m: Mem, a: int, b: nat, k: nat)
    requires 1 <= b < BINS && k < BinElements(b) && 0 < a && a + BinPages(b) * PAGE <= ADDRESS_LIMIT
    requires Mapped(m, a, BinPages(b) * PAGE)
    ensures var p := a + ElementOffset(b, k);
      && 0 < p && 16 <= BinSize(b) && Mapped(m, p, BinSize(b)) && p + BinSize(b) <= ADDRESS_LIMIT && IsAddress(p)
      && a <= p && p + BinSize(b) <= a + BinPages(b) * PAGE
  {
    hide BinSize, ElementOffset, BinElements, BinPages, Mapped;
    ElementPlace(a, b, k);
    SizeOfUsed(b);
    MappedPart(m, a, BinPages(b) * PAGE, a + ElementOffset(b, k), BinSize(b));
  }

  /** One link of the fresh list. */
  lemma LinkElement(m: Mem, key: Word8, a: int, b: nat, k: nat)
    requires 1 <= b < BINS && 1 <= k && k + 1 < BinElements(b) && 0 < a && a + BinPages(b) * PAGE <= ADDRESS_LIMIT
    requires Mapped(m, a, BinPages(b) * PAGE) && Built(m, key, a, b, k - 1)
    ensures 8 <= BinSize(b) && 0 <= a + ElementOffset(b, k) && a + ElementOffset(b, k) + BinSize(b) == a + ElementOffset(b, k + 1)
    ensures var p := a + ElementOffset(b, k);
      var m2 := SetNext(m, key, p, BinSize(b), p + BinSize(b));
      && Built(m2, key, a, b, k) && OnlyInside(m, m2, a, BinPages(b) * PAGE) && Mapped(m2, a, BinPages(b) * PAGE)
  {
    hide BinSize, ElementOffset, BinElements, BinPages, Mapped, SetNext, LinkOK, OnlyInside, Built;
    var p := a + ElementOffset(b, k);
    ElementRoom(m, a, b, k);
    ElementRoom(m, a, b, k + 1);
    ElementPlace(a, b, k);
    SetNextOK(m, key, p, BinSize(b), p + BinSize(b));
    var m2 := SetNext(m, key, p, BinSize(b), p + BinSize(b));
    BuiltNext(m, m2, key, a, b, k - 1);
    OnlyInsideWider(m, m2, p, BinSize(b), a, BinPages(b) * PAGE);
    MappedKept(m, m2, a, BinPages(b) * PAGE);
  }

  lemma LinkLastElement(m: Mem, key: Word8, a: int, b: nat)
    requires 1 <= b < BINS && 0 < a && a + BinPages(b) * PAGE <= ADDRESS_LIMIT
    requires Mapped(m, a, BinPages(b) * PAGE) && 2 <= BinElements(b) && Built(m, key, a, b, BinElements(b) - 2)
    ensures var p := a + ElementOffset(b, BinElements(b) - 1);
      var m2 := StorePtr(m, p, 0);
      && Chain(m2, key, BinSize(b), Elements(a, b)) && OnlyInside(m, m2, a, BinPages(b) * PAGE)
  {
    hide BinSize, ElementOffset, BinElements, BinPages, Mapped, StorePtr, LinkOK, OnlyInside, Built, Chain, Elements;
    var p := a + ElementOffset(b, BinElements(b) - 1);
    ElementRoom(m, a, b, BinElements(b) - 1);
    SetNullOK(m, key, p, BinSize(b));
    BuiltAll(m, StorePtr(m, p, 0), key, a, b);
    OnlyInsideWider(m, StorePtr(m, p, 0), p, BinSize(b), a, BinPages(b) * PAGE);
  }

  lemma BuiltNone(m: Mem, key: Word8, a: int, b: nat)
    requires b < BINS
    ensures Built(m, key, a, b, 0)
  {}

  /** Write the links of the elements after the first. */
  method BuildList(h: Heap, a: int, b: nat, ghost t: State)
    requires 1 <= b < BINS && 0 < a && a + BinPages(b) * PAGE <= ADDRESS_LIMIT && Mapped(h.mem, a, BinPages(b) * PAGE)
    requires h.Heads(t.slots, t.ring, t.cached, t.huge) && |t.slots| == BINS
    modifies h`mem, h.freeSlot
    ensures OnlyInside(old(h.mem), h.mem, a, BinPages(b) * PAGE)
    ensures Chain(h.mem, h.shadowKey, BinSize(b), Elements(a, b))
    ensures h.Heads(t.slots[b := Elements(a, b)], t.ring, t.cached, t.huge)
  {
    hide BinSize, ElementOffset, BinElements, BinPages, Mapped, StorePtr, SetNext, OnlyInside, Built, Chain, Elements, Heap.Heads;
    BinFacts(b);
    ghost var m0, n, k := h.mem, BinElements(b), 1;
    FirstOffsets(b);
    BuiltNone(h.mem, h.shadowKey, a, b);
    OnlyInsideRefl(h.mem, a, BinPages(b) * PAGE);
    var end := a + BinSize(b) * (BinElements(b) - 1);
    var p := a + BinSize(b);
    FirstElementIs(a, b);
    h.SetHead(b, p, Elements(a, b), t);
    while true
      invariant 1 <= k && k + 1 < n && p == a + ElementOffset(b, k)
      invariant Built(h.mem, h.shadowKey, a, b, k - 1) && OnlyInside(m0, h.mem, a, BinPages(b) * PAGE) && Mapped(h.mem, a, BinPages(b) * PAGE)
      invariant h.Heads(t.slots[b := Elements(a, b)], t.ring, t.cached, t.huge)
      decreases n - k
    {
      LinkElement(h.mem, h.shadowKey, a, b, k);
      ghost var m := h.mem;
      h.mem := SetNext(h.mem, h.shadowKey, p, BinSize(b), p + BinSize(b));
      OnlyInsideTwice(m0, m, h.mem, a, BinPages(b) * PAGE);
      p := p + BinSize(b);
      k := k + 1;
      AtEnd(b, k);
      if p == end { break; }
    }
    LinkLastElement(h.mem, h.shadowKey, a, b);
    ghost var m := h.mem;
    h.mem := StorePtr(h.mem, p, 0);
    OnlyInsideTwice(m0, m, h.mem, a, BinPages(b) * PAGE);
  }

  lemma OnlyInsideRefl(m: Mem, a: int, n: int)
    ensures OnlyInside(m, m, a, n)
  {}

  lemma FirstOffsets(b: nat)
    requires b < BINS
    ensures ElementOffset(b, 1) == BinSize(b) && ElementOffset(b, BinElements(b) - 1) == BinSize(b) * (BinElements(b) - 1)
  {
    hide BinSize, BinElements;
  }

  lemma FirstElementIs(a: int, b: nat)
    requires b < BINS
    ensures First(Elements(a, b)) == a + BinSize(b)
  {
    hide BinSize, BinElements;
    BinFacts(b);
    ElementsSpread(a, b, 0);
  }

  /** The end has been reached exactly at the last element. */
  lemma AtEnd(b: nat, k: nat)
    requires b < BINS && k < BinElements(b)
    ensures ElementOffset(b, k) == BinSize(b) * (BinElements(b) - 1) <==> k + 1 == BinElements(b)
  {
    hide BinSize, BinElements;
    BinFacts(b);
    if k + 1 < BinElements(b) { ElementsDisjoint(b, k, BinElements(b) - 1); }
  }

  // ----- allocation -----

  /** The memory of a live run. */
  lemma RunMemory(s: State, a: int, n: nat)
    requires Sound(s) && RunAt(s, a, n)
    ensures var c := Base(a); var page := PageOf(a);
      && c in s.ring && c in s.pg && 1 <= page && LargeRun(s, c, page, n) && a == PageAddr(c, page) && page < |s.pg[c].info|
      && PagesOK(s.pg[c]) && |s.slots| == BINS
    ensures 0 < a && a + n * PAGE <= ADDRESS_LIMIT && Mapped(s.mem, a, n * PAGE) && !IsNode(s.huge, a)
    ensures a in s.live && s.live[a] == Large(n)
  {
    hide Lists, HugeLive, NodesOK, LinksOK, PagesOK, ChunksOK, Mapped, IsNode, BlockAt, Owned, OnList;
    LargeIsLive(s, Base(a), PageOf(a), n);
    InRing(s.pg, s.ring, s.cached, Base(a));
    MappedPart(s.mem, Base(a), CHUNK, a, n * PAGE);
  }

  /** The class has no free element and the heap no room for another run of it. */
  ghost predicate ClassEmpty(s: State, b: nat)
    requires b < BINS
  {
    b < |s.slots| && s.slots[b] == [] && MustAsk(s, BinPages(b))
  }

  /** The free list of a run just cut: all its elements but the first, in the order of their
      addresses. */
  ghost predicate RestOf(list: seq<int>, p: int, b: nat)
    requires b < BINS
  {
    |list| == BinElements(b) - 1 && forall i :: 0 <= i < |list| ==> list[i] == p + (i + 1) * BinSize(b)
  }

  lemma ElementsAre(a: int, b: nat)
    requires b < BINS
    ensures RestOf(Elements(a, b), a, b)
  {}

  /** zend_mm_alloc_small_slow: a fresh run is cut, its first element handed out. */
  method AllocSmallSlow(h: Heap, b: nat) returns (p: int)
    requires h.Ready() && 1 <= b < BINS && h.s.slots[b] == []
    modifies h`s, h`mem, h`refusals, h`realSize, h`realPeak, h`chunksCount, h`peakChunksCount, h`cachedChunks, h`cachedChunksCount,
      h`lastDeleteBoundary, h`lastDeleteCount, h.hm, h.hm.objs, h.freeSlot
    ensures h.Ready() && fresh(h.hm.objs - old(h.hm.objs)) && LiveKept(old(h.s), h.s)
    ensures !h.overflow && old(h.realSize) <= h.limit ==> h.realSize <= h.limit
    ensures p == 0 ==> h.s.live == old(h.s).live
    ensures p != 0 ==> p !in old(h.s).live && h.s.live == old(h.s).live[p := Small(b)] && !IsNode(h.s.huge, p)
    ensures h.realSize <= old(h.realSize) + CHUNK && old(h.refusals) <= h.refusals
    ensures p == 0 ==> MustAsk(old(h.s), BinPages(b)) && Starved(h, old(h.refusals)) && h.realSize <= old(h.realSize)
    ensures !MustAsk(old(h.s), BinPages(b)) ==> h.realSize == old(h.realSize) && h.refusals == old(h.refusals)
    ensures MustAsk(old(h.s), BinPages(b)) && CHUNK <= Room(h.limit, old(h.realSize)) && h.refusals == old(h.refusals) ==>
      p != 0 && h.realSize == old(h.realSize) + CHUNK
    ensures h.realPeak == Larger(old(h.realPeak), h.realSize) && h.peakChunksCount == Larger(old(h.peakChunksCount), |h.s.ring|)
    ensures p != 0 ==> |h.s.slots| == BINS && RestOf(h.s.slots[b], p, b)
  {
    hide Sound, Headers.Valid, Clear, Heap.Heads, Heap.Account, SumHuge, Housekept, RunAt, Heap.Tables, BinPages, LiveKept, Settled,
      BestPlace, NoRoomBefore, IsNode, MustAsk, LimitHit, Room;
    BinFacts(b);
    ghost var s := h.s;
    SlotFacts(h, b);
    var a := AllocPages(h, BinPages(b));
    KeptIs(s, h.s);
    if a == 0 { return 0; }
    StillEmpty(s, h.s, b);
    p := CutRun(h, s, a, b);
  }

  lemma KeptIs(s: State, t: State)
    requires Housekept(s, t)
    ensures LiveKept(s, t)
  {
    hide SameLive;
  }

  lemma StillEmpty(s: State, t: State, b: nat)
    requires Housekept(s, t) && b < |s.slots| && s.slots[b] == []
    ensures |t.slots| == |s.slots| && t.slots[b] == []
  {
    hide SameLive;
    var l, m := s.slots[b], t.slots[b];
    assert forall x :: x in m ==> x in l;
    MemberOrEmpty(m);
  }

  lemma MemberOrEmpty(l: seq<int>)
    ensures l == [] || exists x :: x in l
  {
    if l != [] {
      var x := l[0];
      assert x in l;
    }
  }

  /** The run at `a` is labelled and its elements are linked. */
  method CutRun(h: Heap, ghost s: State, a: int, b: nat) returns (p: int)
    requires h.Ready() && 1 <= b < BINS && RunAt(h.s, a, BinPages(b)) && |h.s.slots| == BINS && h.s.slots[b] == []
    requires LiveKept(s, h.s) && a !in s.live && h.s.live == s.live[a := Large(BinPages(b))]
    modifies h`s, h`mem, h.freeSlot, h.hm.objs, h.hm`pg
    ensures h.Ready() && h.hm.objs == old(h.hm.objs) && LiveKept(s, h.s)
    ensures p == a && p != 0 && h.s.live == s.live[p := Small(b)] && !IsNode(h.s.huge, p)
    ensures h.s.ring == old(h.s).ring && |h.s.slots| == BINS && RestOf(h.s.slots[b], p, b)
  {
    hide Sound, Headers.Valid, Clear, Heap.Heads, Heap.Account, SumHuge, RunAt, BinPages, BinSize, LiveKept, Settled, Mapped,
      LargeRun, PagesOK, MakeSmall, Chain, Elements, OnlyInside, SameLive, IsNode, Quiet, Cut, Base, PageOf, PageAddr;
    ghost var t := h.s;
    RunMemory(t, a, BinPages(b));
    HeapFacts(h);
    SlotFacts(h, b);
    var c, page := Base(a), PageOf(a);
    LabelRun(h, c, page, b);
    BuildList(h, a, b, t);
    InsideSameKeys(t.mem, h.mem, a, BinPages(b) * PAGE);
    ClearSame(h.reserved, t.mem, h.mem);
    CutSound(t, c, page, b, h.mem);
    CutFacts(s, t, c, page, b, h.mem);
    h.s := Cut(t, c, page, b, h.mem);
    p := a;
    ElementsAre(a, b);
  }

  method LabelRun(h: Heap, c: int, page: nat, b: nat)
    requires h.Tables() && b < BINS && LargeRun(h.s, c, page, BinPages(b)) && c in h.s.pg && PagesOK(h.s.pg[c])
    modifies h.hm.objs, h.hm`pg
    ensures h.hm.Valid() && h.hm.objs == old(h.hm.objs) && h.hm.pg == h.s.pg[c := MakeSmall(h.s.pg[c], page, b)]
    ensures h.hm.ln == old(h.hm.ln) && h.mem == old(h.mem) && h.shadowKey == old(h.shadowKey)
  {
    hide Headers.Valid, Clear, PagesOK, MakeSmall, BinPages;
    h.hm.LabelSmall(c, page, b);
  }

  /** What cutting the run does to the rest of the state. */
  lemma CutFacts(s: State, t: State, c: int, page: nat, b: nat, m2: Mem)
    requires Settled(t) && c in t.pg && page < |t.pg[c].info| && b < BINS && |t.slots| == BINS
    requires Quiet(t.pg) ==> Quiet(Cut(t, c, page, b, m2).pg)
    requires LiveKept(s, t) && PageAddr(c, page) !in s.live && t.live == s.live[PageAddr(c, page) := Large(BinPages(b))]
    requires SameLive(t.mem, m2, t.live, PageAddr(c, page))
    ensures var u := Cut(t, c, page, b, m2); var a := PageAddr(c, page);
      && Settled(u) && LiveKept(s, u) && u.live == s.live[a := Small(b)] && u.mem == m2 && u.key == t.key && u.ln == t.ln
      && u.ring == t.ring && u.cached == t.cached && u.huge == t.huge && u.slots == t.slots[b := Elements(a, b)]
      && u.pg == t.pg[c := MakeSmall(t.pg[c], page, b)]
  {
    hide Quiet, SameBytes, Elements, BinPages, SmallLabels, PageAddr, Usable;
    var a := PageAddr(c, page);
    assert s.live[a := Large(BinPages(b))][a := Small(b)] == s.live[a := Small(b)];
    forall x | x in s.live && x != 0 ensures SameBytes(s.mem, m2, x, Usable(s.live[x])) {
      assert x != a && t.live[x] == s.live[x];
      SameBytesChain(s.mem, t.mem, m2, x, Usable(s.live[x]));
    }
  }

  /** zend_mm_alloc_small: usage first, then the head of the free list or a fresh run. It
      fails only when the class has no free element and no run for it can be had. */
  method AllocSmall(h: Heap, b: nat) returns (p: int)
    requires h.Ready() && 1 <= b < BINS
    modifies h`s, h`mem, h`refusals, h`size, h`peak, h`realSize, h`realPeak, h`chunksCount, h`peakChunksCount, h`cachedChunks,
      h`cachedChunksCount, h`lastDeleteBoundary, h`lastDeleteCount, h.hm, h.hm.objs, h.freeSlot
    ensures h.Ready() && fresh(h.hm.objs - old(h.hm.objs)) && LiveKept(old(h.s), h.s)
    ensures h.size == old(h.size) + BinSize(b) && h.peak == Larger(old(h.peak), h.size)
    ensures !h.overflow && old(h.realSize) <= h.limit ==> h.realSize <= h.limit
    ensures p == 0 ==> h.s.live == old(h.s).live
    ensures p != 0 ==> p !in old(h.s).live && h.s.live == old(h.s).live[p := Small(b)] && !IsNode(h.s.huge, p)
    ensures |old(h.s).slots| == BINS && (old(h.s).slots[b] != [] ==> p == old(h.s).slots[b][0] && p != 0 && h.s == Pop(old(h.s), b))
    ensures h.realSize <= old(h.realSize) + CHUNK && old(h.refusals) <= h.refusals
    ensures p == 0 ==> ClassEmpty(old(h.s), b) && Starved(h, old(h.refusals)) && h.realSize <= old(h.realSize)
    ensures !ClassEmpty(old(h.s), b) ==> h.realSize == old(h.realSize) && h.refusals == old(h.refusals)
    ensures ClassEmpty(old(h.s), b) && CHUNK <= Room(h.limit, old(h.realSize)) && h.refusals == old(h.refusals) ==>
      p != 0 && h.realSize == old(h.realSize) + CHUNK
    ensures h.realPeak == Larger(old(h.realPeak), h.realSize) && h.peakChunksCount == Larger(old(h.peakChunksCount), |h.s.ring|)
    ensures p != 0 && old(h.s).slots[b] == [] ==> |h.s.slots| == BINS && RestOf(h.s.slots[b], p, b)
  {
    hide Sound, Headers.Valid, Clear, Heap.Heads, Heap.Account, SumHuge, Heap.Tables, BinSize, BinPages, MustAsk, LimitHit, Room, LiveKept, Settled, IsNode, Pop;
    ghost var s := h.s;
    SlotFacts(h, b);
    h.AddUsage(BinSize(b));
    AllPositive(s, b);
    if h.freeSlot[b] != 0 {
      NewNotNode(s, s.slots[b][0]);
      PopKept(s, b);
      p := h.PopSlot(b);
      PeakFacts(h);
    } else {
      p := AllocSmallSlow(h, b);
    }
  }

  lemma PopKept(s: State, b: nat)
    requires |s.slots| == BINS && b < BINS && s.slots[b] != []
    ensures LiveKept(s, Pop(s, b)) && Pop(s, b).live == s.live[s.slots[b][0] := Small(b)]
  {}

  lemma NewNotNode(s: State, p: int)
    requires Sound(s)
    ensures p !in s.live ==> !IsNode(s.huge, p)
  {
    hide LiveInv, Lists, NodesOK, RegionsOK, LinksOK, ChunksOK;
    NodeIsLive(s.huge, s.live, p);
  }
}
