/** How every allocator operation changes the split of blocks into live ones and free
    elements. Each lemma takes the state before, names the state after, and shows that the
    split is still exact. */
module Live {
  import opened Sizes
  import opened Pages
  import opened Memory
  import opened Blocks

  // ----- large runs -----

  lemma LiveTake(pg: map<int, Pages>, slots: Slots, live: map<int, Block>, c: int, s: nat, n: nat)
    requires LiveInv(pg, slots, live) && c in pg && c % CHUNK == 0 && RunsOK(pg[c])
    requires 1 <= s && 1 <= n && s + n <= PAGES && AllFree(pg[c].own, s, s + n)
    ensures BlockAt(pg, PageAddr(c, s)) == NoBlock && PageAddr(c, s) !in live
    ensures LiveInv(pg[c := TakeRun(pg[c], s, n)], slots, live[PageAddr(c, s) := Large(n)])
    ensures Quiet(pg) ==> Quiet(pg[c := TakeRun(pg[c], s, n)])
  {
    hide BlockIn, HeadIn, LiveInv, RunsOK, AllFree, TakeRun, Full;
    var a := PageAddr(c, s);
    RunsLength(pg[c]);
    AddressParts(c, s * PAGE);
    TakeBlocks(pg[c], s, n, s * PAGE);
    NotLive(pg, slots, live, a);
    var r := TakeRun(pg[c], s, n);
    var pg2 := pg[c := r];
    forall x ensures x != a ==> BlockAt(pg2, x) == BlockAt(pg, x) {
      BlockAtUpdate(pg, c, r, x);
      if Base(x) == c { TakeBlocks(pg[c], s, n, x % CHUNK); }
    }
    forall x | BlockAt(pg, x).Small? ensures HeadInfo(pg2, x) == HeadInfo(pg, x) {
      BlockAtUpdate(pg, c, r, x);
      if Base(x) == c { TakeHead(pg[c], s, n, x % CHUNK); }
    }
    BlockAtUpdate(pg, c, r, a);
    OneBlockChanged(pg, pg2, slots, live, a, Large(n));
  }

  lemma NotLive(pg: map<int, Pages>, slots: Slots, live: map<int, Block>, a: int)
    requires LiveInv(pg, slots, live) && BlockAt(pg, a) == NoBlock && a % CHUNK != 0
    ensures a !in live
  {
    hide BlockAt;
    assert Owned(pg, slots, live, a);
  }

  lemma TakeHead(p: Pages, s: nat, n: nat, off: int)
    requires RunsOK(p) && 1 <= s && 1 <= n && s + n <= PAGES && AllFree(p.own, s, s + n)
    requires 0 <= off < CHUNK && BlockIn(p, off).Small?
    ensures HeadIn(TakeRun(p, s, n), off) == HeadIn(p, off)
  {
    hide RunsOK, AllFree, ElementAt;
    RunsLength(p);
    if s <= off / PAGE < s + n { FreePage(p.own, s, s + n, off / PAGE); }
    HeadOutside(p, s, s + n, off / PAGE);
  }

  /** Blocks in the other runs keep their label when the run at `s` changes. */
  lemma OtherHead(p: Pages, s: nat, off: int)
    requires RunsOK(p) && 1 <= s < PAGES && p.own[s] == s && p.info[s].LRun?
    requires 0 <= off < CHUNK && BlockIn(p, off).Small?
    ensures var q := off / PAGE; 1 <= p.own[q] <= q && p.own[q] != s && !(s <= q < s + RunLen(p.info[s]))
  {
    hide CountFree, ElementAt, Continues;
    assert InOwnRun(p, off / PAGE);
    assert InOwnRun(p, s);
  }

  lemma LiveRelease(pg: map<int, Pages>, slots: Slots, live: map<int, Block>, c: int, s: nat, n: nat)
    requires LiveInv(pg, slots, live) && c in pg && c % CHUNK == 0 && RunsOK(pg[c])
    requires 1 <= s < PAGES && pg[c].own[s] == s && pg[c].info[s] == LRun(n)
    ensures LiveInv(pg[c := FreeRun(pg[c], s, n)], slots, live - {PageAddr(c, s)})
    ensures Quiet(pg) ==> Quiet(pg[c := FreeRun(pg[c], s, n)])
  {
    hide BlockIn, HeadIn, LiveInv, RunsOK, FreeRun, Full;
    var a := PageAddr(c, s);
    RunsLength(pg[c]);
    AddressParts(c, s * PAGE);
    LargeBlock(pg[c], s, n, 0);
    var r := FreeRun(pg[c], s, n);
    var pg2 := pg[c := r];
    forall x ensures x != a ==> BlockAt(pg2, x) == BlockAt(pg, x) {
      BlockAtUpdate(pg, c, r, x);
      if Base(x) == c {
        FreeBlocks(pg[c], s, n, x % CHUNK);
        LargeBlock(pg[c], s, n, x % CHUNK);
      }
    }
    forall x | BlockAt(pg, x).Small? ensures HeadInfo(pg2, x) == HeadInfo(pg, x) {
      BlockAtUpdate(pg, c, r, x);
      if Base(x) == c { FreeHead(pg[c], s, n, x % CHUNK); }
    }
    BlockAtUpdate(pg, c, r, a);
    FreeBlocks(pg[c], s, n, s * PAGE);
    OneBlockChanged(pg, pg2, slots, live, a, NoBlock);
  }

  lemma FreeHead(p: Pages, s: nat, n: nat, off: int)
    requires RunsOK(p) && 1 <= s < PAGES && p.own[s] == s && p.info[s] == LRun(n)
    requires 0 <= off < CHUNK && BlockIn(p, off).Small?
    ensures HeadIn(FreeRun(p, s, n), off) == HeadIn(p, off)
  {
    hide RunsOK, BlockIn;
    RunsLength(p);
    OtherHead(p, s, off);
  }

  lemma LiveShrink(pg: map<int, Pages>, slots: Slots, live: map<int, Block>, c: int, s: nat, n: nat, m: nat)
    requires LiveInv(pg, slots, live) && c in pg && c % CHUNK == 0 && RunsOK(pg[c])
    requires 1 <= s < PAGES && pg[c].own[s] == s && pg[c].info[s] == LRun(n) && 1 <= m < n
    ensures LiveInv(pg[c := ShrinkRun(pg[c], s, n, m)], slots, live[PageAddr(c, s) := Large(m)])
    ensures Quiet(pg) ==> Quiet(pg[c := ShrinkRun(pg[c], s, n, m)])
  {
    hide BlockIn, HeadIn, LiveInv, RunsOK, ShrinkRun, Full;
    var a := PageAddr(c, s);
    RunsLength(pg[c]);
    AddressParts(c, s * PAGE);
    LargeBlock(pg[c], s, n, 0);
    var r := ShrinkRun(pg[c], s, n, m);
    var pg2 := pg[c := r];
    forall x ensures x != a ==> BlockAt(pg2, x) == BlockAt(pg, x) {
      BlockAtUpdate(pg, c, r, x);
      if Base(x) == c { ShrinkBlocks(pg[c], s, n, m, x % CHUNK); }
    }
    forall x | BlockAt(pg, x).Small? ensures HeadInfo(pg2, x) == HeadInfo(pg, x) {
      BlockAtUpdate(pg, c, r, x);
      if Base(x) == c { ShrinkHead(pg[c], s, n, m, x % CHUNK); }
    }
    BlockAtUpdate(pg, c, r, a);
    ShrinkBlocks(pg[c], s, n, m, s * PAGE);
    OneBlockChanged(pg, pg2, slots, live, a, Large(m));
  }

  lemma ShrinkHead(p: Pages, s: nat, n: nat, m: nat, off: int)
    requires RunsOK(p) && 1 <= s < PAGES && p.own[s] == s && p.info[s] == LRun(n) && 1 <= m < n
    requires 0 <= off < CHUNK && BlockIn(p, off).Small?
    ensures HeadIn(ShrinkRun(p, s, n, m), off) == HeadIn(p, off)
  {
    hide RunsOK, BlockIn;
    RunsLength(p);
    OtherHead(p, s, off);
  }

  lemma LiveGrow(pg: map<int, Pages>, slots: Slots, live: map<int, Block>, c: int, s: nat, n: nat, m: nat)
    requires LiveInv(pg, slots, live) && c in pg && c % CHUNK == 0 && RunsOK(pg[c])
    requires 1 <= s < PAGES && pg[c].own[s] == s && pg[c].info[s] == LRun(n) && n < m
    requires s + m <= PAGES && AllFree(pg[c].own, s + n, s + m)
    ensures LiveInv(pg[c := GrowRun(pg[c], s, n, m)], slots, live[PageAddr(c, s) := Large(m)])
    ensures Quiet(pg) ==> Quiet(pg[c := GrowRun(pg[c], s, n, m)])
  {
    hide BlockIn, HeadIn, LiveInv, RunsOK, GrowRun, Full, AllFree;
    var a := PageAddr(c, s);
    RunsLength(pg[c]);
    AddressParts(c, s * PAGE);
    LargeBlock(pg[c], s, n, 0);
    var r := GrowRun(pg[c], s, n, m);
    var pg2 := pg[c := r];
    forall x ensures x != a ==> BlockAt(pg2, x) == BlockAt(pg, x) {
      BlockAtUpdate(pg, c, r, x);
      if Base(x) == c { GrowBlocks(pg[c], s, n, m, x % CHUNK); }
    }
    forall x | BlockAt(pg, x).Small? ensures HeadInfo(pg2, x) == HeadInfo(pg, x) {
      BlockAtUpdate(pg, c, r, x);
      if Base(x) == c { GrowHead(pg[c], s, n, m, x % CHUNK); }
    }
    BlockAtUpdate(pg, c, r, a);
    GrowBlocks(pg[c], s, n, m, s * PAGE);
    OneBlockChanged(pg, pg2, slots, live, a, Large(m));
  }

  lemma GrowHead(p: Pages, s: nat, n: nat, m: nat, off: int)
    requires RunsOK(p) && 1 <= s < PAGES && p.own[s] == s && p.info[s] == LRun(n) && n < m
    requires s + m <= PAGES && AllFree(p.own, s + n, s + m)
    requires 0 <= off < CHUNK && BlockIn(p, off).Small?
    ensures HeadIn(GrowRun(p, s, n, m), off) == HeadIn(p, off)
  {
    hide RunsOK, AllFree, ElementAt;
    RunsLength(p);
    OtherHead(p, s, off);
    if s + n <= off / PAGE < s + m { FreePage(p.own, s + n, s + m, off / PAGE); }
  }

  // ----- small elements -----

  /** Elements 1, 2, ... of the run of class `b` at `base`, in address order. */
  function Elements(base: int, b: nat): (r: seq<int>)
    requires b < BINS
    ensures |r| + 1 == BinElements(b)
  {
    BinFacts(b);
    seq(BinElements(b) - 1, i requires 0 <= i => base + ElementOffset(b, i + 1))
  }

  lemma ElementsSpread(base: int, b: nat, i: int)
    requires b < BINS && 0 <= i < |Elements(base, b)|
    ensures Elements(base, b)[i] == base + ElementOffset(b, i + 1)
    ensures ElementAt(Elements(base, b)[i] - base, b)
    ensures base < Elements(base, b)[i] < base + BinPages(b) * PAGE
  {
    hide BinSize, BinElements, BinPages, ElementAt;
    BinFacts(b);
    ElementIs(b, i + 1);
    ElementInside(b, ElementOffset(b, i + 1));
    MulOrder(BinSize(b), 1, i + 1);
  }

  lemma ElementsNoDup(base: int, b: nat)
    requires b < BINS
    ensures NoDup(Elements(base, b))
  {
    hide BinSize, BinElements, BinPages, ElementAt;
    var e := Elements(base, b);
    BinFacts(b);
    forall i, j | 0 <= i < j < |e| ensures e[i] != e[j] {
      ElementsSpread(base, b, i);
      ElementsSpread(base, b, j);
      MulOrder(BinSize(b), i + 1, j + 1);
    }
  }

  /** Every element but the first is listed. */
  lemma ElementsAll(base: int, b: nat, x: int)
    requires b < BINS && ElementAt(x - base, b) && x != base
    ensures x in Elements(base, b)
  {
    hide BinSize, BinElements, BinPages, ElementAt;
    var k := ElementNumber(b, x - base);
    var e := Elements(base, b);
    assert e[k - 1] == x;
  }

  lemma FirstElement(b: nat)
    requires b < BINS
    ensures ElementAt(0, b)
  {
    hide BinSize, BinElements;
    BinFacts(b);
    ElementIs(b, 0);
  }

  /** A fresh large run is cut into the elements of class `b`: the first one is handed out,
      the others become the whole free list of the class. */
  lemma LiveCut(pg: map<int, Pages>, slots: Slots, live: map<int, Block>, c: int, s: nat, b: nat)
    requires LiveInv(pg, slots, live) && c in pg && c % CHUNK == 0 && RunsOK(pg[c]) && b < BINS
    requires 1 <= s < PAGES && pg[c].own[s] == s && pg[c].info[s] == LRun(BinPages(b))
    requires slots[b] == []
    ensures var a := PageAddr(c, s);
      LiveInv(pg[c := MakeSmall(pg[c], s, b)], slots[b := Elements(a, b)], live[a := Small(b)])
  {
    hide BlockIn, HeadIn, LiveInv, RunsOK, MakeSmall, Full, ElementAt, Elements, BinPages, Owned, OnList, BlockAt, HeadInfo;
    var a := PageAddr(c, s);
    RunsLength(pg[c]);
    var r := MakeSmall(pg[c], s, b);
    SlotsLength(pg, slots, live);
    var pg2, slots2, live2 := pg[c := r], slots[b := Elements(a, b)], live[a := Small(b)];
    forall x ensures Owned(pg2, slots2, live2, x) {
      LiveOwned(pg, slots, live, x);
      LiveHuge(pg, slots, live, x);
      if Base(x) == c && s * PAGE <= x % CHUNK < (s + BinPages(b)) * PAGE {
        CutInside(pg, slots, live, c, s, b, x);
      } else {
        CutOutside(pg, slots, live, c, s, b, x);
      }
    }
    forall d | 0 <= d < BINS ensures OnList(pg2, slots2, d) {
      LiveOnList(pg, slots, live, d);
      CutLists(pg, slots, live, c, s, b, d);
    }
    forall x | x in live2 && live2[x].Huge? ensures x % CHUNK == 0 {
      LiveHuge(pg, slots, live, x);
    }
    assert LiveInv(pg2, slots2, live2) by { LiveIs(pg2, slots2, live2, pg, slots, live); }
  }

  /** Cutting a run leaves its counter, and every other counter, at zero. */
  lemma QuietCut(pg: map<int, Pages>, c: int, s: nat, b: nat)
    requires Quiet(pg) && c in pg && c % CHUNK == 0 && RunsOK(pg[c]) && b < BINS
    requires 1 <= s < PAGES && pg[c].own[s] == s && pg[c].info[s] == LRun(BinPages(b))
    ensures Quiet(pg[c := MakeSmall(pg[c], s, b)])
  {
    hide BlockIn, HeadIn, RunsOK, MakeSmall, ElementAt, BinPages;
    var r := MakeSmall(pg[c], s, b);
    RunsLength(pg[c]);
    var pg2 := pg[c := r];
    forall x | BlockAt(pg2, x).Small? ensures HeadInfo(pg2, x) == SRun(BlockAt(pg2, x).bin, 0) {
      BlockAtUpdate(pg, c, r, x);
      if Base(x) == c {
        SmallBlocks(pg[c], s, b, x % CHUNK);
        if s * PAGE <= x % CHUNK < (s + BinPages(b)) * PAGE {
          CutOwnHead(pg[c], s, b, x % CHUNK);
        } else {
          assert BlockAt(pg, x) == BlockAt(pg2, x);
          CutHead(pg[c], s, b, x % CHUNK);
        }
      }
    }
  }

  lemma CutOwnHead(p: Pages, s: nat, b: nat, off: int)
    requires RunsOK(p) && b < BINS && 1 <= s < PAGES && p.own[s] == s && p.info[s] == LRun(BinPages(b))
    requires 0 <= off < CHUNK && s * PAGE <= off < (s + BinPages(b)) * PAGE
    ensures HeadIn(MakeSmall(p, s, b), off) == SRun(b, 0)
  {
    hide CountFree, ElementAt, Continues, BinPages;
    assert InOwnRun(p, s);
  }

  // LiveInv taken apart and put together again

  lemma SlotsLength(pg: map<int, Pages>, slots: Slots, live: map<int, Block>)
    requires LiveInv(pg, slots, live)
    ensures |slots| == BINS
  {}

  lemma LiveOwned(pg: map<int, Pages>, slots: Slots, live: map<int, Block>, x: int)
    requires LiveInv(pg, slots, live)
    ensures Owned(pg, slots, live, x)
  {
    hide Owned, OnList;
  }

  lemma LiveOnList(pg: map<int, Pages>, slots: Slots, live: map<int, Block>, b: int)
    requires LiveInv(pg, slots, live) && 0 <= b < BINS
    ensures |slots| == BINS && OnList(pg, slots, b)
  {
    hide Owned, OnList;
  }

  lemma LiveHuge(pg: map<int, Pages>, slots: Slots, live: map<int, Block>, x: int)
    requires LiveInv(pg, slots, live)
    ensures x in live ==> live[x] != NoBlock
    ensures x in live && live[x].Huge? ==> x % CHUNK == 0
  {
    hide Owned, OnList;
  }

  lemma LiveIs(pg: map<int, Pages>, slots: Slots, live: map<int, Block>,
               pg0: map<int, Pages>, slots0: Slots, live0: map<int, Block>)
    requires |slots| == BINS && LiveInv(pg0, slots0, live0)
    requires forall x :: Owned(pg, slots, live, x)
    requires forall b :: 0 <= b < BINS ==> OnList(pg, slots, b)
    requires forall x :: x in live && live[x].Huge? ==> x % CHUNK == 0
    requires forall x :: x in live ==> (x in live0 && live[x] == live0[x]) || live[x] != NoBlock
    ensures LiveInv(pg, slots, live)
  {
    hide Owned, OnList;
    forall x | x in live ensures live[x] != NoBlock { LiveHuge(pg0, slots0, live0, x); }
  }

  lemma CutInside(pg: map<int, Pages>, slots: Slots, live: map<int, Block>, c: int, s: nat, b: nat, x: int)
    requires |slots| == BINS && Owned(pg, slots, live, x) && (x in live && live[x].Huge? ==> x % CHUNK == 0)
    requires c in pg && c % CHUNK == 0 && RunsOK(pg[c]) && b < BINS
    requires 1 <= s < PAGES && pg[c].own[s] == s && pg[c].info[s] == LRun(BinPages(b))
    requires Base(x) == c && s * PAGE <= x % CHUNK < (s + BinPages(b)) * PAGE
    ensures var a := PageAddr(c, s);
      Owned(pg[c := MakeSmall(pg[c], s, b)], slots[b := Elements(a, b)], live[a := Small(b)], x)
  {
    hide BlockIn, HeadIn, RunsOK, MakeSmall, Full, ElementAt, Elements, BinPages;
    var a := PageAddr(c, s);
    RunsLength(pg[c]);
    var r := MakeSmall(pg[c], s, b);
    BlockAtUpdate(pg, c, r, x);
    SmallBlocks(pg[c], s, b, x % CHUNK);
    LargeBlock(pg[c], s, BinPages(b), x % CHUNK);
    assert x % CHUNK - s * PAGE == x - a;
    FirstElement(b);
    if x == a {
      forall i | 0 <= i < |Elements(a, b)| ensures Elements(a, b)[i] != a { ElementsSpread(a, b, i); }
    } else {
      assert BlockAt(pg, x) == NoBlock;
      if ElementAt(x - a, b) { ElementsAll(a, b, x); }
    }
  }

  lemma CutOutside(pg: map<int, Pages>, slots: Slots, live: map<int, Block>, c: int, s: nat, b: nat, x: int)
    requires |slots| == BINS && Owned(pg, slots, live, x) && b < BINS && slots[b] == []
    requires c in pg && c % CHUNK == 0 && RunsOK(pg[c])
    requires 1 <= s < PAGES && pg[c].own[s] == s && pg[c].info[s] == LRun(BinPages(b))
    requires !(Base(x) == c && s * PAGE <= x % CHUNK < (s + BinPages(b)) * PAGE)
    ensures var a := PageAddr(c, s);
      Owned(pg[c := MakeSmall(pg[c], s, b)], slots[b := Elements(a, b)], live[a := Small(b)], x)
  {
    hide BlockIn, HeadIn, RunsOK, MakeSmall, Full, ElementAt, Elements, BinPages;
    var a := PageAddr(c, s);
    RunsLength(pg[c]);
    LargeBlock(pg[c], s, BinPages(b), 0);
    var r := MakeSmall(pg[c], s, b);
    BlockAtUpdate(pg, c, r, x);
    AddressParts(c, s * PAGE);
    if Base(x) == c {
      SmallBlocks(pg[c], s, b, x % CHUNK);
      if BlockIn(pg[c], x % CHUNK).Small? { CutHead(pg[c], s, b, x % CHUNK); }
    }
    forall i | 0 <= i < |Elements(a, b)| ensures Elements(a, b)[i] != x {
      ElementsSpread(a, b, i);
      AddressParts(c, Elements(a, b)[i] - c);
    }
  }

  lemma CutHead(p: Pages, s: nat, b: nat, off: int)
    requires RunsOK(p) && b < BINS && 1 <= s < PAGES && p.own[s] == s && p.info[s] == LRun(BinPages(b))
    requires 0 <= off < CHUNK && BlockIn(p, off).Small?
    ensures HeadIn(MakeSmall(p, s, b), off) == HeadIn(p, off)
  {
    hide CountFree, ElementAt, Continues, BinPages;
    assert InOwnRun(p, off / PAGE);
    assert InOwnRun(p, s);
  }

  lemma CutLists(pg: map<int, Pages>, slots: Slots, live: map<int, Block>, c: int, s: nat, b: nat, d: nat)
    requires |slots| == BINS && b < BINS && d < BINS && OnList(pg, slots, d)
    requires c in pg && c % CHUNK == 0 && RunsOK(pg[c])
    requires 1 <= s < PAGES && pg[c].own[s] == s && pg[c].info[s] == LRun(BinPages(b))
    ensures OnList(pg[c := MakeSmall(pg[c], s, b)], slots[b := Elements(PageAddr(c, s), b)], d)
  {
    hide BlockIn, HeadIn, RunsOK, MakeSmall, Full, ElementAt, Elements, BinPages;
    var a := PageAddr(c, s);
    RunsLength(pg[c]);
    LargeBlock(pg[c], s, BinPages(b), 0);
    var r := MakeSmall(pg[c], s, b);
    var pg2 := pg[c := r];
    if d == b {
      var e := Elements(a, b);
      ElementsNoDup(a, b);
      forall i | 0 <= i < |e| ensures BlockAt(pg2, e[i]) == Small(b) {
        ElementsSpread(a, b, i);
        AddressParts(c, e[i] - c);
        SmallBlocks(pg[c], s, b, e[i] - c);
        BlockAtUpdate(pg, c, r, e[i]);
      }
    } else {
      forall i | 0 <= i < |slots[d]| ensures BlockAt(pg2, slots[d][i]) == Small(d) {
        var x := slots[d][i];
        BlockAtUpdate(pg, c, r, x);
        if Base(x) == c {
          SmallBlocks(pg[c], s, b, x % CHUNK);
          LargeBlock(pg[c], s, BinPages(b), x % CHUNK);
        }
      }
    }
  }

  /** The head of a free list is handed out. */
  lemma LivePop(pg: map<int, Pages>, slots: Slots, live: map<int, Block>, b: nat)
    requires LiveInv(pg, slots, live) && b < BINS && slots[b] != []
    ensures var a := slots[b][0];
      && BlockAt(pg, a) == Small(b) && a !in live
      && LiveInv(pg, slots[b := slots[b][1..]], live[a := Small(b)])
  {
    hide BlockAt, HeadInfo, Full;
    var a := slots[b][0];
    var slots2, live2 := slots[b := slots[b][1..]], live[a := Small(b)];
    assert OnList(pg, slots, b);
    assert BlockAt(pg, a) == Small(b);
    assert Owned(pg, slots, live, a);
    forall x ensures Owned(pg, slots2, live2, x) {
      assert Owned(pg, slots, live, x);
      if x in slots[b] && x != a {
        var i :| 0 <= i < |slots[b]| && slots[b][i] == x;
        assert slots[b][1..][i - 1] == x;
      }
    }
    forall d | 0 <= d < BINS ensures OnList(pg, slots2, d) {
      assert OnList(pg, slots, d);
    }
  }

  /** A live small block goes to the head of the free list of its class. */
  lemma LivePush(pg: map<int, Pages>, slots: Slots, live: map<int, Block>, b: nat, a: int)
    requires LiveInv(pg, slots, live) && b < BINS && a in live && live[a] == Small(b)
    ensures BlockAt(pg, a) == Small(b) && a !in slots[b]
    ensures LiveInv(pg, slots[b := [a] + slots[b]], live - {a})
  {
    hide BlockAt, HeadInfo, Full;
    var slots2, live2 := slots[b := [a] + slots[b]], live - {a};
    assert Owned(pg, slots, live, a);
    forall x ensures Owned(pg, slots2, live2, x) {
      assert Owned(pg, slots, live, x);
      if x in slots[b] {
        var i :| 0 <= i < |slots[b]| && slots[b][i] == x;
        assert slots2[b][i + 1] == x;
      }
      if x == a { assert slots2[b][0] == a; }
    }
    forall d | 0 <= d < BINS ensures OnList(pg, slots2, d) {
      assert OnList(pg, slots, d);
    }
  }

  // ----- huge blocks -----

  lemma HugeNotBlock(pg: map<int, Pages>, a: int)
    requires ChunksWF(pg) && a % CHUNK == 0
    ensures BlockAt(pg, a) == NoBlock
  {
    hide PagesWF, BlockIn, Usable;
    if BlockAt(pg, a) != NoBlock { BlockInChunk(pg, a); }
  }

  lemma LiveHugeAdd(pg: map<int, Pages>, slots: Slots, live: map<int, Block>, a: int, n: nat)
    requires LiveInv(pg, slots, live) && ChunksWF(pg) && a % CHUNK == 0
    ensures LiveInv(pg, slots, live[a := Huge(n)])
  {
    hide BlockAt, HeadInfo, Full, PagesWF, ChunksWF;
    HugeNotBlock(pg, a);
    var live2 := live[a := Huge(n)];
    forall x ensures Owned(pg, slots, live2, x) {
      assert Owned(pg, slots, live, x);
    }
  }

  lemma LiveHugeRemove(pg: map<int, Pages>, slots: Slots, live: map<int, Block>, a: int)
    requires LiveInv(pg, slots, live) && ChunksWF(pg) && a % CHUNK == 0
    ensures LiveInv(pg, slots, live - {a})
  {
    hide BlockAt, HeadInfo, Full, PagesWF, ChunksWF;
    HugeNotBlock(pg, a);
    forall x ensures Owned(pg, slots, live - {a}, x) {
      assert Owned(pg, slots, live, x);
    }
  }

  // ----- chunks without blocks come and go -----

  ghost predicate NoBlocksIn(p: Pages) {
    forall off :: 0 <= off < CHUNK ==> BlockIn(p, off) == NoBlock
  }

  lemma BlankNoBlocks(p: Pages)
    requires Blank(p.own) && |p.info| == PAGES
    ensures NoBlocksIn(p)
  {
    hide ElementAt;
  }

  lemma SameBlocks(pg: map<int, Pages>, pg2: map<int, Pages>, slots: Slots, live: map<int, Block>)
    requires LiveInv(pg, slots, live)
    requires forall a :: BlockAt(pg2, a) == BlockAt(pg, a)
    requires forall a :: BlockAt(pg, a).Small? ==> HeadInfo(pg2, a) == HeadInfo(pg, a)
    ensures LiveInv(pg2, slots, live)
    ensures Quiet(pg) ==> Quiet(pg2)
  {
    hide BlockAt, HeadInfo, Full;
    forall a ensures Owned(pg2, slots, live, a) { assert Owned(pg, slots, live, a); }
    forall d | 0 <= d < BINS ensures OnList(pg2, slots, d) {
      assert OnList(pg, slots, d);
    }
  }

  lemma LiveSetChunk(pg: map<int, Pages>, slots: Slots, live: map<int, Block>, c: int, r: Pages)
    requires LiveInv(pg, slots, live)
    requires c !in pg || NoBlocksIn(pg[c])
    requires NoBlocksIn(r)
    ensures LiveInv(pg[c := r], slots, live)
    ensures Quiet(pg) ==> Quiet(pg[c := r])
  {
    hide BlockIn, HeadIn, LiveInv;
    forall a ensures BlockAt(pg[c := r], a) == BlockAt(pg, a) && (Base(a) != c ==> HeadInfo(pg[c := r], a) == HeadInfo(pg, a)) {
      BlockAtUpdate(pg, c, r, a);
    }
    SameBlocks(pg, pg[c := r], slots, live);
  }

  lemma LiveDropChunk(pg: map<int, Pages>, slots: Slots, live: map<int, Block>, c: int)
    requires LiveInv(pg, slots, live)
    requires c in pg && NoBlocksIn(pg[c])
    ensures LiveInv(pg - {c}, slots, live)
    ensures Quiet(pg) ==> Quiet(pg - {c})
  {
    hide BlockIn, HeadIn, LiveInv;
    forall a ensures BlockAt(pg - {c}, a) == BlockAt(pg, a) && (Base(a) != c ==> HeadInfo(pg - {c}, a) == HeadInfo(pg, a)) {
    }
    SameBlocks(pg, pg - {c}, slots, live);
  }
}
