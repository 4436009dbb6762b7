/** How the collector recognises small runs all of whose elements are free: it counts the
    entries of the free list run by run. */
module Counting {
  import opened Sizes
  import opened Pages
  import opened Memory
  import opened Blocks

  /** First address of the run that holds address `a`. */
  function RunStart(pg: map<int, Pages>, a: int): int {
    if Base(a) in pg && |pg[Base(a)].own| == PAGES then PageAddr(Base(a), pg[Base(a)].own[PageOf(a)]) else a
  }

  /** How many of the first `k` elements of the run at `start` are in `list`. */
  function Listed(list: seq<int>, start: int, b: nat, k: nat): nat
    requires b < BINS
  {
    if k == 0 then 0
    else Listed(list, start, b, k - 1) + (if start + ElementOffset(b, k - 1) in list then 1 else 0)
  }

  /** `a` and `x` are elements of the same small run. */
  ghost predicate SameRun(pg: map<int, Pages>, a: int, x: int) {
    BlockAt(pg, a).Small? && BlockAt(pg, x) == BlockAt(pg, a) && RunStart(pg, x) == RunStart(pg, a)
  }

  /** Every element of the run of small block `a` is on the free list of its class. */
  ghost predicate Idle(pg: map<int, Pages>, slots: Slots, a: int) {
    && BlockAt(pg, a).Small? && BlockAt(pg, a).bin < |slots|
    && (forall x :: SameRun(pg, a, x) ==> x in slots[BlockAt(pg, a).bin])
  }

  lemma {:induction false} ListedBound(list: seq<int>, start: int, b: nat, k: nat)
    requires b < BINS
    ensures Listed(list, start, b, k) <= k
    ensures Listed(list, start, b, k) == k <==> forall j :: 0 <= j < k ==> start + ElementOffset(b, j) in list
  {
    hide ElementOffset;
    if k > 0 {
      ListedBound(list, start, b, k - 1);
    }
  }

  lemma OffsetInjective(b: nat, i: nat, j: nat)
    requires b < BINS && ElementOffset(b, i) == ElementOffset(b, j)
    ensures i == j
  {
    hide BinSize;
    BinFacts(b);
    MulOrder(BinSize(b), i, j);
    MulOrder(BinSize(b), j, i);
  }

  /** One more entry of the list: the run it lies in gains one, other runs gain nothing. */
  lemma {:induction false} ListedMember(list: seq<int>, start: int, b: nat, m: nat, k: nat)
    requires b < BINS && start + ElementOffset(b, m) !in list
    ensures var x := start + ElementOffset(b, m);
      Listed(list + [x], start, b, k) == Listed(list, start, b, k) + (if m < k then 1 else 0)
  {
    hide ElementOffset;
    if k > 0 {
      ListedMember(list, start, b, m, k - 1);
      if ElementOffset(b, k - 1) == ElementOffset(b, m) { OffsetInjective(b, k - 1, m); }
    }
  }

  lemma {:induction false} ListedOther(list: seq<int>, x: int, start: int, b: nat, k: nat)
    requires b < BINS && forall j :: 0 <= j < k ==> x != start + ElementOffset(b, j)
    ensures Listed(list + [x], start, b, k) == Listed(list, start, b, k)
  {
    hide ElementOffset;
    if k > 0 {
      ListedOther(list, x, start, b, k - 1);
    }
  }

  lemma {:induction false} ListedNone(start: int, b: nat, k: nat)
    requires b < BINS
    ensures Listed([], start, b, k) == 0
  {
    if k > 0 { ListedNone(start, b, k - 1); }
  }

  // ----- a run and its elements -----

  /** A small block lies in its run at the offset of an element. */
  lemma SmallInRun(pg: map<int, Pages>, a: int)
    requires ChunksWF(pg) && BlockAt(pg, a).Small?
    ensures var b := BlockAt(pg, a).bin; b < BINS && ElementAt(a - RunStart(pg, a), b)
    ensures Base(RunStart(pg, a)) == Base(a) && Base(a) in pg
    ensures HeadInfo(pg, a).SRun? && HeadInfo(pg, a).bin == BlockAt(pg, a).bin
  {
    hide RunsOK, Blank, PagesWF, ElementAt;
    var c, off := Base(a), a % CHUNK;
    BlockRun(pg[c], off);
    AddressParts(c, pg[c].own[off / PAGE] * PAGE);
  }

  /** Every element of that run is a block of the same class in the same run. */
  lemma RunElement(pg: map<int, Pages>, a: int, k: nat)
    requires ChunksWF(pg) && BlockAt(pg, a).Small? && BlockAt(pg, a).bin < BINS && k < BinElements(BlockAt(pg, a).bin)
    ensures SameRun(pg, a, RunStart(pg, a) + ElementOffset(BlockAt(pg, a).bin, k))
    ensures HeadInfo(pg, RunStart(pg, a) + ElementOffset(BlockAt(pg, a).bin, k)) == HeadInfo(pg, a)
  {
    hide RunsOK, Blank, PagesWF, ElementAt, BinSize, BinElements, BinPages, ElementOffset;
    var c, off, b := Base(a), a % CHUNK, BlockAt(pg, a).bin;
    var p := pg[c];
    BlockRun(p, off);
    var s := p.own[off / PAGE];
    ElementIs(b, k);
    ElementInside(b, ElementOffset(b, k));
    var x := s * PAGE + ElementOffset(b, k);
    assert RunLen(p.info[s]) == BinPages(b) by { SmallLen(p.info[s], b); }
    PagesOfRun(p, s, x / PAGE);
    AddressParts(c, x);
  }

  lemma SmallLen(i: PageInfo, b: nat)
    requires b < BINS && i.SRun? && i.bin == b
    ensures RunLen(i) == BinPages(b)
  {}

  lemma PagesOfRun(p: Pages, s: int, q: int)
    requires PagesWF(p) && |p.own| == |p.info| == PAGES && 1 <= s < PAGES && p.own[s] == s
    requires s <= q < s + RunLen(p.info[s]) <= PAGES
    ensures p.own[q] == s
  {
    hide CountFree;
  }

  /** Conversely, the blocks of a run are its elements. */
  lemma RunMember(pg: map<int, Pages>, a: int, x: int) returns (k: nat)
    requires ChunksWF(pg) && SameRun(pg, a, x)
    ensures BlockAt(pg, a).bin < BINS && k < BinElements(BlockAt(pg, a).bin)
    ensures x == RunStart(pg, a) + ElementOffset(BlockAt(pg, a).bin, k)
  {
    hide ChunksWF, BlockAt, RunStart, ElementAt, BinElements, ElementOffset;
    SmallInRun(pg, x);
    k := ElementNumber(BlockAt(pg, x).bin, x - RunStart(pg, x));
  }

  // ----- counters -----

  /** The counter of the run of `a` is the number of its elements on `lists`. */
  ghost predicate CountedAt(pg: map<int, Pages>, lists: Slots, a: int) {
    BlockAt(pg, a).Small? ==>
      var b := BlockAt(pg, a).bin;
      b < BINS && b < |lists| && HeadInfo(pg, a) == SRun(b, Listed(lists[b], RunStart(pg, a), b, BinElements(b)))
  }

  ghost predicate Counted(pg: map<int, Pages>, lists: Slots) {
    forall a :: CountedAt(pg, lists, a)
  }

  /** A counter is full exactly when every element of the run is free. */
  lemma FullIff(pg: map<int, Pages>, lists: Slots, a: int)
    requires ChunksWF(pg) && BlockAt(pg, a).Small? && CountedAt(pg, lists, a)
    ensures Full(HeadInfo(pg, a)) <==> Idle(pg, lists, a)
  {
    hide ChunksWF, BlockAt, RunStart, BinElements, ElementOffset, HeadInfo, Listed;
    var b := BlockAt(pg, a).bin;
    var start, n := RunStart(pg, a), BinElements(b);
    ListedBound(lists[b], start, b, n);
    if Full(HeadInfo(pg, a)) {
      forall x | SameRun(pg, a, x) ensures x in lists[b] {
        var k := RunMember(pg, a, x);
      }
    }
    if Idle(pg, lists, a) {
      forall j | 0 <= j < n ensures start + ElementOffset(b, j) in lists[b] {
        RunElement(pg, a, j);
      }
    }
  }

  /** Before the first pass no element has been counted. */
  lemma QuietCounted(pg: map<int, Pages>, lists: Slots)
    requires ChunksWF(pg) && |lists| == BINS && Quiet(pg) && (forall b :: 0 <= b < BINS ==> lists[b] == [])
    ensures Counted(pg, lists)
  {
    hide ChunksWF, BlockAt, RunStart, BinElements, HeadInfo, Listed, ElementAt;
    forall a ensures CountedAt(pg, lists, a) {
      if BlockAt(pg, a).Small? {
        SmallInRun(pg, a);
        ListedNone(RunStart(pg, a), BlockAt(pg, a).bin, BinElements(BlockAt(pg, a).bin));
      }
    }
  }

  /** Counting element `p`: the counter of its run goes up by one. */
  function CountUp(pg: map<int, Pages>, p: int): map<int, Pages> {
    var c := Base(p);
    if c in pg && |pg[c].own| == |pg[c].info| == PAGES && 0 <= pg[c].own[PageOf(p)] < PAGES
      && pg[c].info[pg[c].own[PageOf(p)]].SRun? then
      var s := pg[c].own[PageOf(p)];
      var i := pg[c].info[s];
      pg[c := pg[c].(info := pg[c].info[s := SRun(i.bin, i.counter + 1)])]
    else pg
  }

  /** Only counters differ between the two maps. */
  ghost predicate CountersOnly(pg: map<int, Pages>, pg2: map<int, Pages>) {
    && pg2.Keys == pg.Keys
    && (forall c :: c in pg ==> SameButCounters(pg[c], pg2[c]))
  }

  lemma CountUpOnly(pg: map<int, Pages>, p: int)
    ensures CountersOnly(pg, CountUp(pg, p))
  {}

  lemma CountersSame(pg: map<int, Pages>, pg2: map<int, Pages>, a: int)
    requires CountersOnly(pg, pg2)
    ensures BlockAt(pg2, a) == BlockAt(pg, a) && RunStart(pg2, a) == RunStart(pg, a)
  {
    hide BlockIn, SameButCounters;
    assert Base(a) in pg.Keys <==> Base(a) in pg2.Keys;
    if Base(a) in pg {
      CounterBlocks(pg[Base(a)], pg2[Base(a)], a % CHUNK);
      CounterOwn(pg[Base(a)], pg2[Base(a)]);
    }
  }

  lemma CounterOwn(p: Pages, r: Pages)
    requires SameButCounters(p, r)
    ensures r.own == p.own && r.freePages == p.freePages && r.freeTail == p.freeTail && |r.info| == |p.info|
  {}

  lemma CountUpHead(pg: map<int, Pages>, p: int, x: int)
    requires ChunksWF(pg) && BlockAt(pg, p).Small? && BlockAt(pg, x).Small?
    ensures HeadInfo(pg, p).SRun? && HeadInfo(pg, x).SRun?
    ensures HeadInfo(CountUp(pg, p), x) ==
      if RunStart(pg, x) == RunStart(pg, p) then SRun(HeadInfo(pg, x).bin, HeadInfo(pg, x).counter + 1) else HeadInfo(pg, x)
  {
    hide RunsOK, Blank, PagesWF, ElementAt;
    var c, d := Base(p), Base(x);
    BlockRun(pg[c], p % CHUNK);
    BlockRun(pg[d], x % CHUNK);
    SmallInRun(pg, p);
    SmallInRun(pg, x);
  }

  /** Counting the next entry of one list keeps counters and lists in step. */
  lemma CountStep(pg: map<int, Pages>, lists: Slots, b: nat, p: int)
    requires ChunksWF(pg) && |lists| == BINS && b < BINS && Counted(pg, lists)
    requires BlockAt(pg, p) == Small(b) && p !in lists[b]
    ensures Counted(CountUp(pg, p), lists[b := lists[b] + [p]])
  {
    hide ChunksWF, BlockAt, RunStart, BinElements, HeadInfo, Listed, CountUp, CountersOnly, ElementAt, ElementOffset;
    var pg2, lists2 := CountUp(pg, p), lists[b := lists[b] + [p]];
    CountUpOnly(pg, p);
    forall a ensures CountedAt(pg2, lists2, a) {
      CountersSame(pg, pg2, a);
      assert CountedAt(pg, lists, a);
      if BlockAt(pg, a).Small? {
        CountUpHead(pg, p, a);
        CountEntry(pg, lists, b, p, a);
      }
    }
  }

  lemma CountEntry(pg: map<int, Pages>, lists: Slots, b: nat, p: int, a: int)
    requires ChunksWF(pg) && |lists| == BINS && b < BINS
    requires BlockAt(pg, p) == Small(b) && p !in lists[b] && BlockAt(pg, a).Small? && BlockAt(pg, a).bin < BINS
    ensures RunStart(pg, a) == RunStart(pg, p) ==> BlockAt(pg, a) == Small(b)
    ensures BlockAt(pg, a) == Small(b) ==>
      Listed(lists[b] + [p], RunStart(pg, a), b, BinElements(b)) ==
        Listed(lists[b], RunStart(pg, a), b, BinElements(b)) + (if RunStart(pg, a) == RunStart(pg, p) then 1 else 0)
  {
    hide ChunksWF, BlockAt, RunStart, BinElements, HeadInfo, Listed, ElementAt, ElementOffset;
    if RunStart(pg, a) == RunStart(pg, p) { SameStartSameBin(pg, a, p); }
    if BlockAt(pg, a) == Small(b) {
      SmallInRun(pg, p);
      var m := ElementNumber(b, p - RunStart(pg, p));
      if RunStart(pg, a) == RunStart(pg, p) {
        ListedMember(lists[b], RunStart(pg, a), b, m, BinElements(b));
      } else {
        forall j | 0 <= j < BinElements(b) ensures p != RunStart(pg, a) + ElementOffset(b, j) {
          RunElement(pg, a, j);
        }
        ListedOther(lists[b], p, RunStart(pg, a), b, BinElements(b));
      }
    }
  }

  lemma SameStartSameBin(pg: map<int, Pages>, a: int, p: int)
    requires ChunksWF(pg) && BlockAt(pg, a).Small? && BlockAt(pg, p).Small? && RunStart(pg, a) == RunStart(pg, p)
    ensures BlockAt(pg, a) == BlockAt(pg, p) && HeadInfo(pg, a) == HeadInfo(pg, p)
  {
    hide RunsOK, Blank, PagesWF, ElementAt;
    BlockRun(pg[Base(a)], a % CHUNK);
    BlockRun(pg[Base(p)], p % CHUNK);
    SmallInRun(pg, a);
    SmallInRun(pg, p);
  }
}
