/** The collector: two passes over every free list and one over the page maps. */
module Collectors {
  import opened Sizes
  import opened Pages
  import opened Memory
  import opened Blocks
  import opened FreeLists
  import opened Chunks
  import opened Rings
  import opened HeapModel
  import opened HeapState
  import opened HeaderTable
  import opened Counting
  import opened Collecting
  import opened GcSpec
  import opened Sweepings
  import opened GcResult
  import opened Heaps

  /** From `s0` the passes have counted `lists` and shortened the free lists to `slots`. */
  ghost predicate Passing(s0: State, s: State, lists: Slots, slots: Slots)
    ensures Passing(s0, s, lists, slots) ==> s == s0.(pg := s.pg, slots := slots, mem := s.mem)
  {
    && s == s0.(pg := s.pg, slots := slots, mem := s.mem)
    && |lists| == BINS && |s0.slots| == BINS
    && CountersOnly(s0.pg, s.pg) && Counted(s.pg, lists)
    && SameLive(s0.mem, s.mem, s0.live, 0)
  }

  lemma CountersOnlyChain(a: map<int, Pages>, b: map<int, Pages>, c: map<int, Pages>)
    requires CountersOnly(a, b) && CountersOnly(b, c)
    ensures CountersOnly(a, c)
  {
    forall d | d in a ensures SameButCounters(a[d], c[d]) {
      CountersAt(a, b, d);
      CountersAt(b, c, d);
    }
  }

  lemma PassCount(s0: State, s: State, lists: Slots, slots: Slots, b: nat, p: int)
    requires Passing(s0, s, lists, slots) && Sound(s) && b < BINS && |lists| == |slots| == BINS && p in slots[b] && p !in lists[b]
    ensures Sound(s.(pg := CountUp(s.pg, p)))
    ensures Passing(s0, s.(pg := CountUp(s.pg, p)), lists[b := lists[b] + [p]], slots)
    ensures HeadInfo(s.pg, p).SRun?
    ensures Full(HeadInfo(CountUp(s.pg, p), p)) <==> HeadInfo(s.pg, p).counter + 1 == BinElements(b)
  {
    hide Sound, CountersOnly, Counted, CountUp, SameLive, BlockAt, HeadInfo, ChunksWF, CountedAt, BinElements;
    ListedFacts(s, b, p);
    assert CountedAt(s.pg, lists, p) by { CountedHere(s.pg, lists, p); }
    NotYetFull(s.pg, lists, p);
    CountSound(s, p);
    CountStep(s.pg, lists, b, p);
    CountUpOnly(s.pg, p);
    CountersOnlyChain(s0.pg, s.pg, CountUp(s.pg, p));
    CountUpHead(s.pg, p, p);
    SmallInRun(s.pg, p);
  }

  lemma CountedHere(pg: map<int, Pages>, lists: Slots, p: int)
    requires Counted(pg, lists)
    ensures CountedAt(pg, lists, p)
  {
    hide CountedAt;
  }

  /** Once list `b` has been counted, full counters mark idle runs. */
  lemma FullIsIdle(s0: State, s: State, lists: Slots, slots: Slots, b: nat, p: int)
    requires Passing(s0, s, lists, slots) && Sound(s) && b < BINS && lists[b] == s0.slots[b] && BlockAt(s.pg, p) == Small(b)
    ensures Full(HeadInfo(s.pg, p)) <==> Idle(s0.pg, s0.slots, p)
  {
    hide LiveInv, Lists, HugeLive, NodesOK, RegionsOK, LinksOK, ChunksOK, CountersOnly, Counted, BlockAt, HeadInfo, ChunksWF,
      CountedAt, Idle, SameLive;
    ChunksAreWF(s.pg, s.ring, s.cached);
    CountedHere(s.pg, lists, p);
    FullIff(s.pg, lists, p);
    CountersIdle(s0.pg, s.pg, lists, p);
    CountersSame(s0.pg, s.pg, p);
    IdleOneList(s0.pg, lists, s0.slots, p);
  }

  lemma IdleOneList(pg: map<int, Pages>, l: Slots, m: Slots, p: int)
    requires |l| == |m| == BINS && BlockAt(pg, p).Small? && BlockAt(pg, p).bin < BINS && l[BlockAt(pg, p).bin] == m[BlockAt(pg, p).bin]
    ensures Idle(pg, l, p) <==> Idle(pg, m, p)
  {
    hide BlockAt, SameRun;
  }

  lemma PassSkip(s0: State, s: State, lists: Slots, slots: Slots, b: nat, k: seq<int>, p: int, r: seq<int>)
    requires Passing(s0, s, lists, slots) && Sound(s) && 1 <= b < BINS && |slots| == BINS
    requires slots[b] == k + [p] + r && Full(HeadInfo(s.pg, p))
    ensures Sound(Skip(s, b, k, r)) && Passing(s0, Skip(s, b, k, r), lists, slots[b := k + r])
    ensures k != [] ==> 0 < k[|k| - 1] && 0 <= First(r)
  {
    hide Sound, CountersOnly, Counted, HeadInfo, Full, SameLive, SetNext;
    SkipSound(s, b, k, p, r);
    SameLiveChain(s0.mem, s.mem, Skip(s, b, k, r).mem, s.live);
  }

  lemma SameLiveChain(m: Mem, m2: Mem, m3: Mem, live: map<int, Block>)
    requires SameLive(m, m2, live, 0) && SameLive(m2, m3, live, 0)
    ensures SameLive(m, m3, live, 0)
  {
    hide SameBytes;
    forall x | x in live && x != 0 ensures SameBytes(m, m3, x, Usable(live[x])) {
      SameBytesChain(m, m2, m3, x, Usable(live[x]));
    }
  }

  // ----- reading the label of a free element -----

  /** What the label of the page of small block `p` says. */
  lemma SmallLabel(p: Pages, off: int)
    requires PagesWF(p) && 0 <= off < CHUNK && BlockIn(p, off).Small?
    ensures |p.own| == |p.info| == PAGES && 1 <= p.own[off / PAGE] <= off / PAGE < PAGES
    ensures var q := off / PAGE; var s := p.own[q];
      && p.info[s].SRun? && p.info[s].bin == BlockIn(p, off).bin
      && (s != q ==> p.info[q] == NRun(p.info[s].bin, q - s))
  {
    hide CountFree, ElementAt, Blank;
    NotBlank(p, off);
    BlockRun(p, off);
    assert Continues(p, off / PAGE);
  }

  /** The chunk, first page and first label of the run of free element `p`. */
  method FindHead(h: Heap, b: nat, p: int) returns (c: int, page: nat, info: PageInfo)
    requires h.Steady() && b < BINS && p in h.s.slots[b]
    ensures c == Base(p) && c in h.s.ring && c in h.s.pg && PagesOK(h.s.pg[c]) && page < PAGES
    ensures |h.s.pg[c].own| == |h.s.pg[c].info| == PAGES && page == h.s.pg[c].own[PageOf(p)]
    ensures info == h.s.pg[c].info[page] == HeadInfo(h.s.pg, p) && info.SRun? && info.bin == b
  {
    hide Sound, Headers.Valid, Clear, ChunksWF, BlockIn, PagesOK, PagesWF, Heap.Heads, Heap.Account;
    assert |h.s.slots| == BINS by { HeapFacts(h); }
    ListedFacts(h.s, b, p);
    ListedHome(h.s, b, p);
    c := Base(p);
    assert h.hm.Get(c).heap == h.mainChunk + HEAP_OFFSET by { HeapFacts(h); }   // ZEND_MM_CHECK
    page := PageOf(p);
    SmallLabel(h.s.pg[c], p % CHUNK);
    info := h.hm.Label(c, page);
    if info.NRun? {
      page := page - info.offset;
      info := h.hm.Label(c, page);
    }
  }

  lemma SlotFacts(h: Heap, b: nat)
    requires h.Tables() && h.Fields() && b < BINS
    ensures h.mem == h.s.mem && h.shadowKey == h.s.key && h !in h.hm.objs && h.freeSlot !in h.hm.objs
    ensures |h.s.slots| == h.freeSlot.Length == BINS && h.freeSlot[b] == First(h.s.slots[b])
  {}

  lemma HeapFacts(h: Heap)
    requires h.Fields()
    ensures |h.s.slots| == BINS && |h.s.ring| > 0 && h.mainChunk == h.s.ring[0]
  {}

  /** A free element lies in an active chunk, which names this heap. */
  lemma ListedHome(s: State, b: nat, p: int)
    requires Sound(s) && b < BINS && |s.slots| == BINS && p in s.slots[b]
    ensures Base(p) in s.ring && Base(p) in s.pg && PagesOK(s.pg[Base(p)]) && PagesWF(s.pg[Base(p)])
    ensures |s.pg[Base(p)].own| == |s.pg[Base(p)].info| == PAGES
    ensures |s.ring| > 0 && Base(p) in s.ln && s.ln[Base(p)].heap == s.ring[0] + HEAP_OFFSET
  {
    ListedFacts(s, b, p);
    hide LiveInv, Lists, HugeLive, NodesOK, RegionsOK, BlockAt, PagesOK, ChunkBase, RingOK, CachedOK, Blank;
    BlockInRing(s.pg, s.ring, s.cached, p);
    InRing(s.pg, s.ring, s.cached, Base(p));
    hide ChunksOK;
    RingMembers(s.ln, s.ring);
  }

  lemma CountUpIs(pg: map<int, Pages>, p: int, c: int, page: nat)
    requires c == Base(p) && c in pg && |pg[c].own| == |pg[c].info| == PAGES && page == pg[c].own[PageOf(p)] < PAGES
    requires pg[c].info[page].SRun?
    ensures CountUp(pg, p) == pg[c := pg[c].(info := pg[c].info[page := SRun(pg[c].info[page].bin, pg[c].info[page].counter + 1)])]
  {}

  /** Count free element `p` for its run. */
  method CountOne(h: Heap, b: nat, p: int, ghost s0: State, ghost lists: Slots) returns (full: bool)
    requires h.Steady() && b < BINS && |lists| == BINS && Passing(s0, h.s, lists, h.s.slots)
    requires |h.s.slots| == BINS && p in h.s.slots[b] && p !in lists[b]
    modifies h`s, h.hm.objs, h.hm`pg
    ensures h.Steady() && h.hm.objs == old(h.hm.objs)
    ensures h.s == old(h.s).(pg := CountUp(old(h.s).pg, p)) && Passing(s0, h.s, lists[b := lists[b] + [p]], h.s.slots)
    ensures full <==> Full(HeadInfo(h.s.pg, p))
  {
    hide Sound, Headers.Valid, Clear, Passing, HeadInfo, Full, PagesOK, Base, PageOf, CountUp, BinElements, Heap.Heads, Heap.Account;
    PassCount(s0, h.s, lists, h.s.slots, b, p);
    var c, page, info := FindHead(h, b, p);
    CountUpIs(h.s.pg, p, c, page);
    h.hm.SetCounter(c, page, info.counter + 1);
    full := info.counter + 1 == BinElements(b);
    h.s := h.s.(pg := CountUp(h.s.pg, p));
  }

  /** Entry `j` of list `b` is counted once, and its link can be followed. */
  lemma NextEntry(s: State, b: nat, j: nat)
    requires Sound(s) && b < BINS && |s.slots| == BINS && j < |s.slots[b]|
    ensures s.slots[b][j] in s.slots[b] && s.slots[b][j] !in s.slots[b][..j]
    ensures LinkOK(s.mem, s.key, s.slots[b][j], BinSize(b), First(s.slots[b][j + 1..]))
  {
    hide HugeLive, NodesOK, RegionsOK, LinksOK, ChunksOK, BlockAt, Owned, LinkOK, BinSize;
    assert OnList(s.pg, s.slots, b);
    assert Chain(s.mem, s.key, BinSize(b), s.slots[b]);
    assert NextOf(s.slots[b], j) == First(s.slots[b][j + 1..]);
  }

  lemma AllPositive(s: State, b: nat)
    requires Sound(s) && b < BINS && |s.slots| == BINS
    ensures forall i :: 0 <= i < |s.slots[b]| ==> 0 < s.slots[b][i]
  {
    hide Sound, ChunksWF, BlockAt, Mapped, BinSize;
    forall i | 0 <= i < |s.slots[b]| ensures 0 < s.slots[b][i] { ListedFacts(s, b, s.slots[b][i]); }
  }

  /** Counting `p` fills the counter of `x` only if it fills that of `p`. */
  lemma StillNotFull(s: State, b: nat, p: int, x: int)
    requires Sound(s) && b < BINS && |s.slots| == BINS && p in s.slots[b] && x in s.slots[b]
    requires !Full(HeadInfo(s.pg, x)) && !Full(HeadInfo(CountUp(s.pg, p), p))
    ensures !Full(HeadInfo(CountUp(s.pg, p), x))
  {
    hide Sound, ChunksWF, BlockAt, HeadInfo, Full, CountUp, RunStart, BinSize, Mapped;
    ListedFacts(s, b, p);
    ListedFacts(s, b, x);
    CountUpHead(s.pg, p, p);
    CountUpHead(s.pg, p, x);
    if RunStart(s.pg, x) == RunStart(s.pg, p) { SameStartSameBin(s.pg, x, p); }
  }

  /** First pass over list `b`: count each element for its run. `full` tells whether a
      counter has reached the number of elements. */
  method CountList(h: Heap, b: nat, ghost s0: State) returns (full: bool)
    requires h.Steady() && b < BINS && |s0.slots| == BINS
    requires Passing(s0, h.s, CountedLists(s0.slots, b, 0), FilteredLists(s0.pg, s0.slots, b, 0))
    modifies h`s, h.hm.objs, h.hm`pg
    ensures h.Steady() && h.hm.objs == old(h.hm.objs)
    ensures Passing(s0, h.s, CountedLists(s0.slots, b + 1, 0), FilteredLists(s0.pg, s0.slots, b, 0))
    ensures !full ==> forall i :: 0 <= i < |s0.slots[b]| ==> !Full(HeadInfo(h.s.pg, s0.slots[b][i]))
  {
    hide Sound, Headers.Valid, Clear, Passing, HeadInfo, Full, CountedLists, FilteredLists, BinSize, Heap.Tables, Heap.Heads, Heap.Account, LinkOK;
    SlotFacts(h, b);
    full := false;
    FilteredStart(s0.pg, s0.slots, b);
    AllPositive(h.s, b);
    var p := h.freeSlot[b];
    ghost var j, l, slots := 0, s0.slots[b], FilteredLists(s0.pg, s0.slots, b, 0);
    while p != 0
      invariant h.Steady() && h.hm.objs == old(h.hm.objs) && slots[b] == l && h.s.slots == slots
      invariant 0 <= j <= |l| && p == First(l[j..])
      invariant Passing(s0, h.s, CountedLists(s0.slots, b, j), slots)
      invariant !full ==> forall i :: 0 <= i < j ==> !Full(HeadInfo(h.s.pg, l[i]))
      decreases |l| - j
    {
      assert p == l[j];
      CountedNext(s0.slots, b, j);
      NextEntry(h.s, b, j);
      ghost var t := h.s;
      var f := CountOne(h, b, p, s0, CountedLists(s0.slots, b, j));
      forall i | 0 <= i < j && !full && !f ensures !Full(HeadInfo(h.s.pg, l[i])) { StillNotFull(t, b, p, l[i]); }
      full := full || f;
      SlotFacts(h, b);
      p := h.GetNextSlot(b, p, First(l[j + 1..]));
      j := j + 1;
    }
    CountedEnd(s0.slots, b);
  }

  function LastOf(k: seq<int>): int {
    if k == [] then 0 else k[|k| - 1]
  }

  /** Entry `p` in the middle of list `b`. */
  lemma EntryAfter(s: State, b: nat, k: seq<int>, p: int, r: seq<int>)
    requires Sound(s) && b < BINS && |s.slots| == BINS && s.slots[b] == k + [p] + r
    ensures 1 <= b && p in s.slots[b] && 0 < p && LinkOK(s.mem, s.key, p, BinSize(b), First(r))
  {
    hide Sound, LinkOK;
    assert s.slots[b][|k|] == p && s.slots[b][|k| + 1..] == r;
    NextEntry(s, b, |k|);
    UsedClass(s.mem, s.key, p, b, First(r));
  }

  lemma UsedClass(m: Mem, key: Word8, a: int, b: nat, next: int)
    requires b < BINS && LinkOK(m, key, a, BinSize(b), next)
    ensures 1 <= b && 0 < a
  {
    assert BinSize(0) == 8;
  }

  /** In the second pass, full counters mark the idle runs of list `b`. */
  lemma FullAt(s0: State, s: State, b: nat, p: int)
    requires |s0.slots| == BINS && b < BINS && Sound(s) && |s.slots| == BINS && p in s.slots[b]
    requires Passing(s0, s, CountedLists(s0.slots, b + 1, 0), s.slots)
    ensures Full(HeadInfo(s.pg, p)) <==> Idle(s0.pg, s0.slots, p)
    ensures Full(HeadInfo(s.pg, p)) <==> HeadInfo(s.pg, p).SRun? && HeadInfo(s.pg, p).bin == b && HeadInfo(s.pg, p).counter == BinElements(b)
  {
    hide Sound, ChunksWF, BlockAt, HeadInfo, Mapped, BinElements, Idle, Passing, BinSize;
    ListedFacts(s, b, p);
    FullIsIdle(s0, s, CountedLists(s0.slots, b + 1, 0), s.slots, b, p);
    SmallInRun(s.pg, p);
  }

  /** Take entry `p` out of list `b`; `q` is the last entry kept so far, or 0. */
  method SkipOne(h: Heap, b: nat, q: int, next: int, ghost s0: State, ghost lists: Slots, ghost k: seq<int>, ghost p: int, ghost r: seq<int>)
    requires h.Steady() && 1 <= b < BINS && |h.s.slots| == BINS && Passing(s0, h.s, lists, h.s.slots)
    requires h.s.slots[b] == k + [p] + r && Full(HeadInfo(h.s.pg, p))
    requires next == First(r) && q == (if k == [] then 0 else k[|k| - 1])
    modifies h`s, h`mem, h.freeSlot
    ensures h.Steady() && h.hm.objs == old(h.hm.objs)
    ensures h.s == Skip(old(h.s), b, k, r) && Passing(s0, h.s, lists, old(h.s).slots[b := k + r])
  {
    hide Sound, Headers.Valid, Clear, Passing, HeadInfo, Full, BinSize, SetNext;
    PassSkip(s0, h.s, lists, h.s.slots, b, k, p, r);
    SizeOfUsed(b);
    ClearSame(h.reserved, h.mem, Skip(h.s, b, k, r).mem);
    if q == 0 {
      h.freeSlot[b] := next;
    } else {
      h.mem := SetNext(h.mem, h.shadowKey, q, BinSize(b), next);
    }
    h.s := Skip(h.s, b, k, r);
  }

  /** Second pass over list `b`: the elements of full runs leave the list. */
  method FilterList(h: Heap, b: nat, ghost s0: State)
    requires h.Steady() && b < BINS && |s0.slots| == BINS
    requires Passing(s0, h.s, CountedLists(s0.slots, b + 1, 0), FilteredLists(s0.pg, s0.slots, b, 0))
    modifies h`s, h`mem, h.freeSlot
    ensures h.Steady() && h.hm.objs == old(h.hm.objs)
    ensures Passing(s0, h.s, CountedLists(s0.slots, b + 1, 0), FilteredLists(s0.pg, s0.slots, b + 1, 0))
  {
    hide Sound, Headers.Valid, Clear, Passing, HeadInfo, Full, CountedLists, FilteredLists, BinSize, Heap.Tables, Heap.Heads, Heap.Account,
      LinkOK, WithoutIdle, Idle, Skip, PagesOK, Base, PageOf;
    SlotFacts(h, b);
    ghost var j, l, lists := 0, s0.slots[b], CountedLists(s0.slots, b + 1, 0);
    FilteredStart(s0.pg, s0.slots, b);
    AllPositive(h.s, b);
    NoneWithout(s0.pg, s0.slots);
    assert l[..0] == [];
    var q, p := 0, h.freeSlot[b];
    while p != 0
      invariant h.Steady() && h.hm.objs == old(h.hm.objs)
      invariant 0 <= j <= |l| && p == First(l[j..])
      invariant Passing(s0, h.s, lists, FilteredLists(s0.pg, s0.slots, b, j))
      invariant q == LastOf(WithoutIdle(s0.pg, s0.slots, l[..j]))
      decreases |l| - j
    {
      assert p == l[j];
      ghost var k, r := WithoutIdle(s0.pg, s0.slots, l[..j]), l[j + 1..];
      FilteredNext(s0.pg, s0.slots, b, j);
      EntryAfter(h.s, b, k, p, r);
      SlotFacts(h, b);
      FullAt(s0, h.s, b, p);
      var c, page, info := FindHead(h, b, p);
      var next := h.GetNextSlot(b, p, First(r));
      if info.counter == BinElements(b) {
        SkipOne(h, b, q, next, s0, lists, k, p, r);
      } else {
        q := p;
      }
      p := next;
      j := j + 1;
    }
    FilteredEnd(s0.pg, s0.slots, b);
  }

  // ----- the pass over the page maps -----

  /** Sweeping a chunk with exact counters frees the pages of its idle runs. */
  lemma GainOf(s0: State, s1: State, c: int, r: Pages)
    requires Sound(s0) && Sound(s1) && |s0.slots| == BINS && CountersOnly(s0.pg, s1.pg) && Counted(s1.pg, s0.slots)
    requires c in s1.pg && RunsOK(s1.pg[c]) && PagesOK(s1.pg[c]) && SweptTo(s1.pg[c], r, PAGES) && PagesOK(r)
    ensures r.freePages - s1.pg[c].freePages == GcGain(s0.pg, s0.slots, c)
    ensures EmptyChunk(r) <==> Emptied(s0.pg, s0.slots, c)
  {
    hide LiveInv, Lists, HugeLive, NodesOK, RegionsOK, LinksOK, ChunksOK, ChunksWF, RunsOK, SweptTo, CountersOnly, Counted,
      CountFree, AfterGc, TailOK, SameButCounters;
    ChunksAreWF(s0.pg, s0.ring, s0.cached);
    ChunksAreWF(s1.pg, s1.ring, s1.cached);
    assert c in s0.pg && SameButCounters(s0.pg[c], s1.pg[c]) by { CountersBack(s0.pg, s1.pg, c); }
    CounterOwn(s0.pg[c], s1.pg[c]);
    SweptIsAfterGc(s0.pg, s1.pg, s0.slots, c, r);
  }

  lemma CountersBack(pg: map<int, Pages>, pg2: map<int, Pages>, c: int)
    requires CountersOnly(pg, pg2) && c in pg2
    ensures c in pg && SameButCounters(pg[c], pg2[c])
  {
    assert c in pg2.Keys;
  }

  /** One step of the walk: sweep chunk `c`, delete it when nothing is left in it. */
  method Visit(h: Heap, c: int, ghost s0: State, ghost s1: State, ghost done: seq<int>, ghost rest: seq<int>)
    returns (gain: int, next: int)
    requires h.Steady() && Sound(s0) && Sound(s1) && |s0.slots| == BINS
    requires CountersOnly(s0.pg, s1.pg) && Counted(s1.pg, s0.slots)
    requires Sweeping(s0, s1, h.s, done, rest) && rest != [] && c == rest[0]
    modifies h`s, h`mem, h`realSize, h`chunksCount, h`cachedChunks, h`cachedChunksCount,
      h`lastDeleteBoundary, h`lastDeleteCount, h.hm, h.hm.objs
    ensures h.Steady() && h.hm.objs == old(h.hm.objs) && h.realSize <= old(h.realSize)
    ensures Sweeping(s0, s1, h.s, done + [c], rest[1..])
    ensures h.mainChunk == s1.ring[0]
    ensures gain == 0 && c in s1.pg && (done == [] || !EmptyChunk(s1.pg[c])) ==>
      h.realSize == old(h.realSize) && h.cachedChunks == old(h.cachedChunks)
    ensures gain == GcGain(s0.pg, s0.slots, c) && next == (if |rest| > 1 then rest[1] else s1.ring[0])
  {
    hide Sound, Headers.Valid, Clear, Passing, Drained, SweptPart, CountersOnly, Counted, RunsOK, PagesOK, KeptRing, SameLive, SweptTo,
      Emptied, GcGain, Sweeping, Heap.Heads, Heap.Account, SameActive, Retired, Beside, SumHuge, DropActive;
    ghost var s, k := h.s, |KeptRing(s0.pg, s0.slots, done)|;
    AtVisit(s0, s1, s, done, rest);
    MainSame(s0, s1, s, done, rest);
    HeapFacts(h);
    next := h.hm.Get(c).next;
    gain := h.hm.Sweep(c);
    ghost var r := h.hm.pg[c];
    GainOf(s0, s1, c, r);
    SweepVisit(s0, s1, s, done, rest, r);
    h.s := s.(pg := s.pg[c := r]);
    if h.hm.FreePages(c) == PAGES - FIRST_PAGE && c != h.mainChunk {
      h.DeleteChunk(c, k);
      SweepDrop(s0, s1, s, done, rest, r, h.s);
    } else {
      SweepKeep(s0, s1, s, done, rest, r);
    }
  }

  lemma MainSame(s0: State, s1: State, s: State, done: seq<int>, rest: seq<int>)
    requires Sweeping(s0, s1, s, done, rest) && rest != []
    ensures |s.ring| > 0 && |s1.ring| > 0 && s.ring[0] == s1.ring[0]
  {
    hide SweptPart, Drained, SameLive;
    KeptEmpty(s0, done);
  }

  /** The walk over the ring: every chunk in use at the start is visited once. */
  method SweepRing(h: Heap, ghost s0: State) returns (collected: int)
    requires h.Steady() && Sound(s0) && |s0.slots| == BINS
    requires CountersOnly(s0.pg, h.s.pg) && Counted(h.s.pg, s0.slots) && Drained(h.s.pg, h.s.slots, h.s.live)
    modifies h`s, h`mem, h`realSize, h`chunksCount, h`cachedChunks, h`cachedChunksCount,
      h`lastDeleteBoundary, h`lastDeleteCount, h.hm, h.hm.objs
    ensures h.Steady() && h.hm.objs == old(h.hm.objs) && h.realSize <= old(h.realSize)
    ensures Sweeping(s0, old(h.s), h.s, old(h.s).ring, [])
    ensures collected == GcPages(s0.pg, s0.slots, old(h.s).ring)
    ensures collected == 0 && NonEmpty(old(h.s).pg, old(h.s).ring) ==>
      h.realSize == old(h.realSize) && h.cachedChunks == old(h.cachedChunks)
  {
    hide Sound, Headers.Valid, Clear, Drained, CountersOnly, Counted, KeptRing, SameLive, Sweeping, Heap.Heads, Heap.Account, Heap.Tables,
      GcPages, GcGain, Emptied, NonEmpty;
    ghost var s1, done, rest := h.s, [], h.s.ring;
    SweepStart(s0, s1);
    HeapFacts(h);
    GcPagesNone(s0);
    RingDistinct(s1);
    collected := 0;
    var c := h.mainChunk;
    while true
      invariant h.Steady() && h.hm.objs == old(h.hm.objs) && h.realSize <= old(h.realSize)
      invariant Sweeping(s0, s1, h.s, done, rest) && s1.ring == done + rest && rest != [] && c == rest[0]
      invariant collected == GcPages(s0.pg, s0.slots, done) && 0 <= collected
      invariant collected == 0 && NonEmpty(s1.pg, s1.ring) ==>
        h.realSize == old(h.realSize) && h.cachedChunks == old(h.cachedChunks)
      decreases |rest|
    {
      NotEmptyAt(s1, done, rest);
      var gain, next := Visit(h, c, s0, s1, done, rest);
      GainSign(s0.pg, s0.slots, c);
      KeptStep(s0.pg, s0.slots, done, c);
      collected := collected + gain;
      assert s1.ring == (done + [c]) + rest[1..];
      done, rest := done + [c], rest[1..];
      c := next;
      WrapAround(s1.ring, done, rest);
      if c == h.mainChunk {
        break;
      }
    }
    assert done == s1.ring;
  }

  /** Between calls only the main chunk, which is visited first, may be empty. */
  lemma NotEmptyAt(s: State, done: seq<int>, rest: seq<int>)
    requires s.ring == done + rest && rest != []
    ensures NonEmpty(s.pg, s.ring) && rest[0] in s.pg ==> done == [] || !EmptyChunk(s.pg[rest[0]])
  {
    hide EmptyChunk;
    assert s.ring[|done|] == rest[0];
  }

  lemma GainSign(pg: map<int, Pages>, slots: Slots, c: int)
    ensures 0 <= GcGain(pg, slots, c)
  {
    if c in pg { CountMore(pg[c].own, AfterGc(pg, slots, c)); }
  }

  lemma {:induction false} CountMore(a: seq<int>, b: seq<int>)
    requires |a| == |b| && forall q :: 0 <= q < |a| && a[q] < 0 ==> b[q] < 0
    ensures CountFree(a) <= CountFree(b)
  {
    if a != [] { CountMore(a[..|a| - 1], b[..|b| - 1]); }
  }

  /** The walk is back at the main chunk only when nothing is left to visit. */
  lemma WrapAround(ring: seq<int>, done: seq<int>, rest: seq<int>)
    requires ring == done + rest && done != []
    requires forall i, j :: 0 <= i < j < |ring| ==> ring[i] != ring[j]
    ensures rest != [] ==> rest[0] != ring[0]
  {
    assert rest != [] ==> ring[|done|] == rest[0];
  }

  lemma GcPagesNone(s0: State)
    ensures GcPages(s0.pg, s0.slots, []) == 0
  {}

  lemma RingDistinct(s: State)
    requires Sound(s)
    ensures forall i, j :: 0 <= i < j < |s.ring| ==> s.ring[i] != s.ring[j]
  {
    hide LiveInv, Lists, HugeLive, NodesOK, RegionsOK, ChunksOK, HomeOK, CachedOK, Linked;
  }

  // ----- the collector -----

  /** The passes over the free list of class `b`. */
  method CollectList(h: Heap, b: nat, ghost s0: State)
    requires h.Steady() && b < BINS && |s0.slots| == BINS
    requires Passing(s0, h.s, CountedLists(s0.slots, b, 0), FilteredLists(s0.pg, s0.slots, b, 0))
    modifies h`s, h`mem, h.freeSlot, h.hm.objs, h.hm`pg
    ensures h.Steady() && h.hm.objs == old(h.hm.objs)
    ensures Passing(s0, h.s, CountedLists(s0.slots, b + 1, 0), FilteredLists(s0.pg, s0.slots, b + 1, 0))
  {
    hide Sound, Headers.Valid, Clear, Passing, HeadInfo, Full, CountedLists, FilteredLists, Heap.Tables, Heap.Heads, Heap.Account, Idle;
    var full := CountList(h, b, s0);
    if full {
      FilterList(h, b, s0);
    } else {
      NoneIdle(s0, h.s, b);
      FilteredSame(s0.pg, s0.slots, b);
    }
  }

  lemma NoneIdle(s0: State, s: State, b: nat)
    requires |s0.slots| == BINS && b < BINS && Sound(s)
    requires Passing(s0, s, CountedLists(s0.slots, b + 1, 0), FilteredLists(s0.pg, s0.slots, b, 0))
    requires forall i :: 0 <= i < |s0.slots[b]| ==> !Full(HeadInfo(s.pg, s0.slots[b][i]))
    ensures forall i :: 0 <= i < |s0.slots[b]| ==> !Idle(s0.pg, s0.slots, s0.slots[b][i])
  {
    hide Sound, Passing, HeadInfo, Full, CountedLists, FilteredLists, Idle;
    FilteredStart(s0.pg, s0.slots, b);
    forall i | 0 <= i < |s0.slots[b]| ensures !Idle(s0.pg, s0.slots, s0.slots[b][i]) {
      FullAt(s0, s, b, s0.slots[b][i]);
    }
  }

  lemma PassStart(s: State)
    requires Sound(s) && Quiet(s.pg) && |s.slots| == BINS
    ensures Passing(s, s, CountedLists(s.slots, 0, 0), FilteredLists(s.pg, s.slots, 0, 0))
  {
    hide LiveInv, Lists, HugeLive, NodesOK, RegionsOK, LinksOK, ChunksOK, ChunksWF, Quiet, Counted, FilteredLists, CountedLists;
    ChunksAreWF(s.pg, s.ring, s.cached);
    CountedNone(s.slots);
    FilteredNone(s.pg, s.slots);
    QuietCounted(s.pg, CountedLists(s.slots, 0, 0));
  }

  /** After the passes over the lists, elements of full runs are neither live nor listed. */
  lemma PassedDrained(s0: State, s: State)
    requires Sound(s0) && Sound(s) && |s0.slots| == BINS
    requires Passing(s0, s, s0.slots, FilteredLists(s0.pg, s0.slots, BINS, 0))
    ensures Drained(s.pg, s.slots, s.live)
  {
    hide Sound, FilteredLists, HeadInfo, Full, BlockAt, CountersOnly, Counted, SameLive, Idle;
    forall a | BlockAt(s.pg, a).Small? && Full(HeadInfo(s.pg, a))
      ensures a !in s.live && BlockAt(s.pg, a).bin < |s.slots| && a !in s.slots[BlockAt(s.pg, a).bin]
    {
      SmallBin(s, a);
      PassedAt(s0, s, BlockAt(s.pg, a).bin, a);
    }
  }

  lemma PassedAt(s0: State, s: State, b: nat, a: int)
    requires Sound(s0) && Sound(s) && |s0.slots| == BINS && b < BINS && BlockAt(s.pg, a) == Small(b) && Full(HeadInfo(s.pg, a))
    requires Passing(s0, s, s0.slots, FilteredLists(s0.pg, s0.slots, BINS, 0))
    ensures a !in s.live && b < |s.slots| && a !in s.slots[b]
  {
    hide Sound, FilteredLists, HeadInfo, Full, BlockAt, CountersOnly, Counted, SameLive, Idle, RunStart, WithoutIdle, ChunksWF, Mapped, BinSize;
    FullIsIdle(s0, s, s0.slots, s.slots, b, a);
    CountersSame(s0.pg, s.pg, a);
    IdleListed(s0.pg, s0.slots, a);
    ListedFacts(s0, b, a);
    WithoutIdleMembers(s0.pg, s0.slots, s0.slots[b]);
    FilteredAll(s0.pg, s0.slots, b);
  }

  lemma IdleListed(pg: map<int, Pages>, slots: Slots, a: int)
    requires Idle(pg, slots, a)
    ensures a in slots[BlockAt(pg, a).bin]
  {
    hide BlockAt, RunStart;
    assert SameRun(pg, a, a);
  }

  lemma FilteredAll(pg: map<int, Pages>, slots: Slots, b: nat)
    requires |slots| == BINS && b < BINS
    ensures FilteredLists(pg, slots, BINS, 0)[b] == WithoutIdle(pg, slots, slots[b])
  {
    hide WithoutIdle;
  }

  lemma PassedWalked(s0: State, s1: State, t: State)
    requires Sound(s0) && Quiet(s0.pg) && Sound(s1) && Sound(t) && |s0.slots| == BINS
    requires Passing(s0, s1, s0.slots, FilteredLists(s0.pg, s0.slots, BINS, 0))
    requires Sweeping(s0, s1, t, s1.ring, [])
    ensures Walked(s0, s1, t)
  {
    hide Sound, Quiet, Sweeping, FilteredLists, CountersOnly, Counted, SameLive;
  }

  /** zend_mm_gc */
  method Gc(h: Heap) returns (r: int)
    requires h.Ready()
    modifies h`s, h`mem, h`realSize, h`chunksCount, h`cachedChunks, h`cachedChunksCount,
      h`lastDeleteBoundary, h`lastDeleteCount, h.hm, h.hm.objs, h.freeSlot
    ensures h.Ready() && h.hm.objs == old(h.hm.objs) && h.realSize <= old(h.realSize)
    ensures Collected(old(h.s), h.s)
    ensures r == PAGE * GcPages(old(h.s).pg, old(h.s).slots, old(h.s).ring)
    ensures r == 0 ==> h.realSize == old(h.realSize) && h.cachedChunks == old(h.cachedChunks)
  {
    hide Sound, Headers.Valid, Clear, Heap.Tables, Heap.Heads, Heap.Account, Passing, CountedLists, FilteredLists, Sweeping, Quiet, NonEmpty,
      Drained, CountersOnly, Counted, Collected, GcPages, Walked;
    ghost var s0 := h.s;
    HeapFacts(h);
    PassStart(s0);
    var b := 0;
    while b < BINS
      invariant 0 <= b <= BINS && h.Steady() && h.hm.objs == old(h.hm.objs) && h.realSize == old(h.realSize) && h.cachedChunks == old(h.cachedChunks)
      invariant Passing(s0, h.s, CountedLists(s0.slots, b, 0), FilteredLists(s0.pg, s0.slots, b, 0))
    {
      SlotFacts(h, b);
      CollectList(h, b, s0);
      b := b + 1;
    }
    CountedAll(s0.slots);
    PassedDrained(s0, h.s);
    PassedFacts(s0, h.s);
    ghost var s1 := h.s;
    CountersNonEmpty(s0, s1);
    var collected := SweepRing(h, s0);
    PassedWalked(s0, s1, h.s);
    WalkedSettled(s0, s1, h.s);
    WalkedCollected(s0, s1, h.s);
    r := collected * PAGE;
  }

  lemma CountersNonEmpty(s: State, t: State)
    requires CountersOnly(s.pg, t.pg) && t.ring == s.ring && Settled(s)
    ensures NonEmpty(t.pg, t.ring)
  {
    hide Quiet, SameButCounters, CountersOnly;
    forall i | 1 <= i < |t.ring| && t.ring[i] in t.pg ensures !EmptyChunk(t.pg[t.ring[i]]) {
      CountersAt(s.pg, t.pg, t.ring[i]);
    }
  }

  lemma CountersAt(pg: map<int, Pages>, pg2: map<int, Pages>, c: int)
    requires CountersOnly(pg, pg2) && c in pg2
    ensures c in pg && pg2[c].freePages == pg[c].freePages
  {
    assert c in pg2.Keys;
  }

  lemma PassedFacts(s0: State, s: State)
    requires |s0.slots| == BINS && Passing(s0, s, s0.slots, FilteredLists(s0.pg, s0.slots, BINS, 0))
    ensures CountersOnly(s0.pg, s.pg) && Counted(s.pg, s0.slots) && s.ring == s0.ring
  {
    hide CountersOnly, Counted, SameLive;
  }
}
