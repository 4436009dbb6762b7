/** The steps of the collector on the state of the heap. */
module Collecting {
  import opened Sizes
  import opened Pages
  import opened Memory
  import opened Blocks
  import opened Live
  import opened FreeLists
  import opened Chunks
  import opened Rings
  import opened HeapModel
  import opened HeapState
  import opened Counting

  // ----- counting one free element -----

  /** Free element `p` has not been counted, so its counter is not full. */
  lemma NotYetFull(pg: map<int, Pages>, lists: Slots, p: int)
    requires ChunksWF(pg) && BlockAt(pg, p).Small? && CountedAt(pg, lists, p)
    requires BlockAt(pg, p).bin < |lists| && p !in lists[BlockAt(pg, p).bin]
    ensures !Full(HeadInfo(pg, p))
  {
    hide ChunksWF, BlockAt, RunStart, HeadInfo, Full, CountedAt;
    FullIff(pg, lists, p);
    assert SameRun(pg, p, p);
  }

  lemma CountLive(pg: map<int, Pages>, slots: Slots, live: map<int, Block>, p: int)
    requires ChunksWF(pg) && LiveInv(pg, slots, live) && BlockAt(pg, p).Small? && !Full(HeadInfo(pg, p))
    ensures LiveInv(CountUp(pg, p), slots, live)
  {
    hide ChunksWF, BlockAt, RunStart, HeadInfo, Full, CountUp, CountersOnly;
    CountUpOnly(pg, p);
    var pg2 := CountUp(pg, p);
    forall a ensures Owned(pg2, slots, live, a) {
      assert Owned(pg, slots, live, a);
      CountersSame(pg, pg2, a);
      if BlockAt(pg, a).Small? {
        CountUpHead(pg, p, a);
        if RunStart(pg, a) == RunStart(pg, p) { SameStartSameBin(pg, a, p); }
      }
    }
    forall b | 0 <= b < BINS ensures OnList(pg2, slots, b) {
      assert OnList(pg, slots, b);
      forall i | 0 <= i < |slots[b]| ensures BlockAt(pg2, slots[b][i]) == Small(b) { CountersSame(pg, pg2, slots[b][i]); }
    }
  }

  lemma CountSound(s: State, p: int)
    requires Sound(s) && BlockAt(s.pg, p).Small? && !Full(HeadInfo(s.pg, p))
    ensures Sound(s.(pg := CountUp(s.pg, p)))
  {
    hide LiveInv, Lists, HugeLive, NodesOK, RegionsOK, LinksOK, ChunksOK, BlockAt, HeadInfo, Full, CountUp, CountersOnly, ChunksWF;
    ChunksAreWF(s.pg, s.ring, s.cached);
    CountLive(s.pg, s.slots, s.live, p);
    CountUpOnly(s.pg, p);
    CountersChunks(s.pg, CountUp(s.pg, p), s.ring, s.cached);
    RegionsSameKeys(s.mem, s.pg, CountUp(s.pg, p), s.huge);
    LinksUpdate(s.pg, CountUp(s.pg, p), s.ln, s.ring, s.cached, s.key);
  }

  lemma CountersAt(pg: map<int, Pages>, pg2: map<int, Pages>, c: int)
    requires CountersOnly(pg, pg2) && c in pg
    ensures c in pg2 && SameButCounters(pg[c], pg2[c])
  {
    hide SameButCounters;
    assert c in pg.Keys;
  }

  lemma CountersChunks(pg: map<int, Pages>, pg2: map<int, Pages>, ring: seq<int>, cached: seq<int>)
    requires ChunksOK(pg, ring, cached) && CountersOnly(pg, pg2)
    ensures ChunksOK(pg2, ring, cached) && pg2.Keys == pg.Keys
  {
    hide PagesOK, ChunkBase, Blank, SameButCounters;
    forall c | c in pg2 ensures ChunkBase(c) && (c in ring || c in cached) { assert c in pg.Keys; }
    forall i | 0 <= i < |ring| ensures ring[i] in pg2 && PagesOK(pg2[ring[i]]) {
      CountersAt(pg, pg2, ring[i]);
      CountersOK(pg[ring[i]], pg2[ring[i]]);
    }
    forall i | 0 <= i < |cached|
      ensures cached[i] in pg2 && cached[i] !in ring && Blank(pg2[cached[i]].own) && |pg2[cached[i]].info| == PAGES
    {
      CountersAt(pg, pg2, cached[i]);
      CounterOwn(pg[cached[i]], pg2[cached[i]]);
    }
  }

  // ----- unlinking one free element -----

  /** Entry `p`, which follows the entries `k` that stay, leaves the list of class `b`. */
  function Skip(s: State, b: nat, k: seq<int>, r: seq<int>): State
    requires b < BINS && |s.slots| == BINS
  {
    BinFacts(b);
    s.(slots := s.slots[b := k + r],
       mem := if k == [] || k[|k| - 1] < 0 || First(r) < 0 then s.mem
              else SetNext(s.mem, s.key, k[|k| - 1], BinSize(b), First(r)))
  }

  lemma SkipSound(s: State, b: nat, k: seq<int>, p: int, r: seq<int>)
    requires Sound(s) && 1 <= b < BINS && |s.slots| == BINS && s.slots[b] == k + [p] + r && Full(HeadInfo(s.pg, p))
    ensures Sound(Skip(s, b, k, r)) && SameLive(s.mem, Skip(s, b, k, r).mem, s.live, 0)
    ensures k != [] ==> 0 < k[|k| - 1] && 0 <= First(r)
  {
    hide LiveInv, Lists, HugeLive, NodesOK, RegionsOK, LinksOK, ChunksOK, BlockAt, HeadInfo, Full, SameLive, SetNext, BinSize;
    SkipLive(s.pg, s.slots, s.live, b, k, p, r);
    if k != [] {
      SkipWrite(s, b, k, p, r);
    } else {
      SkipFirst(s, b, p, r);
    }
  }

  lemma SkipLive(pg: map<int, Pages>, slots: Slots, live: map<int, Block>, b: nat, k: seq<int>, p: int, r: seq<int>)
    requires LiveInv(pg, slots, live) && b < BINS && slots[b] == k + [p] + r && Full(HeadInfo(pg, p))
    ensures |slots| == BINS && LiveInv(pg, slots[b := k + r], live)
  {
    hide BlockAt, HeadInfo, Full;
    var slots2 := slots[b := k + r];
    forall a ensures Owned(pg, slots2, live, a) {
      assert Owned(pg, slots, live, a);
      assert a in slots[b] <==> a in k || a == p || a in r;
    }
    forall d | 0 <= d < BINS ensures OnList(pg, slots2, d) {
      assert OnList(pg, slots, d);
      if d == b { SkipNoDup(k, p, r); SkipOnList(pg, slots, b, k, p, r); }
    }
  }

  lemma SkipNoDup(k: seq<int>, p: int, r: seq<int>)
    requires NoDup(k + [p] + r)
    ensures NoDup(k + r)
  {
    var s, t := k + [p] + r, k + r;
    forall i, j | 0 <= i < j < |t| ensures t[i] != t[j] {
      var i2, j2 := if i < |k| then i else i + 1, if j < |k| then j else j + 1;
      assert t[i] == s[i2] && t[j] == s[j2];
    }
  }

  lemma SkipOnList(pg: map<int, Pages>, slots: Slots, b: nat, k: seq<int>, p: int, r: seq<int>)
    requires |slots| == BINS && b < BINS && slots[b] == k + [p] + r && OnList(pg, slots, b)
    ensures forall i :: 0 <= i < |k + r| ==> BlockAt(pg, (k + r)[i]) == Small(b)
  {
    hide BlockAt, NoDup;
    forall i | 0 <= i < |k + r| ensures BlockAt(pg, (k + r)[i]) == Small(b) {
      assert (k + r)[i] == slots[b][if i < |k| then i else i + 1];
    }
  }

  lemma SkipFirst(s: State, b: nat, p: int, r: seq<int>)
    requires Sound(s) && b < BINS && |s.slots| == BINS && s.slots[b] == [] + [p] + r
    ensures Lists(s.mem, s.key, s.slots[b := [] + r]) && SameLive(s.mem, s.mem, s.live, 0)
  {
    hide LiveInv, HugeLive, NodesOK, RegionsOK, LinksOK, ChunksOK, Chain, BinSize;
    assert s.slots[b][1..] == [] + r;
    ListsPop(s.mem, s.key, s.slots, b);
  }

  /** A listed element is a mapped block that is neither live nor a list node. */
  lemma ListedFacts(s: State, b: nat, a: int)
    requires Sound(s) && b < BINS && |s.slots| == BINS && a in s.slots[b]
    ensures ChunksWF(s.pg) && BlockAt(s.pg, a) == Small(b) && !IsNode(s.huge, a) && a !in s.live
    ensures 0 < a && a + BinSize(b) <= ADDRESS_LIMIT && Mapped(s.mem, a, BinSize(b))
    ensures forall d :: 0 <= d < BINS && d != b ==> a !in s.slots[d]
  {
    hide Lists, HugeLive, NodesOK, LinksOK, ChunksOK, ChunksWF, BlockAt, HeadInfo, Full, Mapped, BinSize, IsNode;
    ChunksAreWF(s.pg, s.ring, s.cached);
    assert OnList(s.pg, s.slots, b);
    ListedIsSmall(s.pg, s.slots, b, a);
    assert Owned(s.pg, s.slots, s.live, a);
    NodeIsLive(s.huge, s.live, a);
    BlockInChunk(s.pg, a);
    SmallUsable(b);
    MappedPart(s.mem, Base(a), CHUNK, a, BinSize(b));
    forall d | 0 <= d < BINS && d != b ensures a !in s.slots[d] {
      assert OnList(s.pg, s.slots, d);
      ListedIsSmall(s.pg, s.slots, d, a);
    }
  }

  lemma NodeIsLive(huge: seq<HugeRec>, live: map<int, Block>, a: int)
    requires HugeLive(huge, live)
    ensures IsNode(huge, a) ==> a in live && live[a] == Small(NODE_BIN)
  {}

  lemma SkipWrite(s: State, b: nat, k: seq<int>, p: int, r: seq<int>)
    requires Sound(s) && 1 <= b < BINS && |s.slots| == BINS && s.slots[b] == k + [p] + r && k != []
    ensures 0 < k[|k| - 1] && 0 <= First(r)
    ensures var m2 := Skip(s, b, k, r).mem;
      && Lists(m2, s.key, s.slots[b := k + r]) && NodesOK(m2, s.huge) && RegionsOK(m2, s.pg, s.huge)
      && SameLive(s.mem, m2, s.live, 0)
  {
    hide LiveInv, HugeLive, NodesOK, RegionsOK, LinksOK, ChunksOK, ChunksWF, Chain, BinSize, SetNext, OnlyInside, SameLive,
      LinkOK, BlockAt, Mapped, SameBytes, IsNode;
    var a, m := k[|k| - 1], s.mem;
    assert a == s.slots[b][|k| - 1];
    ListedFacts(s, b, a);
    RestIsAddress(s, b, k, p, r);
    SizeOfUsed(b);
    SetNextOK(m, s.key, a, BinSize(b), First(r));
    var m2 := SetNext(m, s.key, a, BinSize(b), First(r));
    SmallUsable(b);
    LiveBytes(s.pg, s.slots, s.live, s.huge, m, m2, a);
    SameLiveDead(m, m2, s.live, a);
    NodesKept(m, m2, s.huge, s.live, a);
    RegionsKept(m, m2, s.pg, s.huge);
    SkipLists(s, m2, b, k, p, r);
  }

  lemma SameLiveDead(m: Mem, m2: Mem, live: map<int, Block>, a: int)
    requires SameLive(m, m2, live, a) && a !in live
    ensures SameLive(m, m2, live, 0)
  {
    hide SameBytes;
  }

  lemma RestIsAddress(s: State, b: nat, k: seq<int>, p: int, r: seq<int>)
    requires Sound(s) && b < BINS && |s.slots| == BINS && s.slots[b] == k + [p] + r
    ensures IsAddress(First(r))
  {
    hide LiveInv, HugeLive, NodesOK, RegionsOK, LinksOK, ChunksOK, Lists, BlockAt, Mapped, ChunksWF;
    if r != [] {
      assert s.slots[b][|k| + 1] == r[0];
      ListedFacts(s, b, r[0]);
      BinFacts(b);
    }
  }

  lemma SkipLists(s: State, m2: Mem, b: nat, k: seq<int>, p: int, r: seq<int>)
    requires Sound(s) && b < BINS && |s.slots| == BINS && s.slots[b] == k + [p] + r && k != [] && ChunksWF(s.pg)
    requires OnlyInside(s.mem, m2, k[|k| - 1], Usable(Small(b)))
    requires LinkOK(m2, s.key, k[|k| - 1], BinSize(b), First(r))
    ensures Lists(m2, s.key, s.slots[b := k + r])
  {
    hide HugeLive, NodesOK, RegionsOK, LinksOK, ChunksOK, ChunksWF, Chain, BinSize, OnlyInside, LinkOK, BlockAt, Mapped,
      SameBytes, IsNode, Usable, Owned, LiveInv;
    var a := k[|k| - 1];
    assert a == s.slots[b][|k| - 1];
    ListedFacts(s, b, a);
    forall d | 0 <= d < BINS && d != b ensures Chain(m2, s.key, BinSize(d), s.slots[d]) {
      ListsKept(s.pg, s.slots, s.live, s.key, s.mem, m2, a, d);
    }
    forall i | 0 <= i < |s.slots[b]| && i != |k| - 1 ensures SameBytes(s.mem, m2, s.slots[b][i], BinSize(b)) {
      OtherEntry(s, m2, b, |k| - 1, i);
    }
    forall i | 0 <= i < |k| - 1 ensures SameBytes(s.mem, m2, k[i], BinSize(b)) { assert s.slots[b][i] == k[i]; }
    forall i | 0 <= i < |r| ensures SameBytes(s.mem, m2, r[i], BinSize(b)) { assert s.slots[b][|k| + 1 + i] == r[i]; }
    ChainUnlink(s.mem, m2, s.key, BinSize(b), k, p, r);
  }

  lemma OtherEntry(s: State, m2: Mem, b: nat, j: nat, i: nat)
    requires Sound(s) && b < BINS && |s.slots| == BINS && ChunksWF(s.pg)
    requires i < |s.slots[b]| && j < |s.slots[b]| && i != j
    requires OnlyInside(s.mem, m2, s.slots[b][j], Usable(Small(b)))
    ensures SameBytes(s.mem, m2, s.slots[b][i], BinSize(b))
  {
    hide HugeLive, NodesOK, RegionsOK, LinksOK, ChunksOK, ChunksWF, Lists, BinSize, OnlyInside, BlockAt, SameBytes, IsNode, Usable, Owned;
    assert OnList(s.pg, s.slots, b);
    assert s.slots[b][i] != s.slots[b][j];
    OtherBlockBytes(s.pg, s.mem, m2, s.slots[b][j], s.slots[b][i]);
    SmallUsable(b);
  }

  // ----- sweeping one chunk -----

  /** Elements of full runs are neither live nor listed any more. */
  ghost predicate Drained(pg: map<int, Pages>, slots: Slots, live: map<int, Block>) {
    forall a :: BlockAt(pg, a).Small? && Full(HeadInfo(pg, a)) ==>
      a !in live && BlockAt(pg, a).bin < |slots| && a !in slots[BlockAt(pg, a).bin]
  }

  /** No counter is pending in this chunk. */
  ghost predicate QuietIn(p: Pages) {
    forall off :: BlockIn(p, off).Small? ==> HeadIn(p, off) == SRun(BlockIn(p, off).bin, 0)
  }

  lemma SweptHead(p: Pages, r: Pages, off: int)
    requires RunsOK(p) && SweptTo(p, r, PAGES) && BlockIn(r, off).Small?
    ensures 0 <= off < CHUNK && !Full(HeadIn(p, off)) && BlockIn(p, off) == BlockIn(r, off)
    ensures HeadIn(p, off).SRun? && HeadIn(r, off) == SRun(BlockIn(r, off).bin, 0)
  {
    hide CountFree, ElementAt, Continues, Full;
    SweptBlocks(p, r, off);
    assert InOwnRun(p, off / PAGE);
    assert InOwnRun(p, p.own[off / PAGE]);
  }

  lemma SweptQuiet(p: Pages, r: Pages)
    requires RunsOK(p) && SweptTo(p, r, PAGES)
    ensures QuietIn(r)
  {
    hide RunsOK, SweptTo, BlockIn, HeadIn, Full;
    forall off | BlockIn(r, off).Small? ensures HeadIn(r, off) == SRun(BlockIn(r, off).bin, 0) { SweptHead(p, r, off); }
  }

  /** The blocks after sweeping chunk `c`. */
  lemma SweepAt(pg: map<int, Pages>, c: int, r: Pages, a: int)
    requires c in pg && RunsOK(pg[c]) && SweptTo(pg[c], r, PAGES)
    ensures BlockAt(pg[c := r], a) == if Base(a) == c && Full(HeadInfo(pg, a)) then NoBlock else BlockAt(pg, a)
    ensures BlockAt(pg[c := r], a).Small? ==>
      HeadInfo(pg[c := r], a) == if Base(a) == c then SRun(BlockAt(pg, a).bin, 0) else HeadInfo(pg, a)
  {
    hide RunsOK, SweptTo, BlockIn, HeadIn, Full;
    BlockAtUpdate(pg, c, r, a);
    if Base(a) == c {
      SweptBlocks(pg[c], r, a % CHUNK);
      if BlockIn(r, a % CHUNK).Small? { SweptHead(pg[c], r, a % CHUNK); }
    }
  }

  lemma LiveSweep(pg: map<int, Pages>, slots: Slots, live: map<int, Block>, c: int, r: Pages)
    requires LiveInv(pg, slots, live) && c in pg && RunsOK(pg[c]) && SweptTo(pg[c], r, PAGES) && ChunksWF(pg)
    requires Drained(pg, slots, live)
    ensures LiveInv(pg[c := r], slots, live) && Drained(pg[c := r], slots, live)
  {
    hide RunsOK, SweptTo, BlockAt, HeadInfo, ChunksWF;
    var pg2 := pg[c := r];
    forall a
      ensures Owned(pg2, slots, live, a)
      ensures BlockAt(pg2, a).Small? && Full(HeadInfo(pg2, a)) ==> BlockAt(pg, a) == BlockAt(pg2, a) && Full(HeadInfo(pg, a))
    {
      SweepAt(pg, c, r, a);
      assert Owned(pg, slots, live, a);
      SweepOwned(pg, slots, live, c, r, a);
    }
    forall b | 0 <= b < BINS ensures OnList(pg2, slots, b) {
      SweepList(pg, slots, live, c, r, b);
    }
  }

  lemma SweepOwned(pg: map<int, Pages>, slots: Slots, live: map<int, Block>, c: int, r: Pages, a: int)
    requires |slots| == BINS && Owned(pg, slots, live, a) && Drained(pg, slots, live) && ChunksWF(pg)
    requires c in pg && RunsOK(pg[c]) && SweptTo(pg[c], r, PAGES)
    ensures Owned(pg[c := r], slots, live, a)
    ensures BlockAt(pg[c := r], a).Small? && Full(HeadInfo(pg[c := r], a)) ==>
      BlockAt(pg, a) == BlockAt(pg[c := r], a) && Full(HeadInfo(pg, a))
  {
    hide RunsOK, SweptTo, BlockAt, HeadInfo, ChunksWF;
    SweepAt(pg, c, r, a);
    if Full(HeadInfo(pg, a)) && BlockAt(pg, a).Large? { LargeNotFull(pg, a); }
    if BlockAt(pg, a).Small? {
      SmallInRun(pg, a);
      BinFacts(BlockAt(pg, a).bin);
    }
  }

  lemma LargeNotFull(pg: map<int, Pages>, a: int)
    requires BlockAt(pg, a) != NoBlock && !BlockAt(pg, a).Small?
    ensures !Full(HeadInfo(pg, a))
  {}

  lemma SweepList(pg: map<int, Pages>, slots: Slots, live: map<int, Block>, c: int, r: Pages, b: nat)
    requires |slots| == BINS && b < BINS && OnList(pg, slots, b) && Drained(pg, slots, live)
    requires c in pg && RunsOK(pg[c]) && SweptTo(pg[c], r, PAGES)
    ensures OnList(pg[c := r], slots, b)
  {
    hide RunsOK, SweptTo, BlockAt, HeadInfo, Full, NoDup;
    forall i | 0 <= i < |slots[b]| ensures BlockAt(pg[c := r], slots[b][i]) == Small(b) {
      assert slots[b][i] in slots[b];
      SweepAt(pg, c, r, slots[b][i]);
    }
  }

  lemma SweepSound(s: State, c: int, r: Pages)
    requires Sound(s) && c in s.ring && c in s.pg && RunsOK(s.pg[c]) && SweptTo(s.pg[c], r, PAGES) && PagesOK(r)
    requires Drained(s.pg, s.slots, s.live)
    ensures Sound(s.(pg := s.pg[c := r])) && Drained(s.pg[c := r], s.slots, s.live)
  {
    hide LiveInv, Lists, HugeLive, NodesOK, RegionsOK, LinksOK, ChunksOK, Drained, SweptTo, RunsOK, PagesOK, ChunksWF;
    ChunksAreWF(s.pg, s.ring, s.cached);
    LiveSweep(s.pg, s.slots, s.live, c, r);
    PagesSound(s, c, r, s.live);
  }

  lemma CachedNoBlocks(pg: map<int, Pages>, ring: seq<int>, cached: seq<int>, i: int, a: int)
    requires ChunksOK(pg, ring, cached) && 0 <= i < |cached| && Base(a) == cached[i]
    ensures BlockAt(pg, a) == NoBlock
  {
    hide PagesOK, ChunkBase, BlockIn, Blank;
    BlankNoBlocks(pg[cached[i]]);
  }

  /** Blocks lie in active chunks. */
  lemma BlockInRing(pg: map<int, Pages>, ring: seq<int>, cached: seq<int>, a: int)
    requires ChunksOK(pg, ring, cached) && BlockAt(pg, a) != NoBlock
    ensures Base(a) in ring && Base(a) in pg
  {
    hide PagesOK, ChunkBase, BlockIn, Blank;
    forall i | 0 <= i < |cached| ensures Base(a) == cached[i] ==> BlockAt(pg, a) == NoBlock {
      if Base(a) == cached[i] { CachedNoBlocks(pg, ring, cached, i, a); }
    }
  }

  lemma QuietAll(pg: map<int, Pages>, ring: seq<int>, cached: seq<int>)
    requires ChunksOK(pg, ring, cached)
    requires forall i :: 0 <= i < |ring| && ring[i] in pg ==> QuietIn(pg[ring[i]])
    ensures Quiet(pg)
  {
    hide ChunksOK, BlockIn, HeadIn;
    forall a | BlockAt(pg, a).Small? ensures HeadInfo(pg, a) == SRun(BlockAt(pg, a).bin, 0) {
      BlockInRing(pg, ring, cached, a);
      assert QuietIn(pg[Base(a)]);
    }
  }
}
