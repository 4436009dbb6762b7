/** What the collector has achieved when its passes are over. */
module GcResult {
  import opened Sizes
  import opened Pages
  import opened Memory
  import opened Blocks
  import opened Live
  import opened FreeLists
  import opened HeapModel
  import opened HeapState
  import opened Counting
  import opened Collecting
  import opened GcSpec
  import opened Sweepings

  /** From `s` to `t`: exactly the idle small runs are released, their elements leave the
      free lists, whose order is kept, emptied chunks leave the ring, and no byte of a live
      block changes. Afterwards no run is idle. */
  ghost predicate Collected(s: State, t: State)
    ensures Collected(s, t) ==>
      t.live == s.live && t.huge == s.huge && t.key == s.key && NoIdle(t.pg, t.slots) && SameLive(s.mem, t.mem, s.live, 0)
  {
    && t.live == s.live && t.huge == s.huge && t.key == s.key
    && SameLive(s.mem, t.mem, s.live, 0)
    && |s.slots| == |t.slots| == BINS
    && (forall b :: 0 <= b < BINS ==> t.slots[b] == WithoutIdle(s.pg, s.slots, s.slots[b]))
    && t.ring == KeptRing(s.pg, s.slots, s.ring)
    && (forall c :: c in t.ring ==> c in s.pg && c in t.pg && t.pg[c].own == AfterGc(s.pg, s.slots, c))
    && (forall a :: BlockAt(t.pg, a) == if Idle(s.pg, s.slots, a) then NoBlock else BlockAt(s.pg, a))
    && NoIdle(t.pg, t.slots)
  }

  /** `s1` is `s0` after the passes over the lists, `t` is `s1` after the walk. */
  ghost predicate Walked(s0: State, s1: State, t: State)
    ensures Walked(s0, s1, t) ==>
      && Sound(s0) && Quiet(s0.pg) && Sound(s1) && Sound(t) && |s0.slots| == BINS
      && s1 == s0.(pg := s1.pg, slots := FilteredLists(s0.pg, s0.slots, BINS, 0), mem := s1.mem)
      && Sweeping(s0, s1, t, s1.ring, [])
  {
    && Sound(s0) && Quiet(s0.pg) && Sound(s1) && Sound(t) && |s0.slots| == BINS
    && s1 == s0.(pg := s1.pg, slots := FilteredLists(s0.pg, s0.slots, BINS, 0), mem := s1.mem)
    && CountersOnly(s0.pg, s1.pg) && Counted(s1.pg, s0.slots)
    && SameLive(s0.mem, s1.mem, s0.live, 0)
    && Sweeping(s0, s1, t, s1.ring, [])
  }

  lemma WalkedSettled(s0: State, s1: State, t: State)
    requires Walked(s0, s1, t)
    ensures Settled(t)
  {
    hide LiveInv, Lists, HugeLive, NodesOK, RegionsOK, LinksOK, ChunksOK, CountersOnly, Counted, SameLive, Sweeping, RunsOK,
      SweptTo, EmptyChunk, Drained, QuietIn, Quiet, KeptRing, FilteredLists;
    forall i | 0 <= i < |t.ring| && t.ring[i] in t.pg ensures QuietIn(t.pg[t.ring[i]]) {
      assert SweptOne(s1.pg, t.pg, t.ring[i]);
      SweptQuiet(s1.pg[t.ring[i]], t.pg[t.ring[i]]);
    }
    QuietAll(t.pg, t.ring, t.cached);
  }

  lemma WalkedOwn(s0: State, s1: State, t: State, c: int)
    requires Walked(s0, s1, t) && c in t.ring
    ensures c in s0.pg && c in t.pg && t.pg[c].own == AfterGc(s0.pg, s0.slots, c)
    ensures c in s1.pg && RunsOK(s1.pg[c]) && SweptTo(s1.pg[c], t.pg[c], PAGES)
  {
    hide LiveInv, Lists, HugeLive, NodesOK, RegionsOK, LinksOK, ChunksOK, ChunksWF, CountersOnly, Counted, SameLive, Sweeping, RunsOK,
      SweptTo, EmptyChunk, Drained, Quiet, KeptRing, FilteredLists, AfterGc, SameButCounters;
    var i :| 0 <= i < |t.ring| && t.ring[i] == c;
    assert SweptOne(s1.pg, t.pg, t.ring[i]);
    ChunksAreWF(s0.pg, s0.ring, s0.cached);
    ChunksAreWF(s1.pg, s1.ring, s1.cached);
    CounterBack(s0.pg, s1.pg, c);
    SweptIsAfterGc(s0.pg, s1.pg, s0.slots, c, t.pg[c]);
  }

  lemma CounterBack(pg: map<int, Pages>, pg2: map<int, Pages>, c: int)
    requires CountersOnly(pg, pg2) && c in pg2
    ensures c in pg && pg2[c].own == pg[c].own
  {
    assert c in pg2.Keys;
    CountersAt(pg, pg2, c);
  }

  /** Blocks of a chunk that stays. */
  lemma WalkedIn(s0: State, s1: State, t: State, a: int)
    requires Walked(s0, s1, t) && Base(a) in t.ring
    ensures BlockAt(t.pg, a) == if Idle(s0.pg, s0.slots, a) then NoBlock else BlockAt(s0.pg, a)
    ensures RunStart(t.pg, a) == RunStart(s0.pg, a) || BlockAt(t.pg, a) == NoBlock
  {
    hide LiveInv, Lists, HugeLive, NodesOK, RegionsOK, LinksOK, ChunksOK, ChunksWF, CountersOnly, CountedAt, SameLive, Sweeping, RunsOK,
      SweptTo, EmptyChunk, Drained, Quiet, KeptRing, FilteredLists, AfterGc, BlockIn, HeadIn, Idle, Full;
    WalkedOwn(s0, s1, t, Base(a));
    ChunksAreWF(s1.pg, s1.ring, s1.cached);
    SweptBlocks(s1.pg[Base(a)], t.pg[Base(a)], a % CHUNK);
    CountersSame(s0.pg, s1.pg, a);
    assert CountedAt(s1.pg, s0.slots, a);
    if BlockAt(s1.pg, a).Small? {
      FullIff(s1.pg, s0.slots, a);
      CountersIdle(s0.pg, s1.pg, s0.slots, a);
      if !Full(HeadInfo(s1.pg, a)) { SweptStart(s1.pg, t.pg, Base(a), a); }
    } else {
      NotSmallNotIdle(s0.pg, s0.slots, a);
      if BlockAt(s1.pg, a) != NoBlock {
        LargeNotFull(s1.pg, a);
        SweptStart(s1.pg, t.pg, Base(a), a);
      }
    }
  }

  lemma SweptStart(pg: map<int, Pages>, pg2: map<int, Pages>, c: int, a: int)
    requires c == Base(a) && c in pg && c in pg2 && RunsOK(pg[c]) && SweptTo(pg[c], pg2[c], PAGES) && !Full(HeadInfo(pg, a))
    ensures RunStart(pg2, a) == RunStart(pg, a)
  {
    hide CountFree, Continues;
  }

  /** Blocks of a chunk that has been emptied. */
  lemma WalkedOut(s0: State, s1: State, t: State, a: int)
    requires Walked(s0, s1, t) && Base(a) in s0.ring && Base(a) !in t.ring
    ensures BlockAt(t.pg, a) == NoBlock
    ensures BlockAt(s0.pg, a) == NoBlock || Idle(s0.pg, s0.slots, a)
  {
    hide LiveInv, Lists, HugeLive, NodesOK, RegionsOK, LinksOK, ChunksWF, CountersOnly, Counted, SameLive, Sweeping, RunsOK, PagesOK,
      SweptTo, EmptyChunk, Drained, Quiet, KeptRing, FilteredLists, AfterGc, BlockIn, HeadIn, Idle, ChunksOK, Emptied;
    StaysOrEmpty(s0, t, Base(a));
    OutsideRing(t.pg, t.ring, t.cached, a);
    InRing(s0.pg, s0.ring, s0.cached, Base(a));
    ChunksAreWF(s0.pg, s0.ring, s0.cached);
    EmptiedIdle(s0.pg, s0.slots, Base(a), a);
  }

  lemma OutsideRing(pg: map<int, Pages>, ring: seq<int>, cached: seq<int>, a: int)
    requires ChunksOK(pg, ring, cached) && Base(a) !in ring
    ensures BlockAt(pg, a) == NoBlock
  {
    hide ChunksOK, BlockAt;
    if BlockAt(pg, a) != NoBlock { BlockInRing(pg, ring, cached, a); }
  }

  lemma StaysOrEmpty(s0: State, t: State, c: int)
    requires c in s0.ring && t.ring == KeptRing(s0.pg, s0.slots, s0.ring) + []
    ensures c in t.ring || Emptied(s0.pg, s0.slots, c)
  {
    hide KeptRing, Emptied;
    KeptMembers(s0.pg, s0.slots, s0.ring);
  }

  lemma EmptiedIdle(pg: map<int, Pages>, slots: Slots, c: int, a: int)
    requires Emptied(pg, slots, c) && c == Base(a) && ChunksWF(pg) && PagesOK(pg[c]) && RunsOK(pg[c]) && |pg[c].own| == |pg[c].info| == PAGES
    ensures BlockAt(pg, a) == NoBlock || Idle(pg, slots, a)
  {
    hide CountFree, PagesWF, ElementAt, PagesOK, Idle, Fill;
    var own, q := AfterGc(pg, slots, c), PageOf(a);
    HeaderStays(pg, slots, c);
    OnlyHeader(own);
    if BlockAt(pg, a) != NoBlock {
      BlockRun(pg[c], a % CHUNK);
      assert own[q] < 0;
      assert IdlePage(pg, slots, c, q);
      HeadOfBlock(pg, slots, a);
    }
  }

  lemma HeaderStays(pg: map<int, Pages>, slots: Slots, c: int)
    requires c in pg && RunsOK(pg[c]) && |pg[c].own| == PAGES
    ensures AfterGc(pg, slots, c)[0] == 0
  {
    hide Idle;
  }

  lemma OnlyHeader(own: seq<int>)
    requires |own| == PAGES && CountFree(own) == PAGES - FIRST_PAGE && 0 <= own[0]
    ensures forall q :: 1 <= q < PAGES ==> own[q] < 0
  {
    hide CountFree;
    var f := Fill(own, 0, 1, -1);
    CountFillAll(own, 0, 1, -1);
    AllCounted(f);
    forall q | 1 <= q < PAGES ensures own[q] < 0 { assert f[q] < 0; }
  }

  /** When the first element of its run is idle, so is every block of the run. */
  lemma HeadOfBlock(pg: map<int, Pages>, slots: Slots, a: int)
    requires ChunksWF(pg) && BlockAt(pg, a) != NoBlock && Base(a) in pg && |pg[Base(a)].own| == |pg[Base(a)].info| == PAGES
    requires RunsOK(pg[Base(a)]) && 1 <= pg[Base(a)].own[PageOf(a)] && Idle(pg, slots, PageAddr(Base(a), pg[Base(a)].own[PageOf(a)]))
    ensures Idle(pg, slots, a)
  {
    hide CountFree, PagesWF, ElementAt, Idle, Continues;
    var c := Base(a);
    var h := pg[c].own[PageOf(a)];
    BlockRun(pg[c], a % CHUNK);
    RunHead(pg, c, h);
    IdleIsSmall(pg, slots, PageAddr(c, h));
    AddressParts(c, h * PAGE);
    assert SameRun(pg, a, PageAddr(c, h));
    IdleSameRun(pg, slots, a, PageAddr(c, h));
  }

  lemma IdleIsSmall(pg: map<int, Pages>, slots: Slots, a: int)
    requires Idle(pg, slots, a)
    ensures BlockAt(pg, a).Small?
  {}

  lemma WalkedBlocks(s0: State, s1: State, t: State, a: int)
    requires Walked(s0, s1, t)
    ensures BlockAt(t.pg, a) == if Idle(s0.pg, s0.slots, a) then NoBlock else BlockAt(s0.pg, a)
    ensures BlockAt(t.pg, a) != NoBlock ==> RunStart(t.pg, a) == RunStart(s0.pg, a)
  {
    hide LiveInv, Lists, HugeLive, NodesOK, RegionsOK, LinksOK, ChunksOK, CountersOnly, Counted, SameLive, Sweeping,
      Drained, Quiet, KeptRing, FilteredLists, BlockAt, Idle, RunStart;
    if Base(a) in t.ring {
      WalkedIn(s0, s1, t, a);
    } else if Base(a) in s0.ring {
      WalkedOut(s0, s1, t, a);
    } else {
      OutsideRing(t.pg, t.ring, t.cached, a);
      OutsideRing(s0.pg, s0.ring, s0.cached, a);
    }
  }

  /** Afterwards no small run has all its elements free. */
  lemma WalkedNoIdle(s0: State, s1: State, t: State)
    requires Walked(s0, s1, t)
    ensures NoIdle(t.pg, t.slots)
  {
    hide Walked, Sound, BlockAt, RunStart, Quiet, FilteredLists, KeptRing;
    forall a ensures !Idle(t.pg, t.slots, a) {
      if Idle(t.pg, t.slots, a) {
        WalkedBlocks(s0, s1, t, a);
        IdleBefore(s0, s1, t, a);
      }
    }
  }

  lemma IdleBefore(s0: State, s1: State, t: State, a: int)
    requires Walked(s0, s1, t) && BlockAt(t.pg, a).Small?
    ensures !Idle(t.pg, t.slots, a)
  {
    hide Sound, BlockAt, RunStart, Quiet, FilteredLists, KeptRing, CountersOnly, Counted, SameLive, Sweeping;
    WalkedBlocks(s0, s1, t, a);
    SmallBin(s0, a);
    var b := BlockAt(t.pg, a).bin;
    WalkedList(s0, s1, t, b);
    var x := BusyElement(s0, a);
    WalkedBlocks(s0, s1, t, x);
    IdleSameRun(s0.pg, s0.slots, a, x);
    assert SameRun(t.pg, a, x);
  }

  /** A run that is not idle has an element that is not on the list. */
  lemma BusyElement(s: State, a: int) returns (x: int)
    requires BlockAt(s.pg, a).Small? && BlockAt(s.pg, a).bin < |s.slots| && !Idle(s.pg, s.slots, a)
    ensures SameRun(s.pg, a, x) && x !in s.slots[BlockAt(s.pg, a).bin]
  {
    hide BlockAt, SameRun;
    x :| SameRun(s.pg, a, x) && x !in s.slots[BlockAt(s.pg, a).bin];
  }

  lemma SmallBin(s: State, a: int)
    requires Sound(s) && BlockAt(s.pg, a).Small?
    ensures BlockAt(s.pg, a).bin < BINS
  {
    hide LiveInv, Lists, HugeLive, NodesOK, RegionsOK, LinksOK, ChunksOK, ChunksWF, BlockAt, HeadInfo, ElementAt, RunStart;
    ChunksAreWF(s.pg, s.ring, s.cached);
    SmallInRun(s.pg, a);
  }

  lemma WalkedList(s0: State, s1: State, t: State, b: nat)
    requires Walked(s0, s1, t) && b < BINS
    ensures |t.slots| == BINS && t.slots[b] == WithoutIdle(s0.pg, s0.slots, s0.slots[b])
    ensures forall x :: x in t.slots[b] ==> x in s0.slots[b]
  {
    hide Sound, Quiet, CountersOnly, Counted, SameLive, Sweeping, WithoutIdle, Idle;
    assert t.slots == FilteredLists(s0.pg, s0.slots, BINS, 0);
    WithoutIdleMembers(s0.pg, s0.slots, s0.slots[b]);
  }

  lemma WalkedCollected(s0: State, s1: State, t: State)
    requires Walked(s0, s1, t)
    ensures Collected(s0, t)
  {
    hide Walked, Sound, BlockAt, Quiet, FilteredLists, KeptRing, NoIdle, AfterGc, SameLive, WithoutIdle, Idle;
    WalkedNoIdle(s0, s1, t);
    forall a ensures BlockAt(t.pg, a) == if Idle(s0.pg, s0.slots, a) then NoBlock else BlockAt(s0.pg, a) {
      WalkedBlocks(s0, s1, t, a);
    }
    WalkedList(s0, s1, t, 0);
    forall b | 0 <= b < BINS ensures t.slots[b] == WithoutIdle(s0.pg, s0.slots, s0.slots[b]) { WalkedList(s0, s1, t, b); }
    forall c | c in t.ring ensures c in s0.pg && c in t.pg && t.pg[c].own == AfterGc(s0.pg, s0.slots, c) {
      WalkedOwn(s0, s1, t, c);
    }
    WalkedRest(s0, s1, t);
  }

  lemma WalkedRest(s0: State, s1: State, t: State)
    requires Walked(s0, s1, t)
    ensures t.live == s0.live && t.huge == s0.huge && t.key == s0.key
    ensures |s0.slots| == |t.slots| == BINS && t.ring == KeptRing(s0.pg, s0.slots, s0.ring)
    ensures SameLive(s0.mem, t.mem, s0.live, 0)
  {
    hide Sound, Quiet, CountersOnly, Counted, Sweeping, KeptRing, SweptPart, Drained, SameBytes, Usable;
    assert KeptRing(s0.pg, s0.slots, s1.ring) + [] == KeptRing(s0.pg, s0.slots, s0.ring);
    forall x | x in s0.live && x != 0 ensures SameBytes(s0.mem, t.mem, x, Usable(s0.live[x])) {
      SameBytesChain(s0.mem, s1.mem, t.mem, x, Usable(s0.live[x]));
    }
  }
}
