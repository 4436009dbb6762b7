/** A heap that goes past its memory limit. */
module Limits {
  import opened Sizes
  import opened Pages
  import opened Memory
  import opened Blocks
  import opened Live
  import opened FreeLists
  import opened Chunks
  import opened Rings
  import opened HeapModel
  import opened HeapState
  import opened HeaderTable
  import GcSpec
  import opened Collectors
  import opened Heaps
  import opened PageAllocs
  import opened SmallRuns
  import opened LargeRuns
  import opened HeapCalls
  import opened Lifecycle

  /** The largest run has room in a new chunk. */
  lemma RoomInNew(s: State, base: int)
    requires s.ring == [base] && base in s.pg && |s.pg[base].own| == PAGES && AllFree(s.pg[base].own, 1, PAGES)
    ensures PagesFor(MAX_LARGE) == PAGES - 1 && !MustAsk(s, PAGES - 1)
  {
    hide AllFree;
    assert !NoRoom(s.pg[base].own, PAGES - 1);
    assert s.ring[0] == base;
  }

  lemma NoRoomLeft(p: Pages, page: nat)
    requires PagesOK(p) && 1 <= page < PAGES && p.own[page] == page && p.info[page] == LRun(PAGES - 1)
    ensures NoRoom(p.own, 1)
  {
    hide TailOK, CountFree;
    forall s, e | 0 <= s && e == s + 1 && e <= |p.own| ensures !AllFree(p.own, s, e) {
      assert p.own[s] >= 0;
    }
  }

  /** A chunk that is all one run leaves no class a page. */
  lemma FullHeap(s: State, a: int)
    requires Sound(s) && RunAt(s, a, PAGES - 1) && |s.ring| == 1 && s.cached == []
    requires |s.slots| == BINS && s.slots[NODE_BIN] == []
    ensures ClassEmpty(s, NODE_BIN)
  {
    hide LiveInv, Lists, HugeLive, NodesOK, RegionsOK, LinksOK, PagesOK, NoRoom, LiveInv, NoTiny;
    var c := s.ring[0];
    NoRoomLeft(s.pg[c], PageOf(a));
    assert BinPages(NODE_BIN) == 1;
  }

  /** The chunks that the size counter leaves room for. */
  lemma OneChunk(h: Heap)
    requires h.Ready() && h.floating == 0 && h.s.huge == [] && h.realSize == CHUNK
    ensures |h.s.ring| == 1 && h.s.cached == [] && |h.s.slots| == BINS
  {
    hide Sound, Settled, Headers.Valid, Heap.Heads, Clear;
    assert SumHuge([]) == 0;
    HeapFacts(h);
    SlotFacts(h, 0);
  }

  lemma RoomAtStart(s: State, base: int)
    requires Sound(s) && s.ring == [base] && base in s.pg && AllFree(s.pg[base].own, 1, PAGES)
    ensures PagesFor(MAX_LARGE) == PAGES - 1 && !Exhausted(s, MAX_LARGE)
  {
    hide LiveInv, Lists, HugeLive, NodesOK, RegionsOK, LinksOK, NoTiny, TailOK, CountFree, AllFree, MustAsk;
    assert s.ring[0] == base && PagesOK(s.pg[base]);
    RoomInNew(s, base);
  }

  lemma NothingListed(s: State, t: State)
    requires s.slots == NoSlots() && Housekept(s, t) && |t.slots| == BINS
    ensures t.slots[NODE_BIN] == []
  {
    assert s.slots[NODE_BIN] == [];
    NoneAdded(s, t, NODE_BIN);
  }

  lemma NoneAdded(s: State, t: State, b: nat)
    requires Housekept(s, t) && b < |s.slots|
    ensures |t.slots[b]| > 0 ==> t.slots[b][0] in s.slots[b]
  {
    if |t.slots[b]| > 0 {
      var x := t.slots[b][0];
      assert x in t.slots[b];
    }
  }

  lemma HousekeptHuge(s: State, t: State)
    requires Housekept(s, t)
    ensures t.huge == s.huge
  {}

  /** A heap of one chunk, filled by one run. */
  method FillFirst(base: int, key: Word8) returns (h: Heap)
    requires ChunkBase(base)
    ensures fresh(h) && fresh(h.freeSlot) && fresh(h.hm) && fresh(h.hm.objs)
    ensures h.Ready() && !h.overflow && h.realSize == CHUNK && h.refusals == 0 && ClassEmpty(h.s, NODE_BIN)
  {
    hide Heap.Ready, Heap.Valid, Sound, Settled, Headers.Valid, Clear, LiveKept, Allocated, Drift, SumUsable, Refused,
      RunAt, Housekept, ClassEmpty, MustAsk, Starved, LimitHit, Room, AllFree, ChunkBase, OutOfMemory, Exhausted, NoSlots, OverLimit, Usable,
      PagesFor, ClassFor, RoundUp, IsNode, Fitting, BlockFor;
    h := new Heap(base, key);
    NewFacts(h);
    ghost var s := h.s;
    RoomAtStart(s, base);
    var q := AllocHeap(h, MAX_LARGE);
    StartFacts(h);
    HousekeptHuge(s, h.s);
    OneChunk(h);
    NothingListed(s, h.s);
    FullHeap(h.s, q);
  }

  lemma NewFacts(h: Heap)
    requires h.Valid()
    ensures h.Ready() && Sound(h.s) && h.floating == 0 && h !in h.hm.objs && h.freeSlot !in h.hm.objs
  {
    hide Sound, Settled;
  }

  lemma StartFacts(h: Heap)
    requires h.Ready()
    ensures Sound(h.s) && h !in h.hm.objs && h.freeSlot !in h.hm.objs
  {
    hide Sound, Settled;
  }

  /** A limit of two chunks and a huge block of one chunk: the block passes the check, then
      its list node takes a third chunk. */
  method Overshoot(base: int, key: Word8) returns (h: Heap, p: int)
    requires ChunkBase(base)
    ensures fresh(h) && h.Ready() && !h.overflow && h.limit == 2 * CHUNK
    ensures h.refusals == 0 ==> p in h.s.live && h.s.live[p] == Huge(CHUNK) && h.realSize == h.limit + CHUNK
  {
    hide Sound, Settled, Headers.Valid, Clear, Heap.Heads, Heap.Account, Heap.Tables, SumHuge, LiveKept, Drift, SumUsable, Refused,
      RunAt, Housekept, ClassEmpty, MustAsk, LimitHit, Starved, Room, AllFree, ChunkBase, OutOfMemory, Exhausted, SameActive;
    h := FillFirst(base, key);
    var ok := SetMemoryLimit(h, 2 * CHUNK);
    p := AllocHeap(h, CHUNK);
  }

  /** A heap that has gone past its limit is no longer bound by it: what is left below the limit
      wraps around, and neither a chunk nor a huge block is refused for its size, as long as
      the excess and the block together are less than the address space. */
  lemma LimitLost(h: Heap, n: int)
    requires h.limit < h.realSize < ADDRESS_LIMIT && 0 <= n <= ADDRESS_LIMIT - (h.realSize - h.limit)
    ensures !OverLimit(h, n)
    ensures CHUNK <= n ==> !LimitHit(h)
  {
    hide GcSpec.NoIdle, Room;
    RoomWraps(h.limit, h.realSize);
  }
}
