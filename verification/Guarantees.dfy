/** Corollaries of the heap invariant in a caller's terms: every state between calls has these
    properties. Those marked as read off the invariant only restate some of its parts. */
module Guarantees {
  import opened Sizes
  import opened Pages
  import opened Memory
  import opened Blocks
  import opened Live
  import opened FreeLists
  import opened Rings
  import opened HeapModel
  import opened HeapState
  import opened HugeSteps
  import opened Counting
  import opened Collecting
  import opened GcSpec
  import opened GcResult
  import opened Heaps
  import opened HeapCalls
  import opened FreeCalls
  import opened Writes
  import opened Rekeying

  /** Read off the invariant: no live block touches the header page of a chunk, and none leaves its chunk. */
  lemma HeaderUntouched(s: State, a: int)
    requires Sound(s) && a in s.live && !s.live[a].Huge?
    ensures Base(a) in s.ring && Base(a) + PAGE <= a && a + Usable(s.live[a]) <= Base(a) + CHUNK
  {
    hide Sound, Usable, ChunksWF, BlockAt, PagesOK, PagesWF;
    LiveBlock(s, a);
    ChunkBlock(s, a);
    BlockInChunk(s.pg, a);
  }

  /** Between calls every element of every small run is live or on the free list of its
      class, never both, and on the list exactly once. */
  lemma ElementsSplit(s: State, a: int, b: nat)
    requires Sound(s) && Settled(s) && BlockAt(s.pg, a) == Small(b)
    ensures b < BINS && |s.slots| == BINS
    ensures a in s.live ==> s.live[a] == Small(b) && a !in s.slots[b]
    ensures a !in s.live ==> a in s.slots[b]
    ensures forall i, j :: 0 <= i < j < |s.slots[b]| ==> s.slots[b][i] != s.slots[b][j]
    ensures forall d :: 0 <= d < BINS && d != b ==> a !in s.slots[d]
  {
    hide Lists, HugeLive, NodesOK, RegionsOK, LinksOK, ChunksOK, BlockAt, HeadInfo, BinElements;
    SmallBin(s, a);
    BinFacts(b);
    assert Owned(s.pg, s.slots, s.live, a);
    assert OnList(s.pg, s.slots, b);
    assert HeadInfo(s.pg, a) == SRun(b, 0);
    forall d | 0 <= d < BINS && d != b ensures a !in s.slots[d] {
      assert OnList(s.pg, s.slots, d);
      ListedIsSmall(s.pg, s.slots, d, a);
    }
  }

  /** Read off the invariant: every entry of a free list is an element of a small run of that class. */
  lemma ListsAreElements(s: State, b: nat, a: int)
    requires Sound(s) && b < BINS && |s.slots| == BINS && a in s.slots[b]
    ensures BlockAt(s.pg, a) == Small(b) && a !in s.live && Base(a) in s.ring
  {
    hide Sound, ChunksWF, BlockAt, Mapped, BinSize, PagesOK, PagesWF;
    ListedFacts(s, b, a);
    hide ChunksOK;
    assert ChunksOK(s.pg, s.ring, s.cached) by { ChunksOf(s); }
    BlockInRing(s.pg, s.ring, s.cached, a);
  }

  lemma ChunksOf(s: State)
    requires Sound(s)
    ensures ChunksOK(s.pg, s.ring, s.cached)
  {
    hide LiveInv, Lists, HugeLive, NodesOK, RegionsOK, LinksOK, ChunksOK;
  }

  /** A free element never overlaps a live block. */
  lemma FreeApart(s: State, b: nat, a: int, x: int)
    requires Sound(s) && b < BINS && |s.slots| == BINS && a in s.slots[b] && x in s.live
    ensures Apart(a, BinSize(b), x, Usable(s.live[x]))
  {
    hide Sound;
    FreeApartLive(s, b, a, x);
  }

  // ----- the collector -----

  /** A run that holds a live block is never idle, so the collector never touches it. */
  lemma LiveNeverIdle(s: State, a: int, x: int)
    requires Sound(s) && x in s.live && SameRun(s.pg, a, x)
    ensures !Idle(s.pg, s.slots, a)
  {
    hide Lists, HugeLive, NodesOK, RegionsOK, LinksOK, ChunksOK, BlockAt, HeadInfo, RunStart, Full;
    assert Owned(s.pg, s.slots, s.live, x);
  }

  /** The collector keeps every live block where it is. */
  lemma LiveSurvives(s: State, t: State, x: int)
    requires Sound(s) && Collected(s, t) && x in s.live && !s.live[x].Huge?
    ensures x in t.live && t.live[x] == s.live[x] && BlockAt(t.pg, x) == s.live[x]
  {
    hide Sound, BlockAt, ChunksWF, Usable, NoIdle, SameLive, KeptRing, AfterGc, WithoutIdle, Idle, Mapped;
    ChunkBlock(s, x);
    if s.live[x].Small? {
      SelfRun(s.pg, x);
      LiveNeverIdle(s, x, x);
    } else {
      NotSmallNotIdle(s.pg, s.slots, x);
    }
  }

  lemma SelfRun(pg: map<int, Pages>, a: int)
    requires BlockAt(pg, a).Small?
    ensures SameRun(pg, a, a)
  {}

  /** Order is kept: what remains of a list is a subsequence of it. */
  lemma {:induction false} OrderKept(pg: map<int, Pages>, slots: Slots, list: seq<int>, x: int, y: int)
    requires NoDup(list) && Precedes(list, x, y) && !Idle(pg, slots, x) && !Idle(pg, slots, y)
    ensures Precedes(WithoutIdle(pg, slots, list), x, y)
  {
    hide Idle;
    var front, last := list[..|list| - 1], list[|list| - 1];
    var i, j :| 0 <= i < j < |list| && list[i] == x && list[j] == y;
    if y == last {
      assert front[i] == x;
      WithoutIdleMembers(pg, slots, front);
      var w := WithoutIdle(pg, slots, front);
      assert x in w;
      var k :| 0 <= k < |w| && w[k] == x;
      assert (w + [y])[k] == x && (w + [y])[|w|] == y;
    } else {
      assert front[i] == x && front[j] == y;
      OrderKept(pg, slots, front, x, y);
      PrecedesMore(WithoutIdle(pg, slots, front), if Idle(pg, slots, last) then [] else [last], x, y);
    }
  }

  ghost predicate Precedes(list: seq<int>, x: int, y: int) {
    exists i, j :: 0 <= i < j < |list| && list[i] == x && list[j] == y
  }

  lemma PrecedesMore(l: seq<int>, m: seq<int>, x: int, y: int)
    requires Precedes(l, x, y)
    ensures Precedes(l + m, x, y)
  {
    var i, j :| 0 <= i < j < |l| && l[i] == x && l[j] == y;
    assert (l + m)[i] == x && (l + m)[j] == y;
  }

  /** After a run of the collector another one releases nothing, changes no list and returns 0. */
  lemma SecondGcIdle(s: State, t: State)
    requires Collected(s, t)
    ensures PAGE * GcPages(t.pg, t.slots, t.ring) == 0
    ensures forall b :: 0 <= b < |t.slots| ==> WithoutIdle(t.pg, t.slots, t.slots[b]) == t.slots[b]
  {
    hide Collected, GcPages, Idle, SameLive;
    NothingToCollect(t.pg, t.slots, t.ring);
    forall b | 0 <= b < |t.slots| ensures WithoutIdle(t.pg, t.slots, t.slots[b]) == t.slots[b] {
      WithoutIdleSame(t.pg, t.slots, t.slots[b]);
    }
  }

  // ----- rings and caches -----

  /** Read off the invariant: following `next` through the ring visits every active chunk once and comes back. */
  lemma RingWalk(s: State, k: nat)
    requires Sound(s) && k < |s.ring|
    ensures s.ring[k] in s.ln && s.ln[s.ring[k]].next == (if k + 1 < |s.ring| then s.ring[k + 1] else s.ring[0])
    ensures s.ln[s.ring[k]].next in s.ln && s.ln[s.ln[s.ring[k]].next].prev == s.ring[k]
    ensures forall i :: 0 <= i < |s.ring| && i != k ==> s.ring[i] != s.ring[k]
    ensures s.ring[k] !in s.cached
  {
    hide LiveInv, Lists, HugeLive, NodesOK, RegionsOK, ChunksOK, HomeOK, CachedOK;
    assert Linked(s.ln, s.ring, k);
    assert Linked(s.ln, s.ring, if k + 1 < |s.ring| then k + 1 else 0);
    RingNotCached(s);
  }

  /** Read off the invariant: the check on a cached link passes on every cached chunk. */
  lemma CachedChecks(s: State, i: nat)
    requires Sound(s) && i < |s.cached|
    ensures s.cached[i] in s.ln && 0 < s.cached[i] && s.ln[s.cached[i]].next == NextOf(s.cached, i)
    ensures Decode(s.key, s.cached[i] + SHADOW_OFFSET, s.ln[s.cached[i]].shadow) == NextOf(s.cached, i)
  {
    hide LiveInv, Lists, HugeLive, NodesOK, RegionsOK, ChunksOK, HomeOK, RingOK, Encode, Decode;
    assert CachedAt(s.ln, s.cached, s.key, i);
    DecodeEncode(s.key, s.cached[i] + SHADOW_OFFSET, NextOf(s.cached, i));
  }

  /** Read off the invariant: the check on a free-list link passes on every free element. */
  lemma SlotChecks(s: State, b: nat, i: nat)
    requires Sound(s) && b < BINS && |s.slots| == BINS && i < |s.slots[b]|
    ensures var a := s.slots[b][i]; var next := NextOf(s.slots[b], i);
      && LinkOK(s.mem, s.key, a, BinSize(b), next) && LoadPtr(s.mem, a) == next
      && (next != 0 ==> Decode(s.key, a + BinSize(b) - 8, Load(s.mem, a + BinSize(b) - 8)) == next)
  {
    hide LiveInv, HugeLive, NodesOK, RegionsOK, ChunksOK, LinksOK, BinSize, Encode, Decode, Load, Value;
    assert Chain(s.mem, s.key, BinSize(b), s.slots[b]);
    var a, next := s.slots[b][i], NextOf(s.slots[b], i);
    assert LinkOK(s.mem, s.key, a, BinSize(b), next);
    if next != 0 { CheckPasses(s.mem, s.key, a, BinSize(b), next); }
  }
}
