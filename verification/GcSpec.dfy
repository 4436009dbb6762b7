/** What one run of the collector does, said without counters: it depends only on which
    small runs have all their elements on a free list. */
module GcSpec {
  import opened Sizes
  import opened Pages
  import opened Memory
  import opened Blocks
  import opened Counting

  /** `list` without the elements of idle runs, in the same order. */
  ghost function WithoutIdle(pg: map<int, Pages>, slots: Slots, list: seq<int>): (r: seq<int>)
    ensures |r| <= |list|
  {
    if list == [] then []
    else
      WithoutIdle(pg, slots, list[..|list| - 1]) +
      (if Idle(pg, slots, list[|list| - 1]) then [] else [list[|list| - 1]])
  }

  /** Page `q` of chunk `c` lies in an idle run. */
  ghost predicate IdlePage(pg: map<int, Pages>, slots: Slots, c: int, q: int)
    requires c in pg && 0 <= q < |pg[c].own|
  {
    1 <= pg[c].own[q] && Idle(pg, slots, PageAddr(c, pg[c].own[q]))
  }

  /** Page owners of chunk `c` once the idle runs are gone. */
  ghost function AfterGc(pg: map<int, Pages>, slots: Slots, c: int): (r: seq<int>)
    requires c in pg
    ensures |r| == |pg[c].own|
  {
    seq(|pg[c].own|, q requires 0 <= q < |pg[c].own| => if IdlePage(pg, slots, c, q) then -1 else pg[c].own[q])
  }

  /** Free pages gained in chunk `c`. */
  ghost function GcGain(pg: map<int, Pages>, slots: Slots, c: int): int {
    if c in pg then CountFree(AfterGc(pg, slots, c)) - CountFree(pg[c].own) else 0
  }

  ghost function GcPages(pg: map<int, Pages>, slots: Slots, ring: seq<int>): int {
    if ring == [] then 0
    else GcPages(pg, slots, ring[..|ring| - 1]) + GcGain(pg, slots, ring[|ring| - 1])
  }

  /** The chunk is left with its header page only. */
  ghost predicate Emptied(pg: map<int, Pages>, slots: Slots, c: int) {
    c in pg && CountFree(AfterGc(pg, slots, c)) == PAGES - FIRST_PAGE
  }

  /** The ring without the emptied chunks; the main chunk stays. */
  ghost function KeptRing(pg: map<int, Pages>, slots: Slots, ring: seq<int>): (r: seq<int>)
    ensures ring != [] ==> r != [] && r[0] == ring[0]
    ensures |r| <= |ring|
  {
    if ring == [] then []
    else if |ring| == 1 then ring
    else
      KeptRing(pg, slots, ring[..|ring| - 1]) +
      (if Emptied(pg, slots, ring[|ring| - 1]) then [] else [ring[|ring| - 1]])
  }

  lemma {:induction false} WithoutIdleMembers(pg: map<int, Pages>, slots: Slots, list: seq<int>)
    ensures forall x :: x in WithoutIdle(pg, slots, list) <==> x in list && !Idle(pg, slots, x)
  {
    hide Idle;
    if list != [] {
      var front, last := list[..|list| - 1], list[|list| - 1];
      WithoutIdleMembers(pg, slots, front);
      assert list == front + [last];
    }
  }

  lemma WithoutIdleStep(pg: map<int, Pages>, slots: Slots, list: seq<int>, x: int)
    ensures WithoutIdle(pg, slots, list + [x]) == WithoutIdle(pg, slots, list) + (if Idle(pg, slots, x) then [] else [x])
  {
    hide Idle;
    assert (list + [x])[..|list + [x]| - 1] == list;
  }

  lemma {:induction false} WithoutIdleSame(pg: map<int, Pages>, slots: Slots, list: seq<int>)
    requires forall i :: 0 <= i < |list| ==> !Idle(pg, slots, list[i])
    ensures WithoutIdle(pg, slots, list) == list
  {
    hide Idle;
    if list != [] {
      WithoutIdleSame(pg, slots, list[..|list| - 1]);
    }
  }

  lemma KeptStep(pg: map<int, Pages>, slots: Slots, ring: seq<int>, c: int)
    ensures KeptRing(pg, slots, ring + [c]) ==
      KeptRing(pg, slots, ring) + (if ring != [] && Emptied(pg, slots, c) then [] else [c])
    ensures GcPages(pg, slots, ring + [c]) == GcPages(pg, slots, ring) + GcGain(pg, slots, c)
  {
    hide Emptied, GcGain;
    assert (ring + [c])[..|ring + [c]| - 1] == ring;
  }

  lemma {:induction false} KeptMembers(pg: map<int, Pages>, slots: Slots, ring: seq<int>)
    ensures forall c :: c in KeptRing(pg, slots, ring) ==> c in ring
    ensures forall i :: 0 <= i < |ring| ==> ring[i] in KeptRing(pg, slots, ring) || Emptied(pg, slots, ring[i])
  {
    hide Emptied;
    if |ring| > 1 {
      KeptMembers(pg, slots, ring[..|ring| - 1]);
      assert ring == ring[..|ring| - 1] + [ring[|ring| - 1]];
    }
  }

  // ----- a second run -----

  /** No small run has all its elements free. */
  ghost predicate NoIdle(pg: map<int, Pages>, slots: Slots) {
    forall a :: !Idle(pg, slots, a)
  }

  lemma {:induction false} NothingToCollect(pg: map<int, Pages>, slots: Slots, ring: seq<int>)
    requires NoIdle(pg, slots)
    ensures GcPages(pg, slots, ring) == 0
  {
    hide Idle, CountFree;
    if ring != [] {
      var c := ring[|ring| - 1];
      if c in pg { assert AfterGc(pg, slots, c) == pg[c].own; }
      NothingToCollect(pg, slots, ring[..|ring| - 1]);
    }
  }

  // ----- the counters tell the same -----

  /** The run that starts at page `h` and its first element. */
  lemma RunHead(pg: map<int, Pages>, c: int, h: int)
    requires ChunksWF(pg) && c in pg && RunsOK(pg[c]) && 1 <= h < PAGES && |pg[c].own| == |pg[c].info| == PAGES && pg[c].own[h] == h
    ensures var a := PageAddr(c, h);
      && (pg[c].info[h].SRun? ==> BlockAt(pg, a).Small? && HeadInfo(pg, a) == pg[c].info[h])
      && (!pg[c].info[h].SRun? ==> !BlockAt(pg, a).Small? && !Full(pg[c].info[h]))
  {
    hide CountFree, Continues, BinSize, BinElements, PagesWF;
    assert InOwnRun(pg[c], h);
    AddressParts(c, h * PAGE);
    if pg[c].info[h].SRun? { BinFacts(pg[c].info[h].bin); ElementIs(pg[c].info[h].bin, 0); }
  }

  /** Sweeping with exact counters releases exactly the idle runs. */
  lemma SweptIsAfterGc(pg0: map<int, Pages>, pg: map<int, Pages>, slots: Slots, c: int, r: Pages)
    requires ChunksWF(pg0) && ChunksWF(pg) && CountersOnly(pg0, pg) && Counted(pg, slots) && |slots| == BINS
    requires c in pg && c in pg0 && pg0[c].own == pg[c].own && RunsOK(pg[c]) && SweptTo(pg[c], r, PAGES)
    ensures r.own == AfterGc(pg0, slots, c)
  {
    hide ChunksWF, CountFree, Full, Counted, CountersOnly, Idle, Continues;
    RunsLength(pg[c]);
    HeaderNotFull(pg[c]);
    forall q | 0 <= q < PAGES ensures r.own[q] == AfterGc(pg0, slots, c)[q] {
      var h := pg[c].own[q];
      if 0 <= h {
        assert InOwnRun(pg[c], q);
        if 1 <= h { HeadFull(pg0, pg, slots, c, h); }
      }
    }
  }

  lemma HeaderNotFull(p: Pages)
    requires RunsOK(p)
    ensures !Full(p.info[0])
  {}

  lemma HeadFull(pg0: map<int, Pages>, pg: map<int, Pages>, slots: Slots, c: int, h: int)
    requires ChunksWF(pg0) && ChunksWF(pg) && CountersOnly(pg0, pg) && Counted(pg, slots) && |slots| == BINS
    requires c in pg && RunsOK(pg[c]) && 1 <= h < PAGES && |pg[c].own| == |pg[c].info| == PAGES && pg[c].own[h] == h
    ensures Full(pg[c].info[h]) <==> Idle(pg0, slots, PageAddr(c, h))
  {
    hide ChunksWF, RunsOK, Full, CountedAt, CountersOnly, Idle, BlockAt, HeadInfo;
    var a := PageAddr(c, h);
    RunHead(pg, c, h);
    CountersIdle(pg0, pg, slots, a);
    if pg[c].info[h].SRun? {
      assert CountedAt(pg, slots, a);
      FullIff(pg, slots, a);
    } else {
      NotSmallNotIdle(pg, slots, a);
    }
  }

  lemma NotSmallNotIdle(pg: map<int, Pages>, slots: Slots, a: int)
    requires !BlockAt(pg, a).Small?
    ensures !Idle(pg, slots, a)
  {}

  lemma CountersIdle(pg0: map<int, Pages>, pg: map<int, Pages>, slots: Slots, a: int)
    requires CountersOnly(pg0, pg)
    ensures Idle(pg, slots, a) <==> Idle(pg0, slots, a)
  {
    hide CountersOnly, BlockAt, RunStart;
    CountersSame(pg0, pg, a);
    forall x ensures SameRun(pg, a, x) <==> SameRun(pg0, a, x) {
      CountersSame(pg0, pg, x);
    }
  }

  lemma IdleSameRun(pg: map<int, Pages>, slots: Slots, a: int, x: int)
    requires SameRun(pg, a, x)
    ensures Idle(pg, slots, a) <==> Idle(pg, slots, x)
  {
    hide BlockAt, RunStart;
    assert forall y :: SameRun(pg, a, y) <==> SameRun(pg, x, y);
  }

  // ----- how far the passes over the free lists have come -----

  /** What has been counted: the lists of the classes before `b`, and `j` entries of list `b`. */
  ghost function CountedLists(slots: Slots, b: nat, j: nat): (r: Slots)
    requires |slots| == BINS && (b < BINS ==> j <= |slots[b]|)
    ensures |r| == BINS
  {
    seq(BINS, d requires 0 <= d < BINS => if d < b then slots[d] else if d == b then slots[d][..j] else [])
  }

  /** The lists when those before `b`, and the first `j` entries of list `b`, have been filtered. */
  ghost function FilteredLists(pg: map<int, Pages>, slots: Slots, b: nat, j: nat): (r: Slots)
    requires |slots| == BINS && (b < BINS ==> j <= |slots[b]|)
    ensures |r| == BINS
  {
    seq(BINS, d requires 0 <= d < BINS =>
      if d < b then WithoutIdle(pg, slots, slots[d])
      else if d == b then WithoutIdle(pg, slots, slots[d][..j]) + slots[d][j..]
      else slots[d])
  }

  lemma CountedNext(slots: Slots, b: nat, j: nat)
    requires |slots| == BINS && b < BINS && j < |slots[b]|
    ensures CountedLists(slots, b, j + 1) ==
      CountedLists(slots, b, j)[b := CountedLists(slots, b, j)[b] + [slots[b][j]]]
    ensures CountedLists(slots, b, j)[b] == slots[b][..j]
  {
    assert slots[b][..j + 1] == slots[b][..j] + [slots[b][j]];
  }

  lemma CountedEnd(slots: Slots, b: nat)
    requires |slots| == BINS && b < BINS
    ensures CountedLists(slots, b, |slots[b]|) == CountedLists(slots, b + 1, 0)
  {
    assert slots[b][..|slots[b]|] == slots[b];
    forall d | 0 <= d < BINS ensures CountedLists(slots, b, |slots[b]|)[d] == CountedLists(slots, b + 1, 0)[d] {
    }
  }

  lemma CountedAll(slots: Slots)
    requires |slots| == BINS
    ensures CountedLists(slots, BINS, 0) == slots
  {}

  lemma CountedNone(slots: Slots)
    requires |slots| == BINS
    ensures forall d :: 0 <= d < BINS ==> CountedLists(slots, 0, 0)[d] == []
  {}

  lemma FilteredAt(pg: map<int, Pages>, slots: Slots, b: nat, j: nat)
    requires |slots| == BINS && b < BINS && j <= |slots[b]|
    ensures FilteredLists(pg, slots, b, j)[b] == WithoutIdle(pg, slots, slots[b][..j]) + slots[b][j..]
    ensures forall d :: 0 <= d < BINS && d != b ==>
      FilteredLists(pg, slots, b, j)[d] == if d < b then WithoutIdle(pg, slots, slots[d]) else slots[d]
  {
    hide WithoutIdle;
  }

  lemma FilteredStart(pg: map<int, Pages>, slots: Slots, b: nat)
    requires |slots| == BINS && b < BINS
    ensures FilteredLists(pg, slots, b, 0)[b] == slots[b]
  {
    hide WithoutIdle, FilteredLists;
    FilteredAt(pg, slots, b, 0);
    NoneWithout(pg, slots);
    assert slots[b][..0] == [] && slots[b][0..] == slots[b];
    assert [] + slots[b] == slots[b];
  }

  lemma FilteredNone(pg: map<int, Pages>, slots: Slots)
    requires |slots| == BINS
    ensures FilteredLists(pg, slots, 0, 0) == slots
  {
    hide WithoutIdle, FilteredLists;
    FilteredAt(pg, slots, 0, 0);
    FilteredStart(pg, slots, 0);
    forall d | 0 <= d < BINS ensures FilteredLists(pg, slots, 0, 0)[d] == slots[d] {}
  }

  lemma FilteredNext(pg: map<int, Pages>, slots: Slots, b: nat, j: nat)
    requires |slots| == BINS && b < BINS && j < |slots[b]|
    ensures FilteredLists(pg, slots, b, j)[b] == WithoutIdle(pg, slots, slots[b][..j]) + [slots[b][j]] + slots[b][j + 1..]
    ensures WithoutIdle(pg, slots, slots[b][..j + 1]) ==
      WithoutIdle(pg, slots, slots[b][..j]) + (if Idle(pg, slots, slots[b][j]) then [] else [slots[b][j]])
    ensures FilteredLists(pg, slots, b, j + 1) ==
      if Idle(pg, slots, slots[b][j])
      then FilteredLists(pg, slots, b, j)[b := WithoutIdle(pg, slots, slots[b][..j]) + slots[b][j + 1..]]
      else FilteredLists(pg, slots, b, j)
  {
    hide Idle, WithoutIdle, FilteredLists;
    var f, f2 := FilteredLists(pg, slots, b, j), FilteredLists(pg, slots, b, j + 1);
    var x, k, r := slots[b][j], WithoutIdle(pg, slots, slots[b][..j]), slots[b][j + 1..];
    FilteredAt(pg, slots, b, j);
    FilteredAt(pg, slots, b, j + 1);
    WithoutIdleStep(pg, slots, slots[b][..j], x);
    assert slots[b][..j + 1] == slots[b][..j] + [x];
    assert slots[b][j..] == [x] + r;
    assert k + ([x] + r) == (k + [x]) + r;
    if Idle(pg, slots, x) {
      assert k + [] + r == k + r;
      SameLists(f2, f[b := k + r], b);
    } else {
      SameLists(f2, f, b);
    }
  }

  lemma SameLists(f: Slots, g: Slots, b: nat)
    requires |f| == |g| == BINS && b < BINS && f[b] == g[b]
    requires forall d :: 0 <= d < BINS && d != b ==> f[d] == g[d]
    ensures f == g
  {}

  lemma FilteredEnd(pg: map<int, Pages>, slots: Slots, b: nat)
    requires |slots| == BINS && b < BINS
    ensures FilteredLists(pg, slots, b, |slots[b]|) == FilteredLists(pg, slots, b + 1, 0)
  {
    hide WithoutIdle;
    assert slots[b][..|slots[b]|] == slots[b];
    var f, g := FilteredLists(pg, slots, b, |slots[b]|), FilteredLists(pg, slots, b + 1, 0);
    if b + 1 < BINS {
      assert slots[b + 1][0..] == slots[b + 1];
      assert WithoutIdle(pg, slots, slots[b + 1][..0]) == [] by { NoneWithout(pg, slots); assert slots[b + 1][..0] == []; }
    }
    forall d | 0 <= d < BINS ensures f[d] == g[d] {}
  }

  lemma NoneWithout(pg: map<int, Pages>, slots: Slots)
    ensures WithoutIdle(pg, slots, []) == []
  {}

  /** When no entry of list `b` is idle, the filtering pass has nothing to do. */
  lemma FilteredSame(pg: map<int, Pages>, slots: Slots, b: nat)
    requires |slots| == BINS && b < BINS && (forall i :: 0 <= i < |slots[b]| ==> !Idle(pg, slots, slots[b][i]))
    ensures FilteredLists(pg, slots, b, 0) == FilteredLists(pg, slots, b + 1, 0)
  {
    hide Idle;
    FilteredEnd(pg, slots, b);
    WithoutIdleSame(pg, slots, slots[b]);
    assert slots[b][..|slots[b]|] == slots[b];
    assert FilteredLists(pg, slots, b, |slots[b]|)[b] == slots[b];
    FilteredStart(pg, slots, b);
    forall d | 0 <= d < BINS
      ensures FilteredLists(pg, slots, b, 0)[d] == FilteredLists(pg, slots, b, |slots[b]|)[d] {}
  }
}
