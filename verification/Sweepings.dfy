/** The walk of the collector over the ring, which may shrink while it is walked. */
module Sweepings {
  import opened Sizes
  import opened Pages
  import opened Memory
  import opened Blocks
  import opened Live
  import opened FreeLists
  import opened Chunks
  import opened Rings
  import opened HeapModel
  import opened HeapState
  import opened Counting
  import opened Collecting
  import opened GcSpec

  ghost predicate SweptOne(pg1: map<int, Pages>, pg: map<int, Pages>, c: int) {
    c in pg1 && c in pg && RunsOK(pg1[c]) && SweptTo(pg1[c], pg[c], PAGES)
  }

  ghost predicate SameOne(pg1: map<int, Pages>, pg: map<int, Pages>, c: int) {
    c in pg1 && c in pg && pg[c] == pg1[c]
  }

  /** The chunks that stay of those visited are swept, those to come are as they were. */
  ghost predicate SweptPart(pg1: map<int, Pages>, pg: map<int, Pages>, kept: seq<int>, rest: seq<int>) {
    && (forall i :: 0 <= i < |kept| ==> SweptOne(pg1, pg, kept[i]))
    && (forall i :: 0 <= i < |rest| ==> SameOne(pg1, pg, rest[i]))
    && (forall i :: 1 <= i < |kept| && kept[i] in pg ==> !EmptyChunk(pg[kept[i]]))
  }

  /** The walk from `s1` has visited `done` and is about to visit `rest`. */
  ghost predicate Sweeping(s0: State, s1: State, s: State, done: seq<int>, rest: seq<int>)
    ensures Sweeping(s0, s1, s, done, rest) ==>
      && s.ring == KeptRing(s0.pg, s0.slots, done) + rest
      && s.live == s1.live && s.slots == s1.slots && s.huge == s1.huge && s.key == s1.key
      && SameLive(s1.mem, s.mem, s1.live, 0) && Drained(s.pg, s.slots, s.live)
      && SweptPart(s1.pg, s.pg, KeptRing(s0.pg, s0.slots, done), rest)
  {
    && s1.ring == done + rest
    && s.ring == KeptRing(s0.pg, s0.slots, done) + rest
    && s.live == s1.live && s.slots == s1.slots && s.huge == s1.huge && s.key == s1.key
    && SameLive(s1.mem, s.mem, s1.live, 0) && Drained(s.pg, s.slots, s.live)
    && SweptPart(s1.pg, s.pg, KeptRing(s0.pg, s0.slots, done), rest)
  }

  lemma SweepStart(s0: State, s1: State)
    requires Sound(s1) && Drained(s1.pg, s1.slots, s1.live)
    ensures Sweeping(s0, s1, s1, [], s1.ring)
  {
    hide Sound, Drained, KeptRing;
    RingHeld(s1);
    assert KeptRing(s0.pg, s0.slots, []) == [] by { KeptNone(s0); }
    assert [] + s1.ring == s1.ring;
  }

  lemma KeptNone(s0: State)
    ensures KeptRing(s0.pg, s0.slots, []) == []
  {}

  /** The chunk visited next, before it is swept. */
  lemma AtVisit(s0: State, s1: State, s: State, done: seq<int>, rest: seq<int>)
    requires Sweeping(s0, s1, s, done, rest) && Sound(s) && rest != []
    ensures var k := |KeptRing(s0.pg, s0.slots, done)|; var c := rest[0];
      && k < |s.ring| && s.ring[k] == c && c in s.ring && c in s.pg && c in s1.pg && s.pg[c] == s1.pg[c] && PagesOK(s.pg[c]) && RunsOK(s.pg[c])
      && |s.pg[c].own| == |s.pg[c].info| == PAGES
      && (k == 0 <==> done == []) && c in s.ln
      && s.ln[c].next == (if |rest| > 1 then rest[1] else s.ring[0])
      && (forall i :: 0 <= i < |s.ring| && i != k ==> s.ring[i] != c)
  {
    hide LiveInv, Lists, HugeLive, NodesOK, RegionsOK, Drained, PagesOK, SameLive, HomeOK, CachedOK, KeptRing, SweptTo;
    var kept := KeptRing(s0.pg, s0.slots, done);
    KeptEmpty(s0, done);
    assert s.ring[|kept|] == rest[0];
    assert SameOne(s1.pg, s.pg, rest[0]);
    InRing(s.pg, s.ring, s.cached, rest[0]);
    hide ChunksOK;
    RingMembers(s.ln, s.ring);
    assert Linked(s.ln, s.ring, |kept|);
  }

  lemma KeptEmpty(s0: State, done: seq<int>)
    ensures KeptRing(s0.pg, s0.slots, done) == [] <==> done == []
  {}

  /** Sweeping the chunk at hand. */
  lemma SweepVisit(s0: State, s1: State, s: State, done: seq<int>, rest: seq<int>, r: Pages)
    requires Sweeping(s0, s1, s, done, rest) && Sound(s) && rest != []
    requires rest[0] in s1.pg && RunsOK(s1.pg[rest[0]]) && SweptTo(s1.pg[rest[0]], r, PAGES) && PagesOK(r)
    ensures rest[0] in s.ring && rest[0] in s.pg && s.pg[rest[0]] == s1.pg[rest[0]]
    ensures Sound(s.(pg := s.pg[rest[0] := r]))
    ensures Drained(s.pg[rest[0] := r], s.slots, s.live)
    ensures SweptPart(s1.pg, s.pg[rest[0] := r], KeptRing(s0.pg, s0.slots, done), rest[1..])
    ensures SweptOne(s1.pg, s.pg[rest[0] := r], rest[0])
  {
    hide Sound, Drained, PagesOK, RunsOK, SameLive, KeptRing, SweptTo, Sweeping, EmptyChunk;
    AtVisit(s0, s1, s, done, rest);
    SweepSound(s, rest[0], r);
    var c, kept, pg2 := rest[0], KeptRing(s0.pg, s0.slots, done), s.pg[rest[0] := r];
    forall i | 0 <= i < |kept| ensures SweptOne(s1.pg, pg2, kept[i]) && pg2[kept[i]] == s.pg[kept[i]] {
      assert s.ring[i] == kept[i];
      assert SweptOne(s1.pg, s.pg, kept[i]);
    }
    forall i | 0 <= i < |rest[1..]| ensures SameOne(s1.pg, pg2, rest[1..][i]) {
      assert s.ring[|kept| + 1 + i] == rest[i + 1];
      assert SameOne(s1.pg, s.pg, rest[i + 1]);
    }
  }

  /** A swept chunk that is not emptied, or is the main one, stays. */
  lemma SweepKeep(s0: State, s1: State, s: State, done: seq<int>, rest: seq<int>, r: Pages)
    requires Sweeping(s0, s1, s, done, rest) && Sound(s) && rest != []
    requires rest[0] in s1.pg && RunsOK(s1.pg[rest[0]]) && SweptTo(s1.pg[rest[0]], r, PAGES) && PagesOK(r)
    requires EmptyChunk(r) <==> Emptied(s0.pg, s0.slots, rest[0])
    requires done == [] || !EmptyChunk(r)
    ensures Sweeping(s0, s1, s.(pg := s.pg[rest[0] := r]), done + [rest[0]], rest[1..])
  {
    hide Sound, Drained, PagesOK, RunsOK, SameLive, KeptRing, SweptTo, EmptyChunk, Emptied, SweptPart;
    SweepVisit(s0, s1, s, done, rest, r);
    KeptStep(s0.pg, s0.slots, done, rest[0]);
    KeptEmpty(s0, done);
    var kept := KeptRing(s0.pg, s0.slots, done);
    assert done + rest == (done + [rest[0]]) + rest[1..];
    assert kept + rest == (kept + [rest[0]]) + rest[1..];
    KeepPart(s1.pg, s.pg[rest[0] := r], kept, rest[0], rest[1..]);
  }

  lemma KeepPart(pg1: map<int, Pages>, pg: map<int, Pages>, kept: seq<int>, c: int, rest: seq<int>)
    requires SweptPart(pg1, pg, kept, rest) && SweptOne(pg1, pg, c)
    requires kept == [] || !EmptyChunk(pg[c])
    ensures SweptPart(pg1, pg, kept + [c], rest)
  {
    hide SweptOne, SameOne, EmptyChunk;
  }

  /** An emptied chunk leaves; `u` is the state after it has been deleted. */
  lemma SweepDrop(s0: State, s1: State, s: State, done: seq<int>, rest: seq<int>, r: Pages, u: State)
    requires Sweeping(s0, s1, s, done, rest) && Sound(s) && rest != [] && done != []
    requires rest[0] in s1.pg && RunsOK(s1.pg[rest[0]]) && SweptTo(s1.pg[rest[0]], r, PAGES) && PagesOK(r)
    requires EmptyChunk(r) && Emptied(s0.pg, s0.slots, rest[0])
    requires |KeptRing(s0.pg, s0.slots, done)| < |s.ring|
    requires SameActive(DropActive(s.(pg := s.pg[rest[0] := r]), |KeptRing(s0.pg, s0.slots, done)|), u) && Sound(u)
    ensures Sweeping(s0, s1, u, done + [rest[0]], rest[1..])
  {
    hide Sound, Drained, PagesOK, RunsOK, SameLive, KeptRing, SweptTo, EmptyChunk, Emptied, SweptPart, SameActive;
    SweepVisit(s0, s1, s, done, rest, r);
    KeptStep(s0.pg, s0.slots, done, rest[0]);
    KeptEmpty(s0, done);
    var c, kept := rest[0], KeptRing(s0.pg, s0.slots, done);
    var t := s.(pg := s.pg[c := r]);
    var d := DropActive(t, |kept|);
    assert done + rest == (done + [c]) + rest[1..];
    assert WithoutAt(kept + rest, |kept|) == kept + rest[1..];
    assert u.ring == kept + rest[1..];
    assert KeptRing(s0.pg, s0.slots, done + [c]) == kept by { assert kept + [] == kept; }
    DroppedDrained(t, d, u, |kept|);
    DroppedBytes(s1, s, d, u);
    DropPart(s1.pg, t.pg, u.pg, kept, rest[1..], d, u);
  }

  lemma DroppedBytes(s1: State, s: State, d: State, u: State)
    requires SameLive(s1.mem, s.mem, s1.live, 0) && d.mem == s.mem && d.live == s1.live && SameActive(d, u)
    ensures SameLive(s1.mem, u.mem, s1.live, 0)
  {
    hide Quiet, SameBytes;
    forall x | x in s1.live && x != 0 ensures SameBytes(s1.mem, u.mem, x, Usable(s1.live[x])) {
      SameBytesChain(s1.mem, s.mem, u.mem, x, Usable(s1.live[x]));
    }
  }

  lemma DropPart(pg1: map<int, Pages>, pg: map<int, Pages>, pgu: map<int, Pages>, kept: seq<int>, rest: seq<int>, d: State, u: State)
    requires SweptPart(pg1, pg, kept, rest) && SameActive(d, u) && d.ring == kept + rest && u.pg == pgu
    requires forall x :: x in d.pg ==> x in pg && d.pg[x] == pg[x]
    ensures SweptPart(pg1, pgu, kept, rest)
  {
    hide Quiet, SameLive, RunsOK, SweptTo, EmptyChunk;
    forall i | 0 <= i < |kept| ensures SweptOne(pg1, pgu, kept[i]) && pgu[kept[i]] == pg[kept[i]] {
      assert d.ring[i] == kept[i];
      assert SweptOne(pg1, pg, kept[i]);
    }
    forall i | 0 <= i < |rest| ensures SameOne(pg1, pgu, rest[i]) {
      assert d.ring[|kept| + i] == rest[i];
      assert SameOne(pg1, pg, rest[i]);
    }
  }

  /** The blocks that remain are in active chunks, whose pages have not changed. */
  lemma DroppedDrained(t: State, d: State, u: State, k: nat)
    requires k < |t.ring| && Drained(t.pg, t.slots, t.live) && d == DropActive(t, k) && SameActive(d, u) && Sound(u)
    ensures Drained(u.pg, u.slots, u.live)
  {
    hide LiveInv, Lists, HugeLive, NodesOK, RegionsOK, LinksOK, ChunksOK, BlockIn, HeadIn, Full, Quiet, SameLive, Unlink;
    forall a | BlockAt(u.pg, a).Small? && Full(HeadInfo(u.pg, a))
      ensures a !in u.live && BlockAt(u.pg, a).bin < |u.slots| && a !in u.slots[BlockAt(u.pg, a).bin]
    {
      BlockInRing(u.pg, u.ring, u.cached, a);
      assert u.pg[Base(a)] == t.pg[Base(a)];
      assert BlockAt(t.pg, a) == BlockAt(u.pg, a) && HeadInfo(t.pg, a) == HeadInfo(u.pg, a);
    }
  }
}
