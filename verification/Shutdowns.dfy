/** The reset of the heap at the end of a request: every block is gone, the main chunk is
    empty, some chunks are kept in the cache under a new key. */
module Shutdowns {
  import opened Sizes
  import opened Pages
  import opened Memory
  import opened Blocks
  import opened Live
  import opened FreeLists
  import opened Chunks
  import opened Rings
  import opened HeapModel
  import opened HeapState
  import opened HugeSteps
  import opened HeaderTable
  import opened Collecting
  import opened Collectors
  import opened Heaps
  import opened PageAllocs
  import opened HeapCalls
  import opened FreeCalls
  import opened Writes
  import opened Rekeying

  // ----- the huge blocks are unmapped -----

  /** Of the huge blocks of `s` the first `k` have been unmapped, and nothing else. */
  ghost predicate HugeLeft(s: State, m: Mem, k: nat) {
    && m.Keys <= s.mem.Keys
    && (forall c :: c in s.pg ==> SameBytes(s.mem, m, c, CHUNK))
    && (forall j :: k <= j < |s.huge| ==> Mapped(m, s.huge[j].ptr, s.huge[j].size))
    && (forall j :: 0 <= j < k && j < |s.huge| ==> Unmapped(m, s.huge[j].ptr, s.huge[j].size))
  }

  ghost predicate Unmapped(m: Mem, a: int, n: int) {
    forall x :: a <= x < a + n ==> x !in m
  }

  lemma HugeLeftStart(s: State)
    requires Sound(s)
    ensures HugeLeft(s, s.mem, 0)
  {
    hide LiveInv, Lists, HugeLive, NodesOK, LinksOK, ChunksOK;
    forall j | 0 <= j < |s.huge| ensures Mapped(s.mem, s.huge[j].ptr, s.huge[j].size) { assert HugeRegion(s.mem, s.huge[j]); }
  }

  lemma HugeLeftStep(s: State, m: Mem, k: nat)
    requires Sound(s) && HugeLeft(s, m, k) && k < |s.huge|
    ensures Mapped(m, s.huge[k].ptr, s.huge[k].size)
    ensures HugeLeft(s, RemoveRegion(m, s.huge[k].ptr, s.huge[k].size), k + 1)
  {
    hide LiveInv, Lists, HugeLive, NodesOK, LinksOK, ChunksOK, HugeRegion;
    var r, m2 := s.huge[k], RemoveRegion(m, s.huge[k].ptr, s.huge[k].size);
    forall c | c in s.pg ensures SameBytes(s.mem, m2, c, CHUNK) {
      assert Apart(r.ptr, r.size, c, CHUNK);
    }
    forall j | k + 1 <= j < |s.huge| ensures Mapped(m2, s.huge[j].ptr, s.huge[j].size) {
      assert Apart(s.huge[k].ptr, s.huge[k].size, s.huge[j].ptr, s.huge[j].size);
    }
  }

  /** List nodes lie in chunks, so they outlive the blocks they record. */
  lemma NodeFieldsLeft(s: State, m: Mem, k: nat, i: nat)
    requires Sound(s) && HugeLeft(s, m, k) && i < |s.huge|
    ensures var a := s.huge[i].node;
      && 0 < a && Mapped(m, a, 8) && Mapped(m, a + 8, 8) && Mapped(m, a + 16, 8)
      && LoadPtr(m, a) == s.huge[i].ptr && LoadPtr(m, a + 8) == s.huge[i].size
      && LoadPtr(m, a + 16) == FirstNode(s.huge[i + 1..])
  {
    hide Sound, HugeLeft, LoadPtr, Mapped, SameBytes, HugeRegion, NodeOK;
    NodeFacts(s, i);
    NodeInChunk(s, i);
    var a := s.huge[i].node;
    assert SameBytes(s.mem, m, a, NODE_SIZE) by { PartOfChunk(s, m, k, Base(a), a, NODE_SIZE); }
    NodeKept(s.mem, m, s.huge[i], FirstNode(s.huge[i + 1..]));
    NodeIs(m, s.huge[i], FirstNode(s.huge[i + 1..]));
  }

  lemma NodeIs(m: Mem, h: HugeRec, next: int)
    requires NodeOK(m, h, next)
    ensures 0 < h.node && Mapped(m, h.node, 8) && Mapped(m, h.node + 8, 8) && Mapped(m, h.node + 16, 8)
    ensures LoadPtr(m, h.node) == h.ptr && LoadPtr(m, h.node + 8) == h.size && LoadPtr(m, h.node + 16) == next
  {
    hide LoadPtr;
  }

  lemma PartOfChunk(s: State, m: Mem, k: nat, c: int, a: int, n: int)
    requires HugeLeft(s, m, k) && c in s.pg && c <= a && a + n <= c + CHUNK
    ensures SameBytes(s.mem, m, a, n)
  {
    assert SameBytes(s.mem, m, c, CHUNK);
  }

  lemma NodeInChunk(s: State, i: nat)
    requires Sound(s) && i < |s.huge|
    ensures var a := s.huge[i].node; Base(a) in s.pg && Base(a) <= a && a + NODE_SIZE <= Base(a) + CHUNK
  {
    hide Sound, ChunksWF, BlockAt, Mapped, HugeRegion, NodeOK;
    NodeFacts(s, i);
    ChunkBlock(s, s.huge[i].node);
    NodeSize();
    SmallUsable(NODE_BIN);
  }

  method FreeHugeList(h: Heap)
    requires h.Ready() && h.floating == 0
    modifies h`mem, h`hugeList
    ensures h.hugeList == 0 && Clear(h.reserved, h.mem) && HugeLeft(h.s, h.mem, |h.s.huge|)
  {
    hide Sound, Headers.Valid, Clear, Heap.Heads, Heap.Account, Settled, SumHuge, HugeLeft, LoadPtr, Mapped, RemoveRegion;
    ghost var s, k := h.s, 0;
    var realSize := h.realSize;
    NodeHead(h);
    HugeLeftStart(s);
    assert s.huge[0..] == s.huge;
    forall i | 0 <= i < |s.huge| ensures s.huge[i].size != 0 && s.huge[i].size % PAGE == 0 && s.huge[i].size <= h.realSize {
      SizeChecked(h, i);
    }
    var list := h.hugeList;
    h.hugeList := 0;
    while list != 0
      invariant 0 <= k <= |s.huge| && list == FirstNode(s.huge[k..]) && h.hugeList == 0
      invariant HugeLeft(s, h.mem, k) && Clear(h.reserved, h.mem)
      decreases |s.huge| - k
    {
      var q := list;
      NodeFieldsLeft(s, h.mem, k, k);
      NodeFirst(s, k);
      list := LoadPtr(h.mem, q + 16);
      var size := LoadPtr(h.mem, q + 8);
      assert size != 0 && size % PAGE == 0 && size <= realSize;   // ZEND_MM_CHECK
      HugeLeftStep(s, h.mem, k);
      h.OsFree(LoadPtr(h.mem, q), size);
      k := k + 1;
    }
    LastNode(s, k);
  }

  lemma NodeFirst(s: State, k: nat)
    requires k < |s.huge|
    ensures FirstNode(s.huge[k..]) == s.huge[k].node
  {}

  lemma LastNode(s: State, k: nat)
    requires Sound(s) && k <= |s.huge| && FirstNode(s.huge[k..]) == 0
    ensures k == |s.huge|
  {
    hide Sound;
    if k < |s.huge| { NodeAt(s, k); }
  }

  // ----- every chunk but the main one joins the cache -----

  /** The cached list after chunks 1 to `k - 1` of the ring have been put before it. */
  ghost function Pushed(ring: seq<int>, cached: seq<int>, k: nat): (r: seq<int>)
    requires 1 <= k <= |ring|
    ensures |r| == k - 1 + |cached|
  {
    if k == 1 then cached else [ring[k - 1]] + Pushed(ring, cached, k - 1)
  }

  /** The chunks of the ring come first, last one first, then what was cached before. */
  lemma {:induction false} PushedAt(ring: seq<int>, cached: seq<int>, k: nat, i: nat)
    requires 1 <= k <= |ring| && i < k - 1 + |cached|
    ensures Pushed(ring, cached, k)[i] == if i < k - 1 then ring[k - 1 - i] else cached[i - (k - 1)]
  {
    if k > 1 && i > 0 { PushedAt(ring, cached, k - 1, i - 1); }
  }

  lemma {:induction false} PushedMembers(ring: seq<int>, cached: seq<int>, k: nat)
    requires 1 <= k <= |ring|
    ensures forall c :: c in Pushed(ring, cached, k) <==> c in cached || c in ring[1..k]
  {
    if k > 1 {
      PushedMembers(ring, cached, k - 1);
      assert ring[1..k] == ring[1..k - 1] + [ring[k - 1]];
    }
  }

  /** Chunks from `k` on, and the main chunk, still have their old links. */
  ghost predicate RestLinks(s: State, ln: map<int, Links>, k: nat) {
    && ln.Keys == s.ln.Keys
    && (forall i :: 0 <= i < |s.ring| && (i == 0 || k <= i) ==> s.ring[i] in ln && s.ring[i] in s.ln && ln[s.ring[i]] == s.ln[s.ring[i]])
  }

  lemma RestStart(s: State)
    requires Sound(s)
    ensures RestLinks(s, s.ln, 1) && CachedOK(s.ln, s.cached, s.key) && |s.ring| > 0
  {
    hide LiveInv, Lists, HugeLive, NodesOK, RegionsOK, RingOK, HomeOK, CachedOK, ChunksOK;
    RingMembers(s.ln, s.ring);
  }

  lemma RestNext(s: State, ln: map<int, Links>, k: nat, i: nat)
    requires Sound(s) && RestLinks(s, ln, k) && i < |s.ring| && (i == 0 || k <= i)
    ensures s.ring[i] in ln && ln[s.ring[i]].next == After(s.ring, i)
    ensures forall j :: 0 <= j < |s.ring| && j != i ==> s.ring[j] != s.ring[i]
  {
    hide LiveInv, Lists, HugeLive, NodesOK, RegionsOK, HomeOK, CachedOK, ChunksOK;
    assert Linked(s.ln, s.ring, i);
  }

  /** One more chunk is pushed. */
  lemma PushStep(s: State, ln: map<int, Links>, k: nat)
    requires Sound(s) && 1 <= k < |s.ring| && RestLinks(s, ln, k) && CachedOK(ln, Pushed(s.ring, s.cached, k), s.key)
    ensures 0 < s.ring[k] && 0 <= First(Pushed(s.ring, s.cached, k))
    ensures var l2 := ln[s.ring[k] := CachedLink(ln[s.ring[k]], s.key, s.ring[k], First(Pushed(s.ring, s.cached, k)))];
      RestLinks(s, l2, k + 1) && CachedOK(l2, Pushed(s.ring, s.cached, k + 1), s.key)
  {
    hide Sound, CachedOK, Encode, Pushed;
    var c, old_ := s.ring[k], Pushed(s.ring, s.cached, k);
    RestNext(s, ln, k, k);
    PushedAddress(s, k);
    PushedFresh(s, k);
    CachedMembers(ln, old_, s.key);
    var v := CachedLink(ln[c], s.key, c, First(old_));
    var l2 := ln[c := v];
    CachedPush(ln, l2, old_, s.key, c);
    assert Pushed(s.ring, s.cached, k + 1) == [c] + old_ by { PushedIs(s.ring, s.cached, k); }
    assert l2.Keys == ln.Keys;
  }

  lemma PushedIs(ring: seq<int>, cached: seq<int>, k: nat)
    requires 1 <= k < |ring|
    ensures Pushed(ring, cached, k + 1) == [ring[k]] + Pushed(ring, cached, k)
  {}

  lemma PushedAddress(s: State, k: nat)
    requires Sound(s) && 1 <= k < |s.ring|
    ensures 0 < s.ring[k] && IsAddress(First(Pushed(s.ring, s.cached, k)))
  {
    hide LiveInv, Lists, HugeLive, NodesOK, RegionsOK, LinksOK, PagesOK, Blank;
    assert s.ring[k] in s.pg && ChunkBase(s.ring[k]);
    FirstCachedAddress(s);
    if k > 1 {
      assert s.ring[k - 1] in s.pg && ChunkBase(s.ring[k - 1]);
      PushedIs(s.ring, s.cached, k - 1);
      assert First(Pushed(s.ring, s.cached, k)) == s.ring[k - 1];
    } else {
      PushedNone(s);
    }
  }

  lemma PushedFresh(s: State, k: nat)
    requires Sound(s) && 1 <= k < |s.ring|
    ensures s.ring[k] !in Pushed(s.ring, s.cached, k)
  {
    hide Sound, Pushed;
    PushedMembers(s.ring, s.cached, k);
    RingNotCached(s);
    RingDistinct(s);
    var r := s.ring[1..k];
    var c := s.ring[k];
    forall i | 0 <= i < |r| ensures r[i] != c { assert r[i] == s.ring[i + 1]; }
    assert c !in r;
    assert c !in s.cached;
    assert c in Pushed(s.ring, s.cached, k) <==> c in s.cached || c in s.ring[1..k];
  }

  method CacheRing(h: Heap)
    requires h.hm.Valid() && h !in h.hm.objs && h.hm.ln == h.s.ln && Sound(h.s) && h.shadowKey == h.s.key
    requires h.mainChunk == First(h.s.ring) && h.cachedChunks == First(h.s.cached)
    requires h.chunksCount == |h.s.ring| && h.cachedChunksCount == |h.s.cached|
    modifies h`cachedChunks, h`chunksCount, h`cachedChunksCount, h.hm.objs, h.hm`ln
    ensures h.hm.Valid() && h.hm.objs == old(h.hm.objs) && |h.s.ring| > 0 && h.hm.ln.Keys == old(h.hm.ln).Keys
    ensures CachedOK(h.hm.ln, Pushed(h.s.ring, h.s.cached, |h.s.ring|), h.s.key)
    ensures h.cachedChunks == First(Pushed(h.s.ring, h.s.cached, |h.s.ring|))
    ensures h.cachedChunksCount == |Pushed(h.s.ring, h.s.cached, |h.s.ring|)|
  {
    hide Sound, Headers.Valid, CachedOK, CachedLink, RestLinks, Pushed, Encode, TailOf, Clear;
    ghost var s := h.s;
    RestStart(s);
    RestNext(s, h.hm.ln, 1, 0);
    PushedNone(s);
    ghost var k := 1;
    var p := h.hm.Get(h.mainChunk).next;
    while p != h.mainChunk
      invariant h.hm.Valid() && h.hm.objs == old(h.hm.objs) && 1 <= k <= |s.ring| && h.mainChunk == s.ring[0]
      invariant p == (if k < |s.ring| then s.ring[k] else s.ring[0])
      invariant RestLinks(s, h.hm.ln, k) && CachedOK(h.hm.ln, Pushed(s.ring, s.cached, k), s.key)
      invariant h.cachedChunks == First(Pushed(s.ring, s.cached, k)) && h.cachedChunksCount == k - 1 + |s.cached|
      decreases |s.ring| - k
    {
      RestNext(s, h.hm.ln, k, k);
      var q := h.hm.Get(p).next;
      PushStep(s, h.hm.ln, k);
      PushedIs(s.ring, s.cached, k);
      h.SetNextCached(p, h.cachedChunks);
      h.cachedChunks := p;
      p := q;
      h.chunksCount := h.chunksCount - 1;
      h.cachedChunksCount := h.cachedChunksCount + 1;
      k := k + 1;
    }
    MainOnlyOnce(s, k);
    RestKeys(s, h.hm.ln, k);
  }

  lemma PushedNone(s: State)
    requires |s.ring| > 0
    ensures Pushed(s.ring, s.cached, 1) == s.cached
  {}

  lemma RestKeys(s: State, ln: map<int, Links>, k: nat)
    requires RestLinks(s, ln, k)
    ensures ln.Keys == s.ln.Keys
  {}

  lemma MainOnlyOnce(s: State, k: nat)
    requires Sound(s) && 1 <= k <= |s.ring| && s.ring[0] == (if k < |s.ring| then s.ring[k] else s.ring[0])
    ensures k == |s.ring|
  {
    hide Sound;
    RingDistinct(s);
  }

  // ----- part of the cache is given back, the rest is cleared -----

  /** The chunks are the main one and the cached ones; what their pages say does not matter. */
  ghost predicate Shell(pg: map<int, Pages>, ln: map<int, Links>, mem: Mem, main: int, cached: seq<int>, key: Word8) {
    && pg.Keys == ln.Keys && main in pg && main !in cached
    && (forall c :: c in pg ==> ChunkBase(c) && Mapped(mem, c, CHUNK) && (c == main || c in cached))
    && (forall i :: 0 <= i < |cached| ==> cached[i] in pg)
    && CachedOK(ln, cached, key)
  }

  lemma ShellStart(s: State, m: Mem, ln: map<int, Links>, cached: seq<int>)
    requires Sound(s) && |s.ring| > 0 && cached == Pushed(s.ring, s.cached, |s.ring|)
    requires HugeLeft(s, m, |s.huge|) && ln.Keys == s.ln.Keys && CachedOK(ln, cached, s.key)
    ensures Shell(s.pg, ln, m, s.ring[0], cached, s.key)
  {
    hide LiveInv, Lists, HugeLive, NodesOK, RingOK, HomeOK, CachedOK, PagesOK, Blank, HugeRegion, Pushed;
    PushedMembers(s.ring, s.cached, |s.ring|);
    MainNotPushed(s);
    forall c | c in s.pg ensures ChunkBase(c) && Mapped(m, c, CHUNK) && (c == s.ring[0] || c in cached) {
      assert SameBytes(s.mem, m, c, CHUNK) && Mapped(s.mem, c, CHUNK);
      StillMapped(s.mem, m, c);
      RingSplit(s.ring, c);
    }
    forall i | 0 <= i < |cached| ensures cached[i] in s.pg {
      assert cached[i] in cached;
      PushedInPg(s, cached[i]);
    }
  }

  lemma StillMapped(m: Mem, m2: Mem, c: int)
    requires SameBytes(m, m2, c, CHUNK) && Mapped(m, c, CHUNK)
    ensures Mapped(m2, c, CHUNK)
  {}

  lemma RingSplit(r: seq<int>, c: int)
    requires |r| > 0
    ensures c in r ==> c == r[0] || c in r[1..|r|]
  {
    assert r == [r[0]] + r[1..];
    assert r[1..|r|] == r[1..];
  }

  lemma PushedInPg(s: State, c: int)
    requires Sound(s) && |s.ring| > 0 && (c in s.cached || c in s.ring[1..|s.ring|])
    ensures c in s.pg
  {
    hide LiveInv, Lists, HugeLive, NodesOK, RegionsOK, LinksOK, PagesOK, Blank;
    if c in s.ring[1..|s.ring|] { assert c in s.ring; }
  }

  lemma MainNotPushed(s: State)
    requires Sound(s) && |s.ring| > 0
    ensures s.ring[0] !in s.cached && s.ring[0] !in s.ring[1..|s.ring|]
  {
    hide Sound;
    RingNotCached(s);
    RingDistinct(s);
    var r := s.ring[1..|s.ring|];
    forall i | 0 <= i < |r| ensures r[i] != s.ring[0] { assert r[i] == s.ring[i + 1]; }
  }

  lemma ShellPop(pg: map<int, Pages>, ln: map<int, Links>, mem: Mem, main: int, cached: seq<int>, key: Word8)
    requires Shell(pg, ln, mem, main, cached, key) && cached != []
    ensures var c := cached[0];
      && c in pg && c in ln && 0 < c && Mapped(mem, c, CHUNK) && ln[c].next == First(cached[1..]) && ln[c].next % CHUNK == 0
      && CachedAt(ln, cached, key, 0) && NextOf(cached, 0) == First(cached[1..])
      && Shell(pg - {c}, ln - {c}, RemoveRegion(mem, c, CHUNK), main, cached[1..], key)
  {
    hide CachedOK, Decode, Encode;
    var c, rest := cached[0], cached[1..];
    CachedTail(ln, cached, key);
    CachedMembers(ln, cached, key);
    DropFirst(cached, ln, key);
    assert ChunkBase(c);
    if rest != [] { assert rest[0] == cached[1] && ChunkBase(cached[1]); }
    assert c !in rest;
    forall i | 0 <= i < |rest| ensures rest[i] in ln && rest[i] != c { assert rest[i] == cached[i + 1]; assert rest[i] in rest; }
    CachedSame(ln, ln - {c}, rest, key);
    assert (pg - {c}).Keys == pg.Keys - {c} && (ln - {c}).Keys == ln.Keys - {c};
    forall d | d in pg - {c} ensures ChunkBase(d) && Mapped(RemoveRegion(mem, c, CHUNK), d, CHUNK) && (d == main || d in rest) {
      assert d in cached ==> d in rest by { assert cached == [c] + rest; }
      MappedApart(mem, c, d);
    }
  }

  lemma MappedApart(mem: Mem, c: int, d: int)
    requires Mapped(mem, d, CHUNK) && c % CHUNK == 0 && d % CHUNK == 0 && c != d
    ensures Mapped(RemoveRegion(mem, c, CHUNK), d, CHUNK)
  {}

  /** Of the spare chunks `all` those of `kept` are kept: a tail, not longer than the average,
      and not shorter than needed for that. */
  ghost predicate Trimmed(kept: seq<int>, all: seq<int>, avg: real) {
    && TailOf(kept, all)
    && (kept == [] || |kept| as real + 0.9 <= avg)
    && (kept == all || |kept| as real + 1.9 > avg)
  }

  /** The first cached chunk goes back. */
  method TrimFirst(h: Heap, ghost rest: seq<int>)
    requires h.hm.Valid() && h !in h.hm.objs && Clear(h.reserved, h.mem) && rest != []
    requires Shell(h.hm.pg, h.hm.ln, h.mem, h.mainChunk, rest, h.shadowKey)
    requires h.cachedChunks == First(rest)
    modifies h`mem, h`cachedChunks, h`cachedChunksCount, h.hm
    ensures h.hm.Valid() && h.hm.objs == old(h.hm.objs) && Clear(h.reserved, h.mem)
    ensures Shell(h.hm.pg, h.hm.ln, h.mem, h.mainChunk, rest[1..], h.shadowKey)
    ensures h.cachedChunks == First(rest[1..]) && h.cachedChunksCount == old(h.cachedChunksCount) - 1
  {
    hide Headers.Valid, Clear, Shell, Decode, RemoveRegion;
    var p := h.cachedChunks;
    ShellPop(h.hm.pg, h.hm.ln, h.mem, h.mainChunk, rest, h.shadowKey);
    h.cachedChunks := h.GetNextCached(p, h.shadowKey, rest, 0);
    h.hm.Remove(p);
    h.OsFree(p, CHUNK);
    h.cachedChunksCount := h.cachedChunksCount - 1;
  }

  /** Give back cached chunks beyond the average, as few as needed. */
  method TrimShell(h: Heap, ghost cached: seq<int>) returns (ghost rest: seq<int>)
    requires h.hm.Valid() && h !in h.hm.objs && Clear(h.reserved, h.mem)
    requires Shell(h.hm.pg, h.hm.ln, h.mem, h.mainChunk, cached, h.shadowKey)
    requires h.cachedChunks == First(cached) && h.cachedChunksCount == |cached|
    modifies h`mem, h`cachedChunks, h`cachedChunksCount, h.hm
    ensures h.hm.Valid() && h.hm.objs == old(h.hm.objs) && Clear(h.reserved, h.mem) && |rest| <= |cached|
    ensures Shell(h.hm.pg, h.hm.ln, h.mem, h.mainChunk, rest, h.shadowKey)
    ensures h.cachedChunks == First(rest) && h.cachedChunksCount == |rest|
    ensures Trimmed(rest, cached, h.avgChunksCount)
  {
    hide Headers.Valid, Clear, Shell, Decode, RemoveRegion;
    rest := cached;
    ShellFirst(h.hm.pg, h.hm.ln, h.mem, h.mainChunk, rest, h.shadowKey);
    while h.cachedChunksCount as real + 0.9 > h.avgChunksCount && h.cachedChunks != 0
      invariant h.hm.Valid() && h.hm.objs == old(h.hm.objs) && Clear(h.reserved, h.mem) && |rest| <= |cached|
      invariant Shell(h.hm.pg, h.hm.ln, h.mem, h.mainChunk, rest, h.shadowKey)
      invariant h.cachedChunks == First(rest) && h.cachedChunksCount == |rest| && (h.cachedChunks == 0 <==> rest == [])
      invariant TailOf(rest, cached) && (rest == cached || |rest| as real + 1.9 > h.avgChunksCount)
      decreases |rest|
    {
      TrimFirst(h, rest);
      rest := rest[1..];
      ShellFirst(h.hm.pg, h.hm.ln, h.mem, h.mainChunk, rest, h.shadowKey);
    }
  }

  lemma ShellFirst(pg: map<int, Pages>, ln: map<int, Links>, mem: Mem, main: int, cached: seq<int>, key: Word8)
    requires Shell(pg, ln, mem, main, cached, key)
    ensures First(cached) == 0 <==> cached == []
  {
    hide CachedOK;
    if cached != [] { assert ChunkBase(cached[0]); }
  }

  // ----- clearing the cached headers -----

  function ZeroLinks(): Links {
    Links(0, 0, [0, 0, 0, 0, 0, 0, 0, 0], 0, 0)
  }

  /** Apart from its link the header is all zero. */
  ghost predicate Zeroed(pg: map<int, Pages>, ln: map<int, Links>, c: int) {
    c in pg && c in ln && pg[c] == ZeroPages() && ln[c].prev == 0 && ln[c].heap == 0 && ln[c].num == 0
  }

  ghost predicate ZeroedTo(pg: map<int, Pages>, ln: map<int, Links>, cached: seq<int>, k: int) {
    forall i :: 0 <= i < k && i < |cached| ==> Zeroed(pg, ln, cached[i])
  }

  /** memset over the header. */
  method ZeroHeader(h: Heap, c: int)
    requires h.hm.Valid() && h !in h.hm.objs && c in h.hm.ln && c in h.hm.pg
    modifies h.hm.objs, h.hm`ln, h.hm`pg
    ensures h.hm.Valid() && h.hm.objs == old(h.hm.objs)
    ensures h.hm.pg == old(h.hm.pg)[c := ZeroPages()] && h.hm.ln == old(h.hm.ln)[c := ZeroLinks()]
  {
    hide Headers.Valid, ZeroPages;
    ghost var l := h.hm.ln;
    h.hm.ClearPages(c);
    h.hm.SetNext(c, 0);
    h.hm.SetPrev(c, 0);
    h.hm.SetShadow(c, [0, 0, 0, 0, 0, 0, 0, 0]);
    h.hm.SetHome(c, 0);
    h.hm.SetNum(c, 0);
    assert h.hm.ln[c] == ZeroLinks();
    SameButOne(l, h.hm.ln, c);
  }

  lemma SameButOne(l: map<int, Links>, l2: map<int, Links>, c: int)
    requires c in l && l2.Keys == l.Keys && forall d :: d in l && d != c ==> l2[d] == l[d]
    ensures l2 == l[c := l2[c]]
  {
    assert forall d :: d in l2 <==> d in l2.Keys;
  }

  lemma ShellClear(pg: map<int, Pages>, ln: map<int, Links>, mem: Mem, main: int, cached: seq<int>, key: Word8, k: nat)
    requires Shell(pg, ln, mem, main, cached, key) && k < |cached| && ZeroedTo(pg, ln, cached, k)
    ensures var c := cached[k]; var next := NextOf(cached, k);
      && c in pg && c in ln && 0 < c && 0 <= next && ln[c].next == next && next % CHUNK == 0 && c != main
      && CachedAt(ln, cached, key, k)
    ensures var c := cached[k]; var l2 := ln[c := CachedLink(ZeroLinks(), key, c, NextOf(cached, k))]; var pg2 := pg[c := ZeroPages()];
      Shell(pg2, l2, mem, main, cached, key) && ZeroedTo(pg2, l2, cached, k + 1)
  {
    hide Encode, Decode, ZeroPages;
    var c, next := cached[k], NextOf(cached, k);
    assert c in cached;
    assert CachedAt(ln, cached, key, k);
    if k + 1 < |cached| { assert cached[k + 1] in pg && ChunkBase(cached[k + 1]); }
    var l2, pg2 := ln[c := CachedLink(ZeroLinks(), key, c, next)], pg[c := ZeroPages()];
    assert c in ln.Keys && c in pg.Keys;
    CachedMembers(ln, cached, key);
    CachedSame(ln, l2, cached, key);
    hide CachedOK;
    assert pg2.Keys == pg.Keys && l2.Keys == ln.Keys;
    forall i | 0 <= i < k + 1 ensures Zeroed(pg2, l2, cached[i]) {
      if cached[i] != c { assert Zeroed(pg, ln, cached[i]); }
    }
  }

  /** Clear every cached header and restore its link. */
  method ClearCached(h: Heap, ghost cached: seq<int>)
    requires h.hm.Valid() && h !in h.hm.objs && Shell(h.hm.pg, h.hm.ln, h.mem, h.mainChunk, cached, h.shadowKey)
    requires h.cachedChunks == First(cached)
    modifies h.hm.objs, h.hm`ln, h.hm`pg
    ensures h.hm.Valid() && h.hm.objs == old(h.hm.objs)
    ensures Shell(h.hm.pg, h.hm.ln, h.mem, h.mainChunk, cached, h.shadowKey) && ZeroedTo(h.hm.pg, h.hm.ln, cached, |cached|)
  {
    hide Headers.Valid, Shell, ZeroedTo, Decode, CachedLink, ZeroPages;
    ghost var k := 0;
    NothingZeroed(h.hm.pg, h.hm.ln, cached);
    CachedNonZero(h.hm.pg, h.hm.ln, h.mem, h.mainChunk, cached, h.shadowKey);
    var p := h.cachedChunks;
    while p != 0
      invariant h.hm.Valid() && h.hm.objs == old(h.hm.objs) && 0 <= k <= |cached| && p == First(cached[k..])
      invariant Shell(h.hm.pg, h.hm.ln, h.mem, h.mainChunk, cached, h.shadowKey) && ZeroedTo(h.hm.pg, h.hm.ln, cached, k)
      decreases |cached| - k
    {
      assert p == cached[k];
      ShellClear(h.hm.pg, h.hm.ln, h.mem, h.mainChunk, cached, h.shadowKey, k);
      var q := h.GetNextCached(p, h.shadowKey, cached, k);
      ghost var l := h.hm.ln;
      ZeroHeader(h, p);
      h.SetNextCached(p, q);
      UpdateTwice(l, p, ZeroLinks(), CachedLink(ZeroLinks(), h.shadowKey, p, q));
      p := q;
      k := k + 1;
    }
  }

  lemma NothingZeroed(pg: map<int, Pages>, ln: map<int, Links>, cached: seq<int>)
    ensures ZeroedTo(pg, ln, cached, 0)
  {}

  lemma CachedNonZero(pg: map<int, Pages>, ln: map<int, Links>, mem: Mem, main: int, cached: seq<int>, key: Word8)
    requires Shell(pg, ln, mem, main, cached, key)
    ensures forall i :: 0 <= i < |cached| ==> cached[i] != 0
  {
    hide CachedOK;
    forall i | 0 <= i < |cached| ensures cached[i] != 0 { assert cached[i] in pg && ChunkBase(cached[i]); }
  }

  // ----- the main chunk starts over -----

  method ResetMain(h: Heap) returns (ghost l: Links)
    requires h.hm.Valid() && h !in h.hm.objs && h.mainChunk in h.hm.ln && h.mainChunk in h.hm.pg
    modifies h.hm.objs, h.hm`ln, h.hm`pg
    ensures h.hm.Valid() && h.hm.objs == old(h.hm.objs)
    ensures h.hm.pg == old(h.hm.pg)[h.mainChunk := FirstRun(ZeroPages())]
    ensures l.next == h.mainChunk && l.prev == h.mainChunk && l.heap == h.mainChunk + HEAP_OFFSET && l.num == 0
    ensures h.hm.ln == old(h.hm.ln)[h.mainChunk := l]
  {
    hide Headers.Valid, ZeroPages, FirstRun, PagesOK;
    ghost var l0, pg := h.hm.ln, h.hm.pg;
    h.hm.SetHome(h.mainChunk, h.mainChunk + HEAP_OFFSET);
    h.hm.SetNext(h.mainChunk, h.mainChunk);
    h.hm.SetPrev(h.mainChunk, h.mainChunk);
    h.hm.SetNum(h.mainChunk, 0);
    l := h.hm.ln[h.mainChunk];
    SameButOne(l0, h.hm.ln, h.mainChunk);
    h.hm.ClearPages(h.mainChunk);
    h.hm.InitPages(h.mainChunk);
    assert h.hm.pg == pg[h.mainChunk := FirstRun(ZeroPages())] by { PageTwice(pg, h.mainChunk); }
  }

  lemma PageTwice(pg: map<int, Pages>, c: int)
    ensures pg[c := ZeroPages()][c := FirstRun(ZeroPages())] == pg[c := FirstRun(ZeroPages())]
  {
    hide ZeroPages, FirstRun;
  }

  // ----- the empty heap -----

  /** A heap with one empty chunk in use, a cache, and nothing else. */
  ghost predicate EmptyHeap(t: State) {
    && |t.ring| == 1 && t.slots == NoSlots() && t.huge == [] && t.live == map[]
    && Shell(t.pg, t.ln, t.mem, t.ring[0], t.cached, t.key)
    && t.ring[0] in t.pg && t.pg[t.ring[0]] == FirstRun(ZeroPages())
    && t.ring[0] in t.ln && t.ln[t.ring[0]].next == t.ring[0] && t.ln[t.ring[0]].prev == t.ring[0]
    && t.ln[t.ring[0]].heap == t.ring[0] + HEAP_OFFSET
    && ZeroedTo(t.pg, t.ln, t.cached, |t.cached|)
  }

  lemma EmptyPages(t: State, c: int)
    requires EmptyHeap(t) && c in t.pg
    ensures NoBlocksIn(t.pg[c]) && (c == t.ring[0] ==> PagesOK(t.pg[c]))
    ensures c in t.cached ==> Blank(t.pg[c].own) && |t.pg[c].info| == PAGES
  {
    hide CachedOK, PagesOK, FirstRun, NoBlocksIn, Blank, ZeroPages;
    FirstRunEmpty(ZeroPages());
    BlankNoBlocks(ZeroPages());
    if c != t.ring[0] {
      var i :| 0 <= i < |t.cached| && t.cached[i] == c;
      assert Zeroed(t.pg, t.ln, t.cached[i]);
    }
  }

  lemma EmptySound(t: State)
    requires EmptyHeap(t)
    ensures Sound(t) && Settled(t)
  {
    hide LiveInv, Lists, LinksOK, RegionsOK, ChunksOK, EmptyHeap, Settled;
    EmptyChunks(t);
    EmptyLive(t);
    EmptyRest(t);
  }

  lemma EmptyChunks(t: State)
    requires EmptyHeap(t)
    ensures ChunksOK(t.pg, t.ring, t.cached)
  {
    hide CachedOK, PagesOK, FirstRun, NoBlocksIn, Blank, ZeroPages;
    forall c | c in t.pg ensures ChunkBase(c) && (c in t.ring || c in t.cached) { assert c == t.ring[0] || c in t.cached; }
    EmptyPages(t, t.ring[0]);
    forall i | 0 <= i < |t.cached| ensures t.cached[i] in t.pg && t.cached[i] !in t.ring && Blank(t.pg[t.cached[i]].own) && |t.pg[t.cached[i]].info| == PAGES {
      assert t.cached[i] in t.cached;
      EmptyPages(t, t.cached[i]);
    }
  }

  lemma EmptyLive(t: State)
    requires EmptyHeap(t)
    ensures LiveInv(t.pg, t.slots, t.live) && NoTiny(t.live) && HugeLive(t.huge, t.live) && Settled(t)
  {
    hide CachedOK, PagesOK, FirstRun, Blank, ZeroPages, BlockIn, HeadIn, Shell, ZeroedTo, Full;
    forall a ensures BlockAt(t.pg, a) == NoBlock {
      if Base(a) in t.pg { EmptyPages(t, Base(a)); }
    }
    hide BlockAt, NoBlocksIn;
    forall b | 0 <= b < BINS ensures OnList(t.pg, t.slots, b) {}
  }

  lemma EmptyRest(t: State)
    requires EmptyHeap(t)
    ensures Lists(t.mem, t.key, t.slots) && NodesOK(t.mem, t.huge) && RegionsOK(t.mem, t.pg, t.huge)
    ensures LinksOK(t.pg, t.ln, t.ring, t.cached, t.key)
  {
    hide CachedOK, FirstRun, ZeroPages, ZeroedTo;
    forall b | 0 <= b < BINS ensures Chain(t.mem, t.key, BinSize(b), t.slots[b]) { EmptyChain(t.mem, t.key, BinSize(b)); }
    assert Linked(t.ln, t.ring, 0);
  }

  /** Resetting the main chunk. */
  lemma ShellMain(pg: map<int, Pages>, ln: map<int, Links>, mem: Mem, main: int, cached: seq<int>, key: Word8, p: Pages, l: Links)
    requires Shell(pg, ln, mem, main, cached, key) && ZeroedTo(pg, ln, cached, |cached|)
    ensures Shell(pg[main := p], ln[main := l], mem, main, cached, key) && ZeroedTo(pg[main := p], ln[main := l], cached, |cached|)
  {
    var pg2, l2 := pg[main := p], ln[main := l];
    assert main in ln.Keys && main in pg.Keys;
    assert pg2.Keys == pg.Keys && l2.Keys == ln.Keys;
    CachedMembers(ln, cached, key);
    forall i | 0 <= i < |cached| ensures cached[i] != main { assert cached[i] in cached; }
    CachedSame(ln, l2, cached, key);
    hide CachedOK, ZeroPages;
    forall i | 0 <= i < |cached| ensures Zeroed(pg2, l2, cached[i]) { assert Zeroed(pg, ln, cached[i]); }
  }

  /** Re-keying the cache. */
  lemma ShellKey(pg: map<int, Pages>, ln: map<int, Links>, l2: map<int, Links>, mem: Mem, main: int, cached: seq<int>, key: Word8, now: Word8)
    requires Shell(pg, ln, mem, main, cached, key) && OnlyCached(ln, l2, cached) && CachedOK(l2, cached, now)
    ensures Shell(pg, l2, mem, main, cached, now) && main in l2 && l2[main] == ln[main]
    ensures ZeroedTo(pg, ln, cached, |cached|) ==> ZeroedTo(pg, l2, cached, |cached|)
  {
    hide CachedOK, ZeroPages;
    assert main in ln.Keys;
    forall i | 0 <= i < |cached| && Zeroed(pg, ln, cached[i]) ensures Zeroed(pg, l2, cached[i]) {
      assert cached[i] in ln.Keys;
      OnlyLinkChanged(ln, l2, cached, cached[i]);
    }
  }

  lemma OnlyLinkChanged(ln: map<int, Links>, l2: map<int, Links>, cached: seq<int>, c: int)
    requires OnlyCached(ln, l2, cached) && c in ln
    ensures c in l2 && l2[c].prev == ln[c].prev && l2[c].heap == ln[c].heap && l2[c].num == ln[c].num
  {
    assert c in ln.Keys;
  }

  // ----- zend_mm_shutdown -----

  /** Huge blocks are unmapped, chunks move to the cache. */
  method DropBlocks(h: Heap) returns (ghost cached: seq<int>)
    requires h.Consistent()
    modifies h`mem, h`hugeList, h`cachedChunks, h`chunksCount, h`cachedChunksCount, h.hm.objs, h.hm`ln
    ensures h.hm.Valid() && h.hm.objs == old(h.hm.objs) && h !in h.hm.objs && h.freeSlot !in h.hm.objs && Clear(h.reserved, h.mem)
    ensures h.hugeList == 0 && (h.freeSlot as object) != h.hm && h.freeSlot.Length == BINS
    ensures Shell(h.hm.pg, h.hm.ln, h.mem, h.mainChunk, cached, h.shadowKey)
    ensures h.cachedChunks == First(cached) && h.cachedChunksCount == |cached| == |h.s.ring| - 1 + |h.s.cached|
    ensures cached == Pushed(h.s.ring, h.s.cached, |h.s.ring|)
    ensures |h.s.ring| > 0 && h.mainChunk == h.s.ring[0] && HugeLeft(h.s, h.mem, |h.s.huge|) && h.shadowKey == h.s.key
  {
    hide Sound, Headers.Valid, Clear, Settled, SumHuge, HugeLeft, Pushed, Shell, CachedOK;
    ghost var s := h.s;
    FreeHugeList(h);
    CacheRing(h);
    cached := Pushed(s.ring, s.cached, |s.ring|);
    ShellStart(s, h.mem, h.hm.ln, cached);
  }

  /** Part of the cache is kept, cleared. */
  method KeepSome(h: Heap, ghost cached: seq<int>) returns (ghost rest: seq<int>)
    requires h.hm.Valid() && h !in h.hm.objs && Clear(h.reserved, h.mem)
    requires Shell(h.hm.pg, h.hm.ln, h.mem, h.mainChunk, cached, h.shadowKey)
    requires h.cachedChunks == First(cached) && h.cachedChunksCount == |cached|
    modifies h`mem, h`cachedChunks, h`cachedChunksCount, h`avgChunksCount, h.hm, h.hm.objs
    ensures h.hm.Valid() && h.hm.objs == old(h.hm.objs) && Clear(h.reserved, h.mem) && |rest| <= |cached|
    ensures Shell(h.hm.pg, h.hm.ln, h.mem, h.mainChunk, rest, h.shadowKey) && ZeroedTo(h.hm.pg, h.hm.ln, rest, |rest|)
    ensures h.cachedChunks == First(rest) && h.cachedChunksCount == |rest|
    ensures h.avgChunksCount == (old(h.avgChunksCount) + old(h.peakChunksCount) as real) / 2.0
    ensures Trimmed(rest, cached, h.avgChunksCount)
  {
    hide Headers.Valid, Clear, Shell, ZeroedTo, Trimmed;
    h.avgChunksCount := (h.avgChunksCount + h.peakChunksCount as real) / 2.0;
    rest := TrimShell(h, cached);
    ClearCached(h, rest);
  }

  lemma ShellMembers(pg: map<int, Pages>, ln: map<int, Links>, mem: Mem, main: int, cached: seq<int>, key: Word8)
    requires Shell(pg, ln, mem, main, cached, key)
    ensures main in pg && main in ln && CachedOK(ln, cached, key)
    ensures forall i :: 0 <= i < |cached| ==> cached[i] % CHUNK == 0
  {
    hide CachedOK;
    assert main in ln.Keys;
    forall i | 0 <= i < |cached| ensures cached[i] % CHUNK == 0 { assert cached[i] in pg && ChunkBase(cached[i]); }
  }

  method ResetCounters(h: Heap, ghost kept: nat)
    requires h.cachedChunksCount == kept
    modifies h`size, h`peak, h`realSize, h`realPeak, h`chunksCount, h`peakChunksCount, h`lastDeleteBoundary, h`lastDeleteCount, h`floating
    ensures h.Account(1, kept, 0, 0) && h.size == 0 && h.peak == 0 && h.floating == 0
    ensures h.realSize == h.realPeak == CHUNK * (1 + kept)
    ensures h.chunksCount == h.peakChunksCount == 1 && h.lastDeleteBoundary == h.lastDeleteCount == 0
  {
    h.size, h.peak, h.floating := 0, 0, 0;
    h.realSize := (h.cachedChunksCount + 1) * CHUNK;
    h.realPeak := (h.cachedChunksCount + 1) * CHUNK;
    h.chunksCount, h.peakChunksCount := 1, 1;
    h.lastDeleteBoundary, h.lastDeleteCount := 0, 0;
  }

  /** memset over the list heads. */
  method ClearSlots(h: Heap)
    requires h.freeSlot.Length == BINS
    modifies h.freeSlot
    ensures forall b :: 0 <= b < BINS ==> h.freeSlot[b] == 0
  {
    var b := 0;
    while b < BINS
      invariant 0 <= b <= BINS && forall d :: 0 <= d < b ==> h.freeSlot[d] == 0
    {
      h.freeSlot[b] := 0;
      b := b + 1;
    }
  }

  /** zend_mm_refresh_key, and the cached links under the new key. */
  method NewKey(h: Heap, now: Word8, ghost rest: seq<int>)
    requires h.hm.Valid() && h !in h.hm.objs && h.cachedChunks == First(rest)
    requires Shell(h.hm.pg, h.hm.ln, h.mem, h.mainChunk, rest, h.shadowKey) && ZeroedTo(h.hm.pg, h.hm.ln, rest, |rest|)
    modifies h`shadowKey, h.hm.objs, h.hm`ln
    ensures h.hm.Valid() && h.hm.objs == old(h.hm.objs) && h.shadowKey == now
    ensures Shell(h.hm.pg, h.hm.ln, h.mem, h.mainChunk, rest, now) && ZeroedTo(h.hm.pg, h.hm.ln, rest, |rest|)
    ensures h.mainChunk in h.hm.ln && h.mainChunk in old(h.hm.ln) && h.hm.ln[h.mainChunk] == old(h.hm.ln)[h.mainChunk]
  {
    hide Headers.Valid, Shell, ZeroedTo, CachedOK, OnlyCached;
    ShellMembers(h.hm.pg, h.hm.ln, h.mem, h.mainChunk, rest, h.shadowKey);
    var oldKey := h.shadowKey;
    ghost var ln := h.hm.ln;
    h.shadowKey := now;
    RekeyCached(h, oldKey, rest);
    ShellKey(h.hm.pg, ln, h.hm.ln, h.mem, h.mainChunk, rest, oldKey, now);
  }

  lemma EmptyIs(t: State, l: Links)
    requires |t.ring| == 1 && t.slots == NoSlots() && t.huge == [] && t.live == map[]
    requires Shell(t.pg, t.ln, t.mem, t.ring[0], t.cached, t.key) && ZeroedTo(t.pg, t.ln, t.cached, |t.cached|)
    requires t.ring[0] in t.pg && t.pg[t.ring[0]] == FirstRun(ZeroPages()) && t.ring[0] in t.ln && t.ln[t.ring[0]] == l
    requires l.next == t.ring[0] && l.prev == t.ring[0] && l.heap == t.ring[0] + HEAP_OFFSET
    ensures EmptyHeap(t)
  {
    hide Shell, ZeroedTo, FirstRun, ZeroPages;
  }

  lemma EmptyParts(t: State)
    requires EmptyHeap(t)
    ensures t.huge == [] && t.live == map[] && t.slots == NoSlots()
  {}

  /** Main chunk and counters start over, under a new key. */
  method StartOver(h: Heap, now: Word8, ghost rest: seq<int>)
    requires h.hm.Valid() && h !in h.hm.objs && h.freeSlot !in h.hm.objs && (h.freeSlot as object) != h.hm && Clear(h.reserved, h.mem)
    requires h.freeSlot.Length == BINS && h.hugeList == 0
    requires Shell(h.hm.pg, h.hm.ln, h.mem, h.mainChunk, rest, h.shadowKey) && ZeroedTo(h.hm.pg, h.hm.ln, rest, |rest|)
    requires h.cachedChunks == First(rest) && h.cachedChunksCount == |rest|
    modifies h`s, h`size, h`peak, h`realSize, h`realPeak, h`chunksCount, h`peakChunksCount, h`lastDeleteBoundary, h`lastDeleteCount,
      h`shadowKey, h`floating, h.freeSlot, h.hm.objs, h.hm`ln, h.hm`pg
    ensures h.Valid() && h.hm.objs == old(h.hm.objs)
    ensures EmptyHeap(h.s) && h.s.ring == [h.mainChunk] && h.s.cached == rest && h.s.key == now && h.s.mem == h.mem
    ensures h.size == 0 && h.peak == 0 && h.realSize == h.realPeak == CHUNK * (1 + |rest|)
    ensures h.chunksCount == h.peakChunksCount == 1 && h.lastDeleteBoundary == h.lastDeleteCount == 0
  {
    hide Headers.Valid, Clear, Shell, ZeroedTo, Sound, Settled, EmptyHeap, SumUsable, SumHuge, Heap.Heads, Heap.Account;
    ResetCounters(h, |rest|);
    ClearSlots(h);
    StartLinks(h, now, rest);
    HeadsEmpty(h, rest);
    h.s := State(h.hm.pg, h.hm.ln, [h.mainChunk], rest, NoSlots(), [], map[], h.mem, now);
    EmptySound(h.s);
    NothingLive();
    NoHuge();
  }

  /** The headers: main chunk and cached links. */
  method StartLinks(h: Heap, now: Word8, ghost rest: seq<int>)
    requires h.hm.Valid() && h !in h.hm.objs && h.cachedChunks == First(rest)
    requires Shell(h.hm.pg, h.hm.ln, h.mem, h.mainChunk, rest, h.shadowKey) && ZeroedTo(h.hm.pg, h.hm.ln, rest, |rest|)
    modifies h`shadowKey, h.hm.objs, h.hm`ln, h.hm`pg
    ensures h.hm.Valid() && h.hm.objs == old(h.hm.objs) && h.shadowKey == now
    ensures EmptyHeap(State(h.hm.pg, h.hm.ln, [h.mainChunk], rest, NoSlots(), [], map[], h.mem, now))
  {
    hide Headers.Valid, Shell, ZeroedTo, CachedOK, EmptyHeap, FirstRun, ZeroPages;
    ShellMembers(h.hm.pg, h.hm.ln, h.mem, h.mainChunk, rest, h.shadowKey);
    ghost var pg, ln := h.hm.pg, h.hm.ln;
    ghost var l := ResetMain(h);
    ShellMain(pg, ln, h.mem, h.mainChunk, rest, h.shadowKey, FirstRun(ZeroPages()), l);
    NewKey(h, now, rest);
    EmptyIs(State(h.hm.pg, h.hm.ln, [h.mainChunk], rest, NoSlots(), [], map[], h.mem, now), l);
  }

  lemma HeadsEmpty(h: Heap, rest: seq<int>)
    requires h.freeSlot.Length == BINS && h.hugeList == 0 && h.cachedChunks == First(rest)
    requires forall b :: 0 <= b < BINS ==> h.freeSlot[b] == 0
    ensures h.Heads(NoSlots(), [h.mainChunk], rest, [])
  {}

  /** zend_mm_shutdown, not full. From any state, also one left by a call that ran out of
      memory, the heap becomes empty: no block is live, the huge blocks are unmapped, only
      the main chunk is in use, and what is kept of the other chunks is cleared and linked
      under the new key. */
  method Shutdown(h: Heap, now: Word8)
    requires h.Consistent()
    modifies h, h.hm, h.hm.objs, h.freeSlot
    ensures h.Valid() && h.hm.objs == old(h.hm.objs) && h.limit == old(h.limit) && h.overflow == old(h.overflow)
    ensures EmptyHeap(h.s) && |old(h.s).ring| > 0 && h.s.ring == [old(h.s).ring[0]] && h.s.key == now
    ensures h.size == 0 && h.peak == 0 && h.realSize == h.realPeak == CHUNK * (1 + |h.s.cached|)
    ensures h.chunksCount == h.peakChunksCount == 1 && h.lastDeleteBoundary == h.lastDeleteCount == 0
    ensures Trimmed(h.s.cached, Pushed(old(h.s).ring, old(h.s).cached, |old(h.s).ring|), h.avgChunksCount)
    ensures h.avgChunksCount == (old(h.avgChunksCount) + old(h.peakChunksCount) as real) / 2.0
  {
    hide Headers.Valid, Clear, Shell, ZeroedTo, Sound, Settled, Heap.Ready, EmptyHeap, HugeLeft, Pushed, Trimmed;
    ghost var cached := DropBlocks(h);
    ghost var rest := KeepSome(h, cached);
    StartOver(h, now, rest);
  }
}
