/** A new heap key: the shadows of all free-list links and cached-chunk links are made anew. */
module Rekeying {
  import opened Sizes
  import opened Pages
  import opened Memory
  import opened Blocks
  import opened Live
  import opened FreeLists
  import opened Chunks
  import opened Rings
  import opened HeapModel
  import opened HeapState
  import opened HugeSteps
  import opened HeaderTable
  import opened Collecting
  import opened Collectors
  import opened Heaps
  import opened HeapCalls
  import opened Writes

  // ----- free elements are apart from everything else -----

  lemma FreeApartFree(s: State, b: nat, a: int, d: nat, x: int)
    requires Sound(s) && b < BINS && d < BINS && |s.slots| == BINS && a in s.slots[b] && x in s.slots[d] && a != x
    ensures Apart(a, BinSize(b), x, BinSize(d))
  {
    hide Sound, ChunksWF, BlockAt, BinSize, Mapped;
    ListedFacts(s, b, a);
    ListedFacts(s, d, x);
    SmallUsable(b);
    SmallUsable(d);
    if a < x { BlocksApart(s.pg, a, x); } else { BlocksApart(s.pg, x, a); }
  }

  lemma FreeApartLive(s: State, b: nat, a: int, x: int)
    requires Sound(s) && b < BINS && |s.slots| == BINS && a in s.slots[b] && x in s.live
    ensures Apart(a, BinSize(b), x, Usable(s.live[x]))
  {
    hide Sound, ChunksWF, BlockAt, BinSize, Mapped, Usable;
    ListedFacts(s, b, a);
    SmallUsable(b);
    if s.live[x].Huge? {
      var i := HugeAt(s, x);
      BlockInChunk(s.pg, a);
      assert Apart(x, Usable(s.live[x]), Base(a), CHUNK);
    } else {
      ChunkBlock(s, x);
      if a < x { BlocksApart(s.pg, a, x); } else { BlocksApart(s.pg, x, a); }
    }
  }

  /** Every free list has its shadows under the given key, list by list: those before `b`
      under `now`, the others under the key of `s`; of list `b` the first `j` entries are done. */
  ghost predicate Half(s: State, m: Mem, now: Word8, b: nat, j: nat) {
    && |s.slots| == BINS && m.Keys == s.mem.Keys && SameLive(s.mem, m, s.live, 0)
    && (forall d :: 0 <= d < BINS ==> HalfList(s, m, now, d, Done(s.slots, b, j, d)))
  }

  /** How many entries of list `d` are done. */
  function Done(slots: Slots, b: nat, j: nat, d: nat): nat
    requires d < |slots|
  {
    if d < b then |slots[d]| else if d == b then j else 0
  }

  ghost predicate HalfList(s: State, m: Mem, now: Word8, d: nat, j: nat)
    requires d < BINS && |s.slots| == BINS
  {
    forall i :: 0 <= i < |s.slots[d]| ==>
      LinkOK(m, if i < j then now else s.key, s.slots[d][i], BinSize(d), NextOf(s.slots[d], i))
  }

  lemma HalfStart(s: State, now: Word8)
    requires Sound(s) && |s.slots| == BINS
    ensures Half(s, s.mem, now, 0, 0)
  {
    hide LiveInv, HugeLive, NodesOK, RegionsOK, LinksOK, ChunksOK, LinkOK, BinSize, Usable;
    forall d | 0 <= d < BINS ensures HalfList(s, s.mem, now, d, Done(s.slots, 0, 0, d)) {
      assert Chain(s.mem, s.key, BinSize(d), s.slots[d]);
    }
  }

  /** The shadow of entry `j` of list `b` is made anew. */
  lemma HalfStep(s: State, m: Mem, m2: Mem, now: Word8, b: nat, j: nat)
    requires Sound(s) && b < BINS && Half(s, m, now, b, j) && j < |s.slots[b]|
    requires OnlyInside(m, m2, s.slots[b][j], BinSize(b)) && LinkOK(m2, now, s.slots[b][j], BinSize(b), NextOf(s.slots[b], j))
    ensures Half(s, m2, now, b, j + 1)
  {
    hide Sound, LinkOK, BinSize, OnlyInside, SameBytes, Usable, HalfList;
    var a := s.slots[b][j];
    InsideSameKeys(m, m2, a, BinSize(b));
    forall x | x in s.live && x != 0 ensures SameBytes(s.mem, m2, x, Usable(s.live[x])) {
      FreeApartLive(s, b, a, x);
      InsideElsewhere(m, m2, a, BinSize(b), x, Usable(s.live[x]));
      SameBytesChain(s.mem, m, m2, x, Usable(s.live[x]));
    }
    var j2 := j + 1;
    forall d | 0 <= d < BINS ensures HalfList(s, m2, now, d, Done(s.slots, b, j2, d)) {
      HalfListStep(s, m, m2, now, b, j, d, Done(s.slots, b, j, d));
    }
  }

  lemma HalfListStep(s: State, m: Mem, m2: Mem, now: Word8, b: nat, j: nat, d: nat, k: nat)
    requires Sound(s) && b < BINS && d < BINS && |s.slots| == BINS && j < |s.slots[b]| && HalfList(s, m, now, d, k) && (d == b ==> k == j)
    requires OnlyInside(m, m2, s.slots[b][j], BinSize(b)) && LinkOK(m2, now, s.slots[b][j], BinSize(b), NextOf(s.slots[b], j))
    ensures HalfList(s, m2, now, d, if d == b then j + 1 else k)
  {
    hide Sound, LinkOK, BinSize, OnlyInside, SameBytes;
    var a, l := s.slots[b][j], s.slots[d];
    forall i | 0 <= i < |l| && !(d == b && i == j)
      ensures LinkOK(m2, if i < k then now else s.key, l[i], BinSize(d), NextOf(l, i))
    {
      EntriesDiffer(s, b, j, d, i);
      FreeApartFree(s, b, a, d, l[i]);
      InsideElsewhere(m, m2, a, BinSize(b), l[i], BinSize(d));
      LinkSame(m, m2, if i < k then now else s.key, l[i], BinSize(d), NextOf(l, i));
    }
  }

  lemma EntriesDiffer(s: State, b: nat, j: nat, d: nat, i: nat)
    requires Sound(s) && b < BINS && d < BINS && |s.slots| == BINS && j < |s.slots[b]| && i < |s.slots[d]| && !(b == d && i == j)
    ensures s.slots[b][j] != s.slots[d][i] && s.slots[b][j] in s.slots[b] && s.slots[d][i] in s.slots[d]
  {
    hide Lists, HugeLive, NodesOK, RegionsOK, LinksOK, ChunksOK, BlockAt, Owned;
    assert OnList(s.pg, s.slots, b) && OnList(s.pg, s.slots, d);
  }

  /** The last entry of a list carries no shadow that matters. */
  lemma HalfSkipLast(s: State, m: Mem, now: Word8, b: nat)
    requires b < BINS && |s.slots| == BINS && s.slots[b] != [] && Half(s, m, now, b, |s.slots[b]| - 1)
    ensures Half(s, m, now, b + 1, 0)
  {
    hide SameLive, BinSize, Encode, Load, Value;
    var l := s.slots[b];
    var b2 := b + 1;
    forall d | 0 <= d < BINS ensures HalfList(s, m, now, d, Done(s.slots, b2, 0, d)) {
      assert HalfList(s, m, now, d, Done(s.slots, b, |l| - 1, d));
    }
  }

  lemma HalfSkipEmpty(s: State, m: Mem, now: Word8, b: nat)
    requires b < BINS && Half(s, m, now, b, 0) && s.slots[b] == []
    ensures Half(s, m, now, b + 1, 0)
  {
    hide SameLive, BinSize, LinkOK;
    var b2 := b + 1;
    forall d | 0 <= d < BINS ensures HalfList(s, m, now, d, Done(s.slots, b2, 0, d)) {
      assert HalfList(s, m, now, d, Done(s.slots, b, 0, d));
    }
  }

  /** All lists are done. */
  lemma HalfEnd(s: State, m: Mem, now: Word8)
    requires Half(s, m, now, BINS, 0)
    ensures Lists(m, now, s.slots) && SameLive(s.mem, m, s.live, 0) && m.Keys == s.mem.Keys
  {
    hide SameLive, BinSize, LinkOK;
    forall d | 0 <= d < BINS ensures Chain(m, now, BinSize(d), s.slots[d]) {
      assert HalfList(s, m, now, d, Done(s.slots, BINS, 0, d));
    }
  }

  /** What following entry `j` of list `b` finds. */
  lemma HalfEntry(s: State, m: Mem, now: Word8, b: nat, j: nat)
    requires Sound(s) && b < BINS && Half(s, m, now, b, j) && j < |s.slots[b]|
    ensures var a := s.slots[b][j]; var next := NextOf(s.slots[b], j);
      && LinkOK(m, s.key, a, BinSize(b), next) && 0 < a && 16 <= BinSize(b) && 0 <= next
      && (next != 0 <==> j + 1 < |s.slots[b]|) && 1 <= b
  {
    hide Sound, BinSize, SameLive, Encode, Load, Value, Mapped, HalfList;
    assert HalfList(s, m, now, b, Done(s.slots, b, j, b));
    assert LinkOK(m, s.key, s.slots[b][j], BinSize(b), NextOf(s.slots[b], j)) by { HalfAt(s, m, now, b, j); }
    if j + 1 < |s.slots[b]| { ListedFacts(s, b, s.slots[b][j + 1]); }
    if b == 0 { SmallestClass(); }
  }

  lemma HalfAt(s: State, m: Mem, now: Word8, b: nat, j: nat)
    requires b < BINS && |s.slots| == BINS && HalfList(s, m, now, b, j) && j < |s.slots[b]|
    ensures LinkOK(m, s.key, s.slots[b][j], BinSize(b), NextOf(s.slots[b], j))
  {
    hide LinkOK, BinSize;
  }

  // ----- cached chunks -----

  /** The first `k` cached chunks have their shadows under `now`, the others under `key`. */
  ghost predicate HalfCached(ln: map<int, Links>, s: seq<int>, now: Word8, key: Word8, k: int) {
    NoDup(s) && forall i :: 0 <= i < |s| ==> CachedAt(ln, s, KeyAt(now, key, k, i), i)
  }

  function KeyAt(now: Word8, key: Word8, k: int, i: int): Word8 {
    if i < k then now else key
  }

  lemma HalfCachedStep(ln: map<int, Links>, s: seq<int>, now: Word8, key: Word8, k: nat)
    requires HalfCached(ln, s, now, key, k) && k < |s|
    ensures s[k] in ln && 0 < s[k] && IsAddress(NextOf(s, k)) && ln[s[k]].next == NextOf(s, k)
    ensures CachedAt(ln, s, key, k)
    ensures HalfCached(ln[s[k] := CachedLink(ln[s[k]], now, s[k], NextOf(s, k))], s, now, key, k + 1)
  {
    hide Encode, Decode;
    assert CachedAt(ln, s, KeyAt(now, key, k, k), k);
    var l2 := ln[s[k] := CachedLink(ln[s[k]], now, s[k], NextOf(s, k))];
    var k2 := k + 1;
    forall i | 0 <= i < |s| ensures CachedAt(l2, s, KeyAt(now, key, k2, i), i) {
      assert CachedAt(ln, s, KeyAt(now, key, k, i), i);
    }
  }

  lemma HalfCachedEnds(ln: map<int, Links>, s: seq<int>, now: Word8, key: Word8)
    ensures CachedOK(ln, s, key) ==> HalfCached(ln, s, now, key, 0)
    ensures HalfCached(ln, s, now, key, |s|) ==> CachedOK(ln, s, now)
  {
    hide CachedAt;
    if HalfCached(ln, s, now, key, |s|) {
      forall i | 0 <= i < |s| ensures CachedAt(ln, s, now, i) { assert CachedAt(ln, s, KeyAt(now, key, |s|, i), i); }
    }
  }

  /** Only link and shadow of the cached chunks differ. */
  ghost predicate OnlyCached(ln: map<int, Links>, l2: map<int, Links>, cached: seq<int>) {
    && l2.Keys == ln.Keys
    && (forall c :: c in ln && c !in cached ==> l2[c] == ln[c])
    && (forall c :: c in ln ==> l2[c] == ln[c].(next := l2[c].next, shadow := l2[c].shadow))
  }

  lemma OnlyCachedAt(ln: map<int, Links>, l2: map<int, Links>, cached: seq<int>, c: int)
    requires OnlyCached(ln, l2, cached) && c in ln && c !in cached
    ensures c in l2 && l2[c] == ln[c]
  {
    assert c in ln.Keys;
  }

  lemma OnlyCachedRing(ln: map<int, Links>, l2: map<int, Links>, ring: seq<int>, cached: seq<int>)
    requires OnlyCached(ln, l2, cached) && RingOK(ln, ring) && HomeOK(ln, ring)
    requires forall i :: 0 <= i < |ring| ==> ring[i] !in cached
    ensures RingOK(l2, ring) && HomeOK(l2, ring)
  {
    hide RingOK;
    RingMembers(ln, ring);
    forall i | 0 <= i < |ring| ensures ring[i] in l2 && l2[ring[i]] == ln[ring[i]] {
      OnlyCachedAt(ln, l2, cached, ring[i]);
    }
    RingSame(ln, l2, ring);
  }

  lemma NotAMember(r: seq<int>, i: nat, c: int)
    requires i < |r| && c !in r
    ensures c != r[i]
  {}

  lemma RingNotCached(s: State)
    requires Sound(s)
    ensures forall i :: 0 <= i < |s.ring| ==> s.ring[i] !in s.cached
  {
    hide LiveInv, Lists, HugeLive, NodesOK, RegionsOK, LinksOK, PagesOK, Blank;
    forall i | 0 <= i < |s.ring| ensures s.ring[i] !in s.cached {
      forall j | 0 <= j < |s.cached| ensures s.cached[j] != s.ring[i] { NotAMember(s.ring, i, s.cached[j]); }
    }
  }

  // ----- zend_mm_refresh_key_child -----

  /** The state under the new key. */
  lemma RekeyedSound(s: State, m: Mem, l2: map<int, Links>, now: Word8)
    requires Sound(s) && Half(s, m, now, BINS, 0) && OnlyCached(s.ln, l2, s.cached) && CachedOK(l2, s.cached, now)
    ensures Sound(s.(mem := m, ln := l2, key := now)) && SameLive(s.mem, m, s.live, 0)
  {
    hide LiveInv, Lists, HugeLive, NodesOK, RegionsOK, RingOK, HomeOK, CachedOK, ChunksOK, Half, OnlyCached;
    HalfEnd(s, m, now);
    RegionsKept(s.mem, m, s.pg, s.huge);
    NodesSame(s, m);
    RingNotCached(s);
    OnlyCachedRing(s.ln, l2, s.ring, s.cached);
    assert l2.Keys == s.ln.Keys by { OnlyCachedKeys(s.ln, l2, s.cached); }
  }

  lemma OnlyCachedKeys(ln: map<int, Links>, l2: map<int, Links>, cached: seq<int>)
    requires OnlyCached(ln, l2, cached)
    ensures l2.Keys == ln.Keys
  {}

  lemma NodesSame(s: State, m: Mem)
    requires Sound(s) && SameLive(s.mem, m, s.live, 0)
    ensures NodesOK(m, s.huge)
  {
    hide LiveInv, Lists, RegionsOK, LinksOK, ChunksOK, SameLive, IsNode;
    ZeroNotLive(s);
    NodeIsLive(s.huge, s.live, 0);
    NodesKept(s.mem, m, s.huge, s.live, 0);
  }

  /** The lists of all classes. Only the memory of free elements is written. */
  method RekeyLists(h: Heap, oldKey: Word8)
    requires Sound(h.s) && h.Fields() && h.mem == h.s.mem && h.s.key == oldKey && Clear(h.reserved, h.mem)
    modifies h`mem
    ensures Half(h.s, h.mem, h.shadowKey, BINS, 0) && Clear(h.reserved, h.mem)
  {
    hide Sound, Clear, Half, SetNext, Heap.Heads, Decode, BinSize;
    ghost var s := h.s;
    HeapFacts(h);
    HalfStart(s, h.shadowKey);
    var b := 0;
    while b < BINS
      invariant 0 <= b <= BINS && Half(s, h.mem, h.shadowKey, b, 0) && Clear(h.reserved, h.mem)
    {
      RekeyList(h, oldKey, b);
      b := b + 1;
    }
  }

  method RekeyList(h: Heap, oldKey: Word8, b: nat)
    requires Sound(h.s) && h.Fields() && |h.s.slots| == BINS && h.s.key == oldKey && Clear(h.reserved, h.mem)
    requires b < BINS && Half(h.s, h.mem, h.shadowKey, b, 0)
    modifies h`mem
    ensures Half(h.s, h.mem, h.shadowKey, b + 1, 0) && Clear(h.reserved, h.mem)
  {
    hide Sound, Clear, Half, SetNext, Decode, BinSize, LoadPtr, Load, LinkOK, Encode;
    ghost var s, l, j := h.s, h.s.slots[b], 0;
    HeadFacts(h, b);
    var slot := h.freeSlot[b];
    if slot == 0 {
      HalfSkipEmpty(s, h.mem, h.shadowKey, b);
      return;
    }
    HalfEntry(s, h.mem, h.shadowKey, b, 0);
    LinkFacts(h.mem, oldKey, slot, b, NextOf(l, 0));
    var next := LoadPtr(h.mem, slot);
    while next != 0
      invariant 0 <= j < |l| && slot == l[j] && next == NextOf(l, j) && (next != 0 <==> j + 1 < |l|)
      invariant Half(s, h.mem, h.shadowKey, b, j) && Clear(h.reserved, h.mem)
      decreases |l| - j
    {
      HalfEntry(s, h.mem, h.shadowKey, b, j);
      CheckPasses(h.mem, oldKey, slot, BinSize(b), next);
      LinkFacts(h.mem, oldKey, slot, b, next);
      assert Decode(oldKey, slot + BinSize(b) - 8, Load(h.mem, slot + BinSize(b) - 8)) == next;   // zend_mm_panic otherwise
      ghost var m := h.mem;
      SetNextOK(m, h.shadowKey, slot, BinSize(b), next);
      h.mem := SetNext(h.mem, h.shadowKey, slot, BinSize(b), next);
      HalfStep(s, m, h.mem, h.shadowKey, b, j);
      InsideSameKeys(m, h.mem, slot, BinSize(b));
      ClearSame(h.reserved, m, h.mem);
      slot := next;
      j := j + 1;
      HalfEntry(s, h.mem, h.shadowKey, b, j);
      LinkFacts(h.mem, oldKey, slot, b, NextOf(l, j));
      next := LoadPtr(h.mem, slot);
    }
    HalfSkipLast(s, h.mem, h.shadowKey, b);
  }

  lemma HeadFacts(h: Heap, b: nat)
    requires h.Fields() && Sound(h.s) && b < BINS
    ensures |h.s.slots| == h.freeSlot.Length == BINS && h.freeSlot[b] == First(h.s.slots[b])
    ensures h.freeSlot[b] == 0 <==> h.s.slots[b] == []
  {
    hide Sound;
    AllPositive(h.s, b);
  }

  lemma LinkFacts(m: Mem, key: Word8, a: int, b: nat, next: int)
    requires b < BINS && LinkOK(m, key, a, BinSize(b), next)
    ensures 0 < a && 16 <= BinSize(b) && Mapped(m, a, 8) && Mapped(m, a + BinSize(b) - 8, 8) && LoadPtr(m, a) == next
    ensures Mapped(m, a, BinSize(b)) && a + BinSize(b) <= ADDRESS_LIMIT && IsAddress(next)
  {
    hide BinSize, Load, Value, Encode;
  }

  /** zend_mm_rekey_cached_chunks */
  method RekeyCached(h: Heap, oldKey: Word8, ghost cached: seq<int>)
    requires h.hm.Valid() && h !in h.hm.objs && CachedOK(h.hm.ln, cached, oldKey) && h.cachedChunks == First(cached)
    requires forall i :: 0 <= i < |cached| ==> cached[i] % CHUNK == 0
    modifies h.hm.objs, h.hm`ln
    ensures h.hm.Valid() && h.hm.objs == old(h.hm.objs)
    ensures OnlyCached(old(h.hm.ln), h.hm.ln, cached) && CachedOK(h.hm.ln, cached, h.shadowKey)
  {
    hide Headers.Valid, HalfCached, CachedOK, Decode, Encode;
    ghost var l0, k := h.hm.ln, 0;
    HalfCachedEnds(l0, cached, h.shadowKey, oldKey);
    CachedPositive(l0, cached, oldKey);
    var c := h.cachedChunks;
    while c != 0
      invariant h.hm.Valid() && h.hm.objs == old(h.hm.objs) && 0 <= k <= |cached| && c == First(cached[k..])
      invariant HalfCached(h.hm.ln, cached, h.shadowKey, oldKey, k) && OnlyCached(l0, h.hm.ln, cached)
      decreases |cached| - k
    {
      assert c == cached[k];
      HalfCachedStep(h.hm.ln, cached, h.shadowKey, oldKey, k);
      NextIsFirst(cached, k);
      ghost var l := h.hm.ln;
      var next := h.GetNextCached(c, oldKey, cached, k);
      h.SetNextCached(c, next);
      OnlyCachedStep(l0, l, cached, k, CachedLink(l[c], h.shadowKey, c, next));
      c := next;
      k := k + 1;
    }
    HalfCachedEnds(h.hm.ln, cached, h.shadowKey, oldKey);
  }

  lemma CachedPositive(ln: map<int, Links>, cached: seq<int>, key: Word8)
    requires CachedOK(ln, cached, key)
    ensures forall i :: 0 <= i < |cached| ==> 0 < cached[i]
  {
    hide Encode;
    forall i | 0 <= i < |cached| ensures 0 < cached[i] { assert CachedAt(ln, cached, key, i); }
  }

  lemma NextIsFirst(cached: seq<int>, k: nat)
    requires k < |cached| && forall i :: 0 <= i < |cached| ==> cached[i] % CHUNK == 0
    ensures NextOf(cached, k) == First(cached[k + 1..]) && NextOf(cached, k) % CHUNK == 0
  {}

  lemma OnlyCachedStep(l0: map<int, Links>, l: map<int, Links>, cached: seq<int>, k: nat, v: Links)
    requires OnlyCached(l0, l, cached) && k < |cached| && cached[k] in l
    requires v == l[cached[k]].(next := v.next, shadow := v.shadow)
    ensures OnlyCached(l0, l[cached[k] := v], cached)
  {
    assert cached[k] in cached && cached[k] in l.Keys;
  }

  /** zend_mm_refresh_key_child with the new key `now`. */
  method RefreshKey(h: Heap, now: Word8)
    requires h.Ready()
    modifies h`s, h`mem, h`shadowKey, h.hm.objs, h.hm`ln
    ensures h.Ready() && h.hm.objs == old(h.hm.objs)
    ensures h.s == old(h.s).(mem := h.s.mem, ln := h.s.ln, key := now) && SameLive(old(h.s).mem, h.s.mem, h.s.live, 0)
  {
    hide Sound, Headers.Valid, Clear, Heap.Heads, Heap.Account, Settled, SumHuge, Half, OnlyCached, CachedOK, SameLive;
    ghost var s := h.s;
    var oldKey := h.shadowKey;
    h.shadowKey := now;
    RekeyLists(h, oldKey);
    CachedFacts(h, s);
    RekeyCached(h, oldKey, s.cached);
    RekeyedSound(s, h.mem, h.hm.ln, now);
    h.s := s.(mem := h.mem, ln := h.hm.ln, key := now);
    SettledSame(s, h.s);
  }

  lemma CachedFacts(h: Heap, s: State)
    requires Sound(s) && h.Heads(s.slots, s.ring, s.cached, s.huge)
    ensures CachedOK(s.ln, s.cached, s.key) && h.cachedChunks == First(s.cached)
    ensures forall i :: 0 <= i < |s.cached| ==> s.cached[i] % CHUNK == 0
  {
    hide LiveInv, Lists, HugeLive, NodesOK, RegionsOK, RingOK, HomeOK, CachedOK, PagesOK, Blank;
  }
}
