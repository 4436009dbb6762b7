/** The heap object and the operations of the memory manager. */
module Heaps {
  import opened Sizes
  import opened Pages
  import opened Memory
  import opened Blocks
  import opened Live
  import opened FreeLists
  import opened Chunks
  import opened Rings
  import opened HeapModel
  import opened HeapState
  import opened HeaderTable

  /** A size_t. */
  type Size = n: int | 0 <= n < 0x1_0000_0000_0000_0000 witness 0

  /** `h` has the entries of `s` and further ones for the chunks in `off`. */
  ghost predicate Beside<T>(h: map<int, T>, s: map<int, T>, off: set<int>) {
    off <= h.Keys && off !! s.Keys && h - off == s
  }

  lemma BesideAt<T>(h: map<int, T>, s: map<int, T>, off: set<int>, c: int)
    requires Beside(h, s, off)
    ensures c in s ==> c in h && h[c] == s[c] && c !in off
    ensures c in off ==> c in h && c !in s
  {
    assert c in s <==> c in h - off;
  }

  lemma BesideFirst<T>(h: map<int, T>, c: int)
    requires c in h
    ensures Beside(h, h - {c}, {c})
  {}

  lemma BesideDrop<T>(h: map<int, T>, s: map<int, T>, off: set<int>, c: int)
    requires Beside(h, s, off) && c in s
    ensures Beside(h, s - {c}, off + {c})
  {
    assert h - (off + {c}) == (h - off) - {c};
  }

  lemma BesideRemove<T>(h: map<int, T>, s: map<int, T>, off: set<int>, c: int)
    requires Beside(h, s, off) && c in off
    ensures Beside(h - {c}, s, off - {c})
  {
    assert (h - {c}) - (off - {c}) == h - off;
  }

  /** The only chunk that is on no list joins one. */
  lemma BesidePut<T>(h: map<int, T>, s: map<int, T>, c: int, v: T)
    requires Beside(h, s, {c})
    ensures h[c := v] == s[c := v]
  {
    forall d | d in h && d != c ensures d in s && s[d] == h[d] { assert d in h - {c}; }
  }

  lemma BesideNone<T>(h: map<int, T>, s: map<int, T>, none: set<int>)
    requires Beside(h, s, none) && none == {}
    ensures h == s
  {
    assert h - none == h;
  }

  lemma UpdateTwice<T>(m: map<int, T>, c: int, v: T, w: T)
    ensures m[c := v][c := w] == m[c := w]
  {}

  lemma FirstCached(s: State)
    requires Sound(s)
    ensures First(s.cached) == 0 <==> s.cached == []
    ensures s.cached != [] ==> First(s.cached) in s.ln && First(s.cached) in s.pg
  {
    hide LiveInv, Lists, HugeLive, NodesOK, RegionsOK, PagesOK, Blank, RingOK, HomeOK, CachedOK;
    RingHeld(s);
    assert First(s.cached) in s.ln <==> First(s.cached) in s.ln.Keys;
  }

  function Larger(a: int, b: int): int {
    if a < b then b else a
  }

  /** The cache, and what is remembered of earlier deletions. */
  datatype Spares = Spares(list: seq<int>, realSize: int, boundary: int, count: int)

  /** What becomes of chunk `c`, with `chunks` left in use. It is cached while there are fewer
      chunks than the average, or if the number in use has fallen to the same value for the
      fifth time with an empty cache. Otherwise the one with the larger number of it and the
      head of the cache goes back. */
  ghost predicate Retired(c: int, chunks: int, avg: real, ln: map<int, Links>, a: Spares, b: Spares) {
    var keep := (chunks + |a.list|) as real < avg + 0.1 || (chunks == a.boundary && a.count >= 4);
    var noted := !keep && a.list == [];
    && c in ln && (a.list != [] ==> a.list[0] in ln)
    && b.realSize == (if keep then a.realSize else a.realSize - CHUNK)
    && b.list == (if keep then [c] + a.list
         else if a.list == [] || ln[c].num > ln[a.list[0]].num then a.list else [c] + a.list[1..])
    && b.boundary == (if noted then chunks else a.boundary)
    && b.count == (if !noted then a.count else if chunks == a.boundary then a.count + 1 else 0)
  }

  /** Only the numbers of the chunks matter. */
  lemma RetiredNums(c: int, chunks: int, avg: real, ln: map<int, Links>, ln2: map<int, Links>, a: Spares, b: Spares)
    requires Retired(c, chunks, avg, ln, a, b)
    requires (forall d :: d in ln ==> d in ln2) && forall d :: d in ln ==> ln2[d].num == ln[d].num
    ensures Retired(c, chunks, avg, ln2, a, b)
  {
    assert ln2[c].num == ln[c].num;
    if a.list != [] {
      var d := a.list[0];
      assert d in ln && ln2[d].num == ln[d].num;
    }
  }

  /** Unlinking changes no chunk's number. */
  lemma UnlinkNums(ln: map<int, Links>, c: int)
    requires c in ln && ln[c].next in ln && ln[c].prev in ln
    ensures forall d :: d in ln <==> d in Unlink(ln, c)
    ensures forall d :: d in ln ==> Unlink(ln, c)[d].num == ln[d].num
  {}

  /** The header of a cached chunk: the link and its shadow. */
  function CachedLink(l: Links, key: Word8, c: int, next: int): Links
    requires 0 <= c && 0 <= next
  {
    l.(next := next, shadow := Encode(key, c + SHADOW_OFFSET, next))
  }

  lemma CachedLinkIs(l: Links, key: Word8, c: int, next: int)
    requires 0 <= c && 0 <= next
    ensures CachedLink(l, key, c, next).next == next
    ensures CachedLink(l, key, c, next).shadow == Encode(key, c + SHADOW_OFFSET, next)
  {}

  lemma PutOne(s: State, c: int, p: Pages, l: Links)
    ensures PutInCache(s, c, p, l).cached == [c] + s.cached
    ensures First(PutInCache(s, c, p, l).cached) == c
  {}

  class Heap {
    var size: int
    var peak: int
    var realSize: int
    var realPeak: int
    var limit: Size
    var overflow: bool
    var shadowKey: Word8
    const freeSlot: array<int>
    var hugeList: int
    var mainChunk: int
    var cachedChunks: int
    var chunksCount: int
    var peakChunksCount: int
    var cachedChunksCount: int
    var avgChunksCount: real
    var lastDeleteBoundary: int
    var lastDeleteCount: int

    /** Byte memory obtained from the operating system, and the chunk headers in it. */
    var mem: Mem

    /** Addresses that the operating system has handed out for a huge block that is not
        recorded yet: the region joins `mem` when it is. */
    var reserved: set<int>

    const hm: Headers

    /** How many requests the operating system has refused so far. */
    ghost var refusals: nat

    /** The state of the heap as one value. */
    ghost var s: State

    /** While a huge block is entered or taken out: bytes counted in `realSize` that the list
        does not show, or the other way round if negative. Zero between calls. */
    ghost var floating: int

    /** Memory, key and chunk headers are those of the state. */
    ghost predicate Tables()
      reads this`mem, this`reserved, this`shadowKey, this`s, hm, hm.objs
    {
      && hm.Valid() && this !in hm.objs && freeSlot !in hm.objs && (freeSlot as object) != hm
      && hm.pg == s.pg && hm.ln == s.ln && mem == s.mem && shadowKey == s.key && Clear(reserved, mem)
    }

    /** The same, but the chunks in `off` are on no list. */
    ghost predicate TablesBut(off: set<int>)
      reads this`mem, this`reserved, this`shadowKey, this`s, hm, hm.objs
    {
      && hm.Valid() && this !in hm.objs && freeSlot !in hm.objs && (freeSlot as object) != hm
      && Beside(hm.pg, s.pg, off) && Beside(hm.ln, s.ln, off) && mem == s.mem && shadowKey == s.key && Clear(reserved, mem)
    }

    /** The pointers in the heap are the heads of these lists. */
    ghost predicate Heads(slots: Slots, ring: seq<int>, cached: seq<int>, huge: seq<HugeRec>)
      reads this`mainChunk, this`cachedChunks, this`hugeList, freeSlot
    {
      && freeSlot.Length == BINS && |slots| == BINS
      && (forall b :: 0 <= b < BINS ==> freeSlot[b] == First(slots[b]))
      && |ring| > 0 && mainChunk == ring[0] && cachedChunks == First(cached) && hugeList == FirstNode(huge)
    }

    ghost predicate Fields()
      reads this`s, this`mainChunk, this`cachedChunks, this`hugeList, freeSlot
    {
      Heads(s.slots, s.ring, s.cached, s.huge)
    }

    /** Chunk counts, and accounting of the memory obtained from the operating system:
        `active` chunks in the ring, `kept` cached ones, `extra` chunks on no list. */
    ghost predicate Account(active: int, kept: int, extra: int, hugeSize: int)
      reads this`chunksCount, this`cachedChunksCount, this`realSize, this`realPeak, this`peakChunksCount
    {
      && chunksCount == active && cachedChunksCount == kept
      && realSize == CHUNK * (active + kept + extra) + hugeSize
      && realSize <= realPeak && active <= peakChunksCount && 0 <= hugeSize && 0 <= extra
    }

    /** Bytes of huge blocks that are accounted for. */
    ghost function HugeBytes(): int
      reads this`s, this`floating
    {
      SumHuge(s.huge) + floating
    }

    ghost predicate Money()
      reads this`s, this`floating, this`chunksCount, this`cachedChunksCount, this`realSize, this`realPeak, this`peakChunksCount
    {
      Account(|s.ring|, |s.cached|, 0, HugeBytes())
    }

    /** What holds at every step. */
    ghost predicate Steady()
      reads this`mem, this`reserved, this`shadowKey, this`s, this`floating, this`mainChunk, this`cachedChunks, this`hugeList, this`chunksCount,
        this`cachedChunksCount, this`realSize, this`realPeak, this`peakChunksCount, freeSlot, hm, hm.objs
    {
      Tables() && Fields() && Money() && Sound(s)
    }

    /** What holds before and after each part of a call. */
    ghost predicate Ready()
      reads this`mem, this`reserved, this`shadowKey, this`s, this`floating, this`mainChunk, this`cachedChunks, this`hugeList, this`chunksCount,
        this`cachedChunksCount, this`realSize, this`realPeak, this`peakChunksCount, freeSlot, hm, hm.objs
    {
      Steady() && Settled(s)
    }

    /** What holds between calls, even after one that ran out of memory. */
    ghost predicate Consistent()
      reads this`mem, this`reserved, this`shadowKey, this`s, this`floating, this`mainChunk, this`cachedChunks, this`hugeList, this`chunksCount,
        this`cachedChunksCount, this`realSize, this`realPeak, this`peakChunksCount, freeSlot, hm, hm.objs
    {
      Ready() && floating == 0
    }

    /** The invariant between calls: in addition the usage counter is exact. */
    ghost predicate Valid()
      reads this, freeSlot, hm, hm.objs
    {
      Consistent() && size == SumUsable(s.live) && size <= peak
    }

    /** A new heap on the chunk at `base`, which the operating system has just returned. */
    constructor (base: int, key: Word8)
      requires ChunkBase(base)
      ensures Valid() && fresh(freeSlot) && fresh(hm) && fresh(hm.objs)
      ensures s.live == map[] && s.huge == [] && s.cached == [] && s.ring == [base] && s.slots == NoSlots()
      ensures base in s.pg && AllFree(s.pg[base].own, 1, PAGES)
      ensures realSize == CHUNK && !overflow && limit == 0x7FFF_FFFF_FFFF_FFFF && refusals == 0
      ensures realPeak == CHUNK && size == peak == 0 && chunksCount == peakChunksCount == 1 && avgChunksCount == 1.0
      ensures lastDeleteBoundary == lastDeleteCount == 0
    {
      freeSlot := new int[BINS](_ => 0);
      hm := new Headers();
      new;
      hide Sound, Settled, Valid, AllFree;
      Init(base, key);
    }

    /** zend_mm_init on fresh memory. */
    method Init(base: int, key: Word8)
      requires ChunkBase(base) && freeSlot.Length == BINS && (forall b :: 0 <= b < BINS ==> freeSlot[b] == 0)
      requires hm.Valid() && hm.pg == map[] && this !in hm.objs && freeSlot !in hm.objs && (freeSlot as object) != hm
      modifies this, hm, hm.objs
      ensures Valid() && fresh(hm.objs - old(hm.objs))
      ensures s.live == map[] && s.huge == [] && s.cached == [] && s.ring == [base] && s.slots == NoSlots()
      ensures base in s.pg && AllFree(s.pg[base].own, 1, PAGES)
      ensures realSize == CHUNK && !overflow && limit == 0x7FFF_FFFF_FFFF_FFFF && refusals == 0
      ensures realPeak == CHUNK && size == peak == 0 && chunksCount == peakChunksCount == 1 && avgChunksCount == 1.0
      ensures lastDeleteBoundary == lastDeleteCount == 0
    {
      hide Sound, Settled, Headers.Valid, Clear, SumUsable, ChunkBase, SumHuge, AllFree, Tables, Valid, NoSlots;
      InitCounters();
      InitLists(base);
      InitChunk(base, key);
      NewValid(base);
    }

    lemma NewValid(base: int)
      requires Tables() && Sound(s) && Settled(s) && floating == 0 && size == 0 && peak == 0
      requires s.live == map[] && s.huge == [] && s.cached == [] && s.ring == [base] && s.slots == NoSlots()
      requires freeSlot.Length == BINS && (forall b :: 0 <= b < BINS ==> freeSlot[b] == 0)
      requires hugeList == 0 && mainChunk == base && cachedChunks == 0
      requires chunksCount == 1 && peakChunksCount == 1 && cachedChunksCount == 0 && realSize == CHUNK && realPeak == CHUNK
      ensures Valid()
    {
      hide Sound, Settled, Tables, SumUsable, SumHuge;
      NothingLive();
      NoHuge();
    }

    method InitChunk(base: int, key: Word8)
      requires ChunkBase(base)
      requires hm.Valid() && hm.pg == map[] && this !in hm.objs && freeSlot !in hm.objs && (freeSlot as object) != hm
      modifies this`s, this`mem, this`reserved, this`shadowKey, hm, hm.objs
      ensures Tables() && fresh(hm.objs - old(hm.objs)) && Sound(s) && Settled(s)
      ensures s.ring == [base] && s.huge == [] && s.cached == [] && s.live == map[] && s.slots == NoSlots()
      ensures base in s.pg && AllFree(s.pg[base].own, 1, PAGES)
    {
      hide Blank, FirstRun, PagesOK, Sound, Settled, Headers.Valid, ChunkBase, AddRegion, Span;
      shadowKey, mem, reserved := key, AddRegion(map[], base, CHUNK), {};
      hm.InitMain(base, base + HEAP_OFFSET);
      s := State(hm.pg, hm.ln, [base], [], NoSlots(), [], map[], mem, key);
      FirstHeap(s, base);
      FirstPagesFree(s, base);
    }

    method InitLists(base: int)
      modifies this`hugeList, this`mainChunk, this`cachedChunks, this`chunksCount, this`peakChunksCount, this`cachedChunksCount
      ensures hugeList == 0 && mainChunk == base && cachedChunks == 0
      ensures chunksCount == 1 && peakChunksCount == 1 && cachedChunksCount == 0
    {
      hugeList, mainChunk, cachedChunks := 0, base, 0;
      chunksCount, peakChunksCount, cachedChunksCount := 1, 1, 0;
    }

    method InitCounters()
      modifies this
      ensures size == 0 && peak == 0 && realSize == CHUNK && realPeak == CHUNK
      ensures limit == 0x7FFF_FFFF_FFFF_FFFF && !overflow && floating == 0 && refusals == 0
      ensures avgChunksCount == 1.0 && lastDeleteBoundary == lastDeleteCount == 0
    {
      size, peak, realSize, realPeak := 0, 0, CHUNK, CHUNK;
      limit, overflow := 0x7FFF_FFFF_FFFF_FFFF, false;
      avgChunksCount, lastDeleteBoundary, lastDeleteCount, floating, refusals := 1.0, 0, 0, 0, 0;
    }

    // ----- the operating system -----

    /** A fresh, zeroed region at a chunk boundary, or 0. Any address that the heap does
        not hold may be returned. */
    method OsPick(n: int) returns (p: int)
      requires 0 < n
      modifies this`refusals
      ensures refusals == old(refusals) + if p == 0 then 1 else 0
      ensures p != 0 ==> p % CHUNK == 0 && 0 < p && p + n <= ADDRESS_LIMIT
      ensures p != 0 ==> forall x :: p <= x < p + n ==> x !in mem && x !in reserved
    {
      p := *;
      if p <= 0 || p % CHUNK != 0 || p + n > ADDRESS_LIMIT || exists x | p <= x < p + n :: x in mem || x in reserved {
        p := 0;
      }
      if p == 0 { refusals := refusals + 1; }
    }

    /** A chunk-sized region that the heap uses at once. */
    method OsAlloc(n: int) returns (p: int)
      requires 0 < n && Clear(reserved, mem)
      modifies this`mem, this`refusals
      ensures refusals == old(refusals) + if p == 0 then 1 else 0
      ensures p == 0 ==> mem == old(mem)
      ensures p != 0 ==> p % CHUNK == 0 && 0 < p && p + n <= ADDRESS_LIMIT
      ensures p != 0 ==> mem == AddRegion(old(mem), p, n) && forall x :: p <= x < p + n ==> x !in old(mem)
      ensures Clear(reserved, mem)
    {
      p := OsPick(n);
      if p != 0 {
        ClearAdd(reserved, mem, p, n);
        mem := AddRegion(mem, p, n);
      }
    }

    /** A mapped region goes back. */
    method OsFree(p: int, n: int)
      requires Mapped(mem, p, n)
      modifies this`mem
      ensures mem == RemoveRegion(old(mem), p, n)
      ensures Clear(reserved, old(mem)) ==> Clear(reserved, mem)
    {
      if Clear(reserved, mem) { ClearRemove(reserved, mem, p, n); }
      mem := RemoveRegion(mem, p, n);
    }

    // ----- free slots -----

    /** The link of a free slot, after the check against its shadow. */
    method GetNextSlot(b: nat, p: int, ghost next: int) returns (r: int)
      requires b < BINS && LinkOK(mem, shadowKey, p, BinSize(b), next)
      ensures r == next
    {
      hide Load, Value, Encode, Decode, BinSize;
      r := LoadPtr(mem, p);
      if r != 0 {
        CheckPasses(mem, shadowKey, p, BinSize(b), next);
        assert Decode(shadowKey, p + BinSize(b) - 8, Load(mem, p + BinSize(b) - 8)) == r;   // ZEND_MM_CHECK
      }
    }

    method AddUsage(n: int)
      requires 0 <= n
      modifies this`size, this`peak
      ensures size == old(size) + n && peak == Larger(old(peak), size)
    {
      size := size + n;
      peak := if peak < size then size else peak;
    }

    /** The list of class `b` gets a new head. */
    method SetHead(b: nat, v: int, ghost list: seq<int>, ghost t: State)
      requires Heads(t.slots, t.ring, t.cached, t.huge) && b < BINS && |t.slots| == BINS && v == First(list)
      modifies freeSlot
      ensures Heads(t.slots[b := list], t.ring, t.cached, t.huge)
    {
      freeSlot[b] := v;
    }

    /** Fast path of a small allocation: the head of the free list. */
    method PopSlot(b: nat) returns (p: int)
      requires Ready() && 1 <= b < BINS && s.slots[b] != []
      modifies this`s, freeSlot
      ensures Ready() && p == old(s).slots[b][0] && p !in old(s).live
      ensures s == Pop(old(s), b)
    {
      hide Sound, Settled, LinkOK, BinSize, Headers.Valid, Clear;
      p := freeSlot[b];
      PopSound(s, b);
      var next := GetNextSlot(b, p, First(s.slots[b][1..]));
      freeSlot[b] := next;
      SettledSame(s, Pop(s, b));
      s := Pop(s, b);
    }

    method FreeSmall(p: int, b: nat)
      requires Ready() && b < BINS && p in s.live && s.live[p] == Small(b) && !IsNode(s.huge, p)
      modifies this`size, this`s, this`mem, freeSlot
      ensures Ready() && size == old(size) - BinSize(b)
      ensures 0 <= p && |old(s).slots| == BINS && 0 <= First(old(s).slots[b]) && s == Push(old(s), b, p)
      ensures SameLive(old(mem), mem, old(s).live, p)
    {
      hide Sound, Settled, LinkOK, BinSize, Headers.Valid, Clear, SameLive, SetNext, IsNode, BlockAt, ChunksWF, Mapped, BIN_SIZE;
      LiveSmall(s, b, p);
      PushSound(s, b, p);
      SettledSame(s, Push(s, b, p));
      ClearSame(reserved, mem, Push(s, b, p).mem);
      assert p != freeSlot[b];   // double-free check
      mem, size := SetNext(mem, shadowKey, p, BinSize(b), freeSlot[b]), size - BinSize(b);
      s := Push(s, b, p);
      freeSlot[b] := p;
    }

    // ----- chunks leave and join the lists -----

    /** Unlink chunk `k` of the ring, which is empty. */
    method UnlinkChunk(c: int, ghost k: nat)
      requires Tables() && Fields() && Sound(s) && 1 <= k < |s.ring| && c == s.ring[k]
      requires c in s.pg && EmptyChunk(s.pg[c])
      modifies this`s, hm.objs, hm`ln
      ensures TablesBut({c}) && Fields() && Sound(s) && hm.objs == old(hm.objs)
      ensures s == DropActive(old(s), k) && Spare(s, c) && hm.pg == old(hm.pg)
      ensures c in hm.pg && Blank(hm.pg[c].own) && |hm.pg[c].info| == PAGES
      ensures Quiet(old(s).pg) ==> Quiet(s.pg)
      ensures forall d :: d in old(hm.ln) <==> d in hm.ln
      ensures forall d :: d in hm.ln ==> hm.ln[d].num == old(hm.ln)[d].num
    {
      hide Sound, Headers.Valid, Clear, Spare, Blank, Quiet, Beside;
      DropActiveSound(s, k);
      assert hm.Get(hm.Get(c).next).prev == c && hm.Get(hm.Get(c).prev).next == c;   // ZEND_MM_CHECK
      hm.SetPrev(hm.Get(c).next, hm.Get(c).prev);
      hm.SetNext(hm.Get(c).prev, hm.Get(c).next);
      assert hm.ln == Unlink(s.ln, c);
      UnlinkKeys(s.ln, c);
      UnlinkNums(s.ln, c);
      hide Unlink;
      BesideFirst(hm.pg, c);
      BesideFirst(hm.ln, c);
      s := DropActive(s, k);
    }

    /** A chunk obtained from the operating system is accounted for. */
    method AddChunk(ghost active: int, ghost kept: int, ghost hugeSize: int)
      requires Account(active, kept, 0, hugeSize)
      modifies this`realSize, this`realPeak
      ensures Account(active, kept, 1, hugeSize) && realSize == old(realSize) + CHUNK
      ensures realPeak == Larger(old(realPeak), realSize)
    {
      realSize := realSize + CHUNK;
      realPeak := if realPeak < realSize then realSize else realPeak;
    }

    /** The link of a cached chunk, after the check against its shadow. */
    method GetNextCached(c: int, key: Word8, ghost cached: seq<int>, ghost k: nat) returns (r: int)
      requires hm.Valid() && k < |cached| && c == cached[k] && CachedAt(hm.ln, cached, key, k) && NextOf(cached, k) % CHUNK == 0
      ensures r == NextOf(cached, k)
    {
      hide Decode, Encode, Headers.Valid, Clear;
      DecodeEncode(key, c + SHADOW_OFFSET, NextOf(cached, k));
      r := Decode(key, c + SHADOW_OFFSET, hm.Get(c).shadow);
      assert r % CHUNK == 0 && hm.Get(c).next == r;   // ZEND_MM_CHECK
    }

    /** The first cached chunk leaves its list. */
    method PopCached(ghost off: set<int>) returns (c: int)
      requires TablesBut(off) && Fields() && Sound(s) && s.cached != []
      modifies this`s, this`cachedChunks
      ensures c == old(s).cached[0] && c !in off && TablesBut(off + {c}) && Fields() && Sound(s)
      ensures s == DropCached(old(s)) && Spare(s, c)
      ensures c in hm.pg && Blank(hm.pg[c].own) && |hm.pg[c].info| == PAGES
      ensures Quiet(old(s).pg) ==> Quiet(s.pg)
    {
      hide Sound, Headers.Valid, Clear, Spare, Blank, Quiet, Decode, Encode, Beside;
      c := cachedChunks;
      DropCachedSound(s);
      BesideAt(hm.pg, s.pg, off, c);
      BesideAt(hm.ln, s.ln, off, c);
      BesideDrop(hm.pg, s.pg, off, c);
      BesideDrop(hm.ln, s.ln, off, c);
      SpareAddress(DropCached(s), c);
      cachedChunks := GetNextCached(c, shadowKey, s.cached, 0);
      s := DropCached(s);
    }

    /** A chunk that is on no list goes back to the operating system. */
    method FreeChunk(ghost off: set<int>, c: int)
      requires TablesBut(off) && c in off && Fields() && Sound(s) && Spare(s, c)
      modifies this`s, this`mem, hm
      ensures TablesBut(off - {c}) && Fields() && Sound(s) && hm.objs == old(hm.objs) && hm.pg == old(hm.pg) - {c}
      ensures s == old(s).(mem := RemoveRegion(old(s).mem, c, CHUNK))
      ensures SameLive(old(s).mem, s.mem, s.live, 0)
    {
      hide Sound, Headers.Valid, Clear, Unused, SameLive, RemoveRegion, Spare, Beside;
      SpareAddress(s, c);
      BesideAt(hm.pg, s.pg, off, c);
      BesideRemove(hm.pg, s.pg, off, c);
      BesideRemove(hm.ln, s.ln, off, c);
      SpareUnused(s, c);
      UnmapSound(s, c, CHUNK);
      hm.Remove(c);
      OsFree(c, CHUNK);
      s := s.(mem := mem);
    }

    method SetNextCached(c: int, next: int)
      requires hm.Valid() && this !in hm.objs && c in hm.ln && 0 < c && 0 <= next
      modifies hm.objs, hm`ln
      ensures hm.Valid() && hm.objs == old(hm.objs)
      ensures hm.ln == old(hm.ln)[c := CachedLink(old(hm.ln)[c], shadowKey, c, next)]
    {
      hide Headers.Valid, Clear, Encode;
      hm.SetNext(c, next);
      var shadow := Encode(shadowKey, c + SHADOW_OFFSET, next);
      hm.SetShadow(c, shadow);
      ghost var l := old(hm.ln)[c];
      UpdateTwice(old(hm.ln), c, l.(next := next), l.(next := next).(shadow := shadow));
      assert l.(next := next).(shadow := shadow) == CachedLink(l, shadowKey, c, next);
    }

    /** A chunk that is on no list becomes the head of the cached list. */
    method CacheChunk(c: int)
      requires TablesBut({c}) && Fields() && Sound(s) && Spare(s, c)
      requires c in hm.pg && Blank(hm.pg[c].own) && |hm.pg[c].info| == PAGES
      modifies this`s, this`cachedChunks, hm.objs, hm`ln
      ensures Tables() && Fields() && Sound(s) && hm.objs == old(hm.objs)
      ensures SameActive(old(s), s) && s.cached == [c] + old(s).cached
    {
      hide Sound, Headers.Valid, Clear, Spare, Blank, Quiet, Encode, Beside, SameActive, CachedLink;
      SpareAddress(s, c);
      BesideAt(hm.ln, s.ln, {c}, c);
      FirstCachedAddress(s);
      ghost var l := CachedLink(hm.ln[c], shadowKey, c, cachedChunks);
      SetNextCached(c, cachedChunks);
      CachedLinkIs(old(hm.ln)[c], shadowKey, c, cachedChunks);
      PutInCacheSound(s, c, hm.pg[c], l);
      SamePut(s, c, hm.pg[c], l);
      PutOne(s, c, hm.pg[c], l);
      BesidePut(hm.pg, s.pg, c, hm.pg[c]);
      BesidePut(old(hm.ln), s.ln, c, l);
      s := PutInCache(s, c, hm.pg[c], l);
      cachedChunks := c;
    }

    /** The last part of zend_mm_delete_chunk: an unlinked chunk is cached, given back, or
        takes the place of the first cached one. */
    method RetireChunk(c: int)
      requires TablesBut({c}) && Fields() && Sound(s) && Spare(s, c)
      requires c in hm.pg && Blank(hm.pg[c].own) && |hm.pg[c].info| == PAGES
      requires Account(|s.ring|, |s.cached|, 1, HugeBytes())
      modifies this`s, this`mem, this`realSize, this`cachedChunks, this`cachedChunksCount,
        this`lastDeleteBoundary, this`lastDeleteCount, hm, hm.objs
      ensures Steady() && SameActive(old(s), s) && hm.objs == old(hm.objs) && realSize <= old(realSize)
      ensures Retired(c, old(chunksCount), avgChunksCount, old(hm.ln), old(Spares(s.cached, realSize, lastDeleteBoundary, lastDeleteCount)), Spares(s.cached, realSize, lastDeleteBoundary, lastDeleteCount))
    {
      hide Sound, Headers.Valid, Clear, Spare, Blank, Quiet, SameLive, SumHuge, RemoveRegion, Beside, SameActive, Heads, Account;
      NumbersKnown(c);
      CachedCount(1);
      if (chunksCount + cachedChunksCount) as real < avgChunksCount + 0.1
        || (chunksCount == lastDeleteBoundary && lastDeleteCount >= 4)
      {
        CountCached(|s.ring|, |s.cached|, HugeBytes());
        CacheChunk(c);
      } else {
        GiveChunk(c);
      }
    }

    /** The branch that gives a chunk back. */
    method GiveChunk(c: int)
      requires TablesBut({c}) && Fields() && Sound(s) && Spare(s, c)
      requires c in hm.pg && Blank(hm.pg[c].own) && |hm.pg[c].info| == PAGES
      requires c in hm.ln && (s.cached != [] ==> s.cached[0] in hm.ln)
      requires Account(|s.ring|, |s.cached|, 1, HugeBytes())
      modifies this`s, this`mem, this`realSize, this`cachedChunks, this`lastDeleteBoundary, this`lastDeleteCount, hm, hm.objs
      ensures Steady() && SameActive(old(s), s) && hm.objs == old(hm.objs) && realSize == old(realSize) - CHUNK
      ensures s.cached ==
        if old(s).cached == [] || old(hm.ln)[c].num > old(hm.ln)[old(s).cached[0]].num then old(s).cached
        else [c] + old(s).cached[1..]
      ensures lastDeleteBoundary == (if old(s).cached != [] then old(lastDeleteBoundary) else chunksCount)
      ensures lastDeleteCount == (if old(s).cached != [] then old(lastDeleteCount)
        else if chunksCount == old(lastDeleteBoundary) then old(lastDeleteCount) + 1 else 0)
    {
      hide Sound, Headers.Valid, Clear, Spare, Blank, Quiet, SameLive, SumHuge, RemoveRegion, Beside, SameActive, Heads, Account;
      FirstCached(s);
      CachedHead();
      CountFreed(|s.ring|, |s.cached|, HugeBytes());
      DisposeChunk(c);
    }

    lemma CachedCount(extra: int)
      requires Account(|s.ring|, |s.cached|, extra, HugeBytes())
      ensures cachedChunksCount == |s.cached| && chunksCount == |s.ring|
    {}

    lemma CachedHead()
      requires Fields()
      ensures cachedChunks == First(s.cached)
    {}

    lemma NumbersKnown(c: int)
      requires TablesBut({c}) && Sound(s)
      ensures c in hm.ln && (s.cached != [] ==> s.cached[0] in hm.ln)
    {
      hide Sound, Headers.Valid, Clear, Beside;
      FirstCached(s);
      BesideAt(hm.ln, s.ln, {c}, c);
      if s.cached != [] { BesideAt(hm.ln, s.ln, {c}, s.cached[0]); }
    }

    method CountCached(ghost active: int, ghost kept: int, ghost hugeSize: int)
      requires Account(active, kept, 1, hugeSize)
      modifies this`cachedChunksCount
      ensures Account(active, kept + 1, 0, hugeSize)
    {
      cachedChunksCount := cachedChunksCount + 1;
    }

    method CountFreed(ghost active: int, ghost kept: int, ghost hugeSize: int)
      requires Account(active, kept, 1, hugeSize)
      modifies this`realSize, this`lastDeleteBoundary, this`lastDeleteCount
      ensures Account(active, kept, 0, hugeSize) && realSize == old(realSize) - CHUNK
      ensures lastDeleteBoundary == (if cachedChunks != 0 then old(lastDeleteBoundary) else chunksCount)
      ensures lastDeleteCount == (if cachedChunks != 0 then old(lastDeleteCount)
        else if chunksCount == old(lastDeleteBoundary) then old(lastDeleteCount) + 1 else 0)
    {
      realSize := realSize - CHUNK;
      if cachedChunks == 0 { NoteDeletion(); }
    }

    /** Of an unlinked chunk and the first cached one, the younger goes back; the other one
        heads the cache. */
    method DisposeChunk(c: int)
      requires TablesBut({c}) && Fields() && Sound(s) && Spare(s, c)
      requires c in hm.pg && Blank(hm.pg[c].own) && |hm.pg[c].info| == PAGES
      requires c in hm.ln && (s.cached != [] ==> s.cached[0] in hm.ln)
      modifies this`s, this`mem, this`cachedChunks, hm, hm.objs
      ensures Tables() && Fields() && Sound(s) && hm.objs == old(hm.objs)
      ensures SameActive(old(s), s)
      ensures s.cached ==
        if old(s).cached == [] || old(hm.ln)[c].num > old(hm.ln)[old(s).cached[0]].num then old(s).cached
        else [c] + old(s).cached[1..]
    {
      hide Sound, Headers.Valid, Clear, Spare, Blank, Quiet, SameLive, RemoveRegion, Beside, SameActive;
      FirstCached(s);
      if cachedChunks == 0 {
        DiscardChunk(c);
      } else {
        BesideAt(hm.ln, s.ln, {c}, c);
        BesideAt(hm.ln, s.ln, {c}, cachedChunks);
        if hm.Get(c).num > hm.Get(cachedChunks).num {
          DiscardChunk(c);
        } else {
          ReplaceCached(c);
        }
      }
    }

    method NoteDeletion()
      modifies this`lastDeleteBoundary, this`lastDeleteCount
      ensures lastDeleteBoundary == chunksCount
      ensures lastDeleteCount == if chunksCount == old(lastDeleteBoundary) then old(lastDeleteCount) + 1 else 0
    {
      if chunksCount != lastDeleteBoundary {
        lastDeleteBoundary, lastDeleteCount := chunksCount, 0;
      } else {
        lastDeleteCount := lastDeleteCount + 1;
      }
    }

    method DiscardChunk(c: int)
      requires TablesBut({c}) && Fields() && Sound(s) && Spare(s, c)
      modifies this`s, this`mem, hm
      ensures Tables() && Fields() && Sound(s) && hm.objs == old(hm.objs)
      ensures SameActive(old(s), s) && s.cached == old(s).cached
    {
      hide Sound, Headers.Valid, Clear, Spare, Quiet, SameLive, RemoveRegion, SameActive, Beside;
      FreeChunk({c}, c);
      SameMem(old(s), s.mem);
      BesideNone(hm.pg, s.pg, {c} - {c});
      BesideNone(hm.ln, s.ln, {c} - {c});
    }

    /** Chunk `c` takes the place of the first cached chunk, which is given back. */
    method ReplaceCached(c: int)
      requires TablesBut({c}) && Fields() && Sound(s) && Spare(s, c)
      requires c in hm.pg && Blank(hm.pg[c].own) && |hm.pg[c].info| == PAGES
      requires s.cached != []
      modifies this`s, this`mem, this`cachedChunks, hm, hm.objs
      ensures Tables() && Fields() && Sound(s) && hm.objs == old(hm.objs)
      ensures SameActive(old(s), s) && s.cached == [c] + old(s).cached[1..]
    {
      hide Sound, Headers.Valid, Clear, Spare, Blank, Quiet, SameLive, RemoveRegion, Beside, SameActive;
      SameDrop(s) by { DropCachedSound(s); }
      var d := PopCached({c});
      SpareKept(old(s), s, c, d);
      SpareAddress(s, d);
      SpareAddress(s, c);
      ghost var t := s;
      assert {c} + {d} == {c, d};
      FreeChunk({c, d}, d);
      SameMem(t, s.mem);
      SpareKept(t, s, c, d);
      SameActiveChain(old(s), t, s);
      t := s;
      assert {c, d} - {d} == {c};
      CacheChunk(c);
      SameActiveChain(old(s), t, s);
    }

    /** zend_mm_delete_chunk */
    method DeleteChunk(c: int, ghost k: nat)
      requires Steady() && 1 <= k < |s.ring| && c == s.ring[k] && c in s.pg && EmptyChunk(s.pg[c])
      modifies this`s, this`mem, this`realSize, this`chunksCount, this`cachedChunks, this`cachedChunksCount,
        this`lastDeleteBoundary, this`lastDeleteCount, hm, hm.objs
      ensures Steady() && hm.objs == old(hm.objs) && realSize <= old(realSize)
      ensures SameActive(DropActive(old(s), k), s) && chunksCount == old(chunksCount) - 1
      ensures Retired(c, old(chunksCount) - 1, avgChunksCount, old(hm.ln), old(Spares(s.cached, realSize, lastDeleteBoundary, lastDeleteCount)), Spares(s.cached, realSize, lastDeleteBoundary, lastDeleteCount))
    {
      hide Sound, Headers.Valid, Clear, Spare, Blank, Quiet, SameActive, EmptyChunk, SumHuge, Retired, Heads, Beside;
      ghost var ln, a := hm.ln, Spares(s.cached, realSize, lastDeleteBoundary, lastDeleteCount);
      UnlinkChunk(c, k);
      chunksCount := chunksCount - 1;
      ghost var ln1 := hm.ln;
      RetireChunk(c);
      RetiredNums(c, chunksCount, avgChunksCount, ln1, ln, a, Spares(s.cached, realSize, lastDeleteBoundary, lastDeleteCount));
    }
  }

  lemma SettledSame(s: State, t: State)
    requires Settled(s) && t.pg == s.pg && t.ring == s.ring
    ensures Settled(t)
  {}

  /** A chunk that has just been taken into use holds no blocks. */
  lemma FirstRunEmpty(p: Pages)
    requires Blank(p.own) && |p.info| == PAGES
    ensures NoBlocksIn(FirstRun(p)) && EmptyChunk(FirstRun(p)) && PagesOK(FirstRun(p))
  {
    hide ElementAt, PagesOK;
    FirstRunOK(p);
  }

  function NoSlots(): (r: Slots)
    ensures |r| == BINS && forall b :: 0 <= b < BINS ==> r[b] == []
  {
    seq(BINS, _ => [])
  }

  lemma NoHuge()
    ensures SumHuge([]) == 0
  {}

  lemma NothingLive()
    ensures SumUsable(map[]) == 0
  {
    SumEmpty(ADDRESS_LIMIT);
  }

  lemma FirstHeap(s: State, base: int)
    requires ChunkBase(base) && s.pg.Keys == {base}
    requires exists p: Pages :: Blank(p.own) && |p.info| == PAGES && s.pg[base] == FirstRun(p)
    requires s.slots == NoSlots() && s.ring == [base] && s.cached == [] && s.huge == [] && s.live == map[]
    requires s.mem == AddRegion(map[], base, CHUNK)
    requires s.ln.Keys == {base} && s.ln[base].next == base && s.ln[base].prev == base && s.ln[base].heap == base + HEAP_OFFSET
    ensures Sound(s) && Settled(s)
  {
    hide LiveInv, ChunksOK, Lists, LinksOK, RegionsOK;
    FirstBlocks(s, base);
    FirstMemory(s, base);
    FirstLinks(s, base);
  }

  lemma FirstPagesFree(s: State, base: int)
    requires base in s.pg && exists p: Pages :: Blank(p.own) && |p.info| == PAGES && s.pg[base] == FirstRun(p)
    ensures AllFree(s.pg[base].own, 1, PAGES)
  {}

  lemma FirstBlocks(s: State, base: int)
    requires ChunkBase(base) && s.pg.Keys == {base}
    requires exists p: Pages :: Blank(p.own) && |p.info| == PAGES && s.pg[base] == FirstRun(p)
    requires s.slots == NoSlots() && s.ring == [base] && s.cached == [] && s.live == map[]
    ensures LiveInv(s.pg, s.slots, s.live) && ChunksOK(s.pg, s.ring, s.cached) && Settled(s)
  {
    hide BlockIn, HeadIn, Full, PagesOK, ChunkBase, Blank, FirstRun;
    var p: Pages :| Blank(p.own) && |p.info| == PAGES && s.pg[base] == FirstRun(p);
    FirstRunEmpty(p);
    assert forall a :: BlockAt(s.pg, a) == NoBlock;
    hide BlockAt;
    forall b | 0 <= b < BINS ensures OnList(s.pg, s.slots, b) {}
  }

  lemma FirstMemory(s: State, base: int)
    requires s.pg.Keys == {base} && s.huge == [] && s.mem == AddRegion(map[], base, CHUNK)
    requires s.slots == NoSlots()
    ensures RegionsOK(s.mem, s.pg, s.huge) && Lists(s.mem, s.key, s.slots)
  {
    forall b | 0 <= b < BINS ensures Chain(s.mem, s.key, BinSize(b), s.slots[b]) { EmptyChain(s.mem, s.key, BinSize(b)); }
  }

  lemma FirstLinks(s: State, base: int)
    requires s.pg.Keys == {base} && s.ring == [base] && s.cached == []
    requires s.ln.Keys == {base} && s.ln[base].next == base && s.ln[base].prev == base && s.ln[base].heap == base + HEAP_OFFSET
    ensures LinksOK(s.pg, s.ln, s.ring, s.cached, s.key)
  {
    assert Linked(s.ln, s.ring, 0);
  }

  lemma EmptyChain(m: Mem, key: Word8, sz: int)
    ensures Chain(m, key, sz, [])
  {}
}
