/** What callers may do with their blocks: blocks never overlap, and writing into one
    disturbs neither the heap nor any other block. */
module Writes {
  import opened Sizes
  import opened Pages
  import opened Memory
  import opened Blocks
  import opened Live
  import opened FreeLists
  import opened Rings
  import opened HeapModel
  import opened HeapState
  import opened HugeSteps
  import opened Collecting
  import opened HeapCalls

  /** Two different live blocks, of whatever kinds, do not overlap. */
  lemma LiveApart(s: State, a: int, b: int)
    requires Sound(s) && a in s.live && b in s.live && a != b
    ensures Apart(a, Usable(s.live[a]), b, Usable(s.live[b]))
  {
    hide Sound, Usable;
    if s.live[a].Huge? {
      HugeApart(s, a, b);
    } else if s.live[b].Huge? {
      HugeApart(s, b, a);
    } else {
      ChunkBlock(s, a);
      ChunkBlock(s, b);
      if a < b { BlocksApart(s.pg, a, b); } else { BlocksApart(s.pg, b, a); }
    }
  }

  lemma ChunkBlock(s: State, a: int)
    requires Sound(s) && a in s.live && !s.live[a].Huge?
    ensures ChunksWF(s.pg) && BlockAt(s.pg, a) == s.live[a] && s.live[a] != NoBlock
    ensures Base(a) in s.pg && Base(a) <= a && a + Usable(s.live[a]) <= Base(a) + CHUNK && Mapped(s.mem, a, Usable(s.live[a]))
    ensures forall b :: 0 <= b < BINS && b < |s.slots| ==> a !in s.slots[b]
    ensures |s.slots| == BINS
  {
    hide Lists, HugeLive, NodesOK, LinksOK, ChunksOK, OnList, HeadInfo, Full, ChunksWF, BlockAt, Usable, Mapped;
    ChunksAreWF(s.pg, s.ring, s.cached);
    assert Owned(s.pg, s.slots, s.live, a);
    BlockInChunk(s.pg, a);
    MappedPart(s.mem, Base(a), CHUNK, a, Usable(s.live[a]));
    forall b | 0 <= b < BINS ensures a !in s.slots[b] { LiveNotFree(s.pg, s.slots, s.live, a, b); }
  }

  lemma HugeAt(s: State, a: int) returns (i: nat)
    requires Sound(s) && a in s.live && s.live[a].Huge?
    ensures i < |s.huge| && s.huge[i].ptr == a && Usable(s.live[a]) == s.huge[i].size
    ensures forall c :: c in s.pg ==> Apart(a, Usable(s.live[a]), c, CHUNK)
    ensures forall j :: 0 <= j < |s.huge| && j != i ==> Apart(a, Usable(s.live[a]), s.huge[j].ptr, s.huge[j].size)
  {
    hide LiveInv, Lists, NodesOK, LinksOK, ChunksOK, HugeRegion, Mapped;
    assert IsHuge(s.huge, a);
    i :| i < |s.huge| && s.huge[i].ptr == a;
  }

  lemma HugeApart(s: State, a: int, b: int)
    requires Sound(s) && a in s.live && b in s.live && a != b && s.live[a].Huge?
    ensures Apart(a, Usable(s.live[a]), b, Usable(s.live[b]))
  {
    hide Sound, Usable;
    var i := HugeAt(s, a);
    if s.live[b].Huge? {
      var j := HugeAt(s, b);
    } else {
      ChunkBlock(s, b);
      assert Apart(a, Usable(s.live[a]), Base(b), CHUNK);
    }
  }

  /** A write inside live block `a` keeps the bytes of every other live block. */
  lemma OtherLiveBytes(s: State, m2: Mem, a: int)
    requires Sound(s) && a in s.live && OnlyInside(s.mem, m2, a, Usable(s.live[a]))
    ensures SameLive(s.mem, m2, s.live, a)
  {
    hide Sound, Usable, OnlyInside, SameBytes;
    forall x | x in s.live && x != a ensures SameBytes(s.mem, m2, x, Usable(s.live[x])) {
      LiveApart(s, x, a);
      InsideElsewhere(s.mem, m2, a, Usable(s.live[a]), x, Usable(s.live[x]));
    }
  }

  /** A write inside a huge block keeps the free lists. */
  lemma HugeWriteLists(s: State, m2: Mem, a: int)
    requires Sound(s) && a in s.live && s.live[a].Huge? && OnlyInside(s.mem, m2, a, Usable(s.live[a]))
    ensures Lists(m2, s.key, s.slots)
  {
    var i := HugeAt(s, a);
    assert |s.slots| == BINS && Lists(s.mem, s.key, s.slots);
    ChunksAreWF(s.pg, s.ring, s.cached);
    hide Sound, Usable, OnlyInside, SameBytes, Chain, BinSize, Mapped, ChunksWF, BlockAt;
    forall b | 0 <= b < BINS ensures Chain(m2, s.key, BinSize(b), s.slots[b]) {
      forall j | 0 <= j < |s.slots[b]| ensures SameBytes(s.mem, m2, s.slots[b][j], BinSize(b)) {
        ListedFacts(s, b, s.slots[b][j]);
        BlockInChunk(s.pg, s.slots[b][j]);
        SmallUsable(b);
        assert Apart(a, Usable(s.live[a]), Base(s.slots[b][j]), CHUNK);
        InsideElsewhere(s.mem, m2, a, Usable(s.live[a]), s.slots[b][j], BinSize(b));
      }
      ChainSame(s.mem, m2, s.key, BinSize(b), s.slots[b]);
    }
  }

  /** A write inside a block that a caller holds keeps the heap sound. */
  lemma WriteSound(s: State, m2: Mem, a: int)
    requires Sound(s) && a in s.live && !IsNode(s.huge, a) && OnlyInside(s.mem, m2, a, Usable(s.live[a]))
    ensures Sound(s.(mem := m2)) && SameLive(s.mem, m2, s.live, a) && m2.Keys == s.mem.Keys
  {
    OtherLiveBytes(s, m2, a);
    InsideSameKeys(s.mem, m2, a, Usable(s.live[a]));
    RegionsKept(s.mem, m2, s.pg, s.huge);
    hide SameLive, IsNode, Usable, OnlyInside, LiveInv, HugeLive, ChunksOK, LinksOK, BlockAt, BinSize, Chain;
    NodesKept(s.mem, m2, s.huge, s.live, a);
    if s.live[a].Huge? {
      HugeWriteLists(s, m2, a);
    } else {
      ChunkBlock(s, a);
      WriteKeepsLists(s.pg, s.slots, s.live, s.huge, s.key, s.mem, m2, a);
    }
  }

  // ----- memcpy -----

  /** The `n` bytes from address `a`. */
  function Bytes(m: Mem, a: int, n: nat): (r: seq<bv8>)
    requires Mapped(m, a, n)
    ensures |r| == n && forall i :: 0 <= i < n ==> r[i] == m[a + i]
  {
    seq(n, i requires 0 <= i < n && Mapped(m, a, n) => m[a + i])
  }

  /** The first `n` bytes at `r` in `m2` are those at `p` in `m`. */
  ghost predicate SamePrefix(m: Mem, p: int, m2: Mem, r: int, n: nat) {
    Mapped(m, p, n) && Mapped(m2, r, n) && Bytes(m2, r, n) == Bytes(m, p, n)
  }

  lemma BytesSame(m: Mem, m2: Mem, a: int, n: nat)
    requires Mapped(m, a, n) && SameBytes(m, m2, a, n)
    ensures Mapped(m2, a, n) && Bytes(m2, a, n) == Bytes(m, a, n)
  {}

  lemma BytesPart(m: Mem, a: int, n: nat, k: nat)
    requires Mapped(m, a, n) && k <= n
    ensures Mapped(m, a, k) && Bytes(m, a, k) == Bytes(m, a, n)[..k]
  {}

  lemma CopyPrefix(m: Mem, r: int, p: int, n: nat)
    requires Mapped(m, p, n) && Mapped(m, r, n)
    ensures SamePrefix(m, p, Copy(m, r, p, n), r, n) && OnlyInside(m, Copy(m, r, p, n), r, n)
  {
    var m2 := Copy(m, r, p, n);
    MappedKept(m, m2, r, n);
    forall i | 0 <= i < n ensures Bytes(m2, r, n)[i] == Bytes(m, p, n)[i] {
      assert r + i in m;
    }
  }

  lemma PartSame(m: Mem, m2: Mem, a: int, k: nat, n: nat)
    requires SameBytes(m, m2, a, k) && n <= k
    ensures SameBytes(m, m2, a, n)
  {}

  lemma PrefixLater(m: Mem, p: int, m2: Mem, r: int, m3: Mem, n: nat, k: nat)
    requires SamePrefix(m, p, m2, r, n) && SameBytes(m2, m3, r, k) && n <= k
    ensures SamePrefix(m, p, m3, r, n)
  {
    hide Mapped, SameBytes, Bytes;
    PartSame(m2, m3, r, k, n);
    BytesSame(m2, m3, r, n);
  }

  lemma PrefixEarlier(m: Mem, m2: Mem, p: int, m3: Mem, r: int, n: nat, k: nat)
    requires SamePrefix(m2, p, m3, r, n) && SameBytes(m, m2, p, k) && n <= k && Mapped(m, p, k)
    ensures SamePrefix(m, p, m3, r, n)
  {
    hide SameBytes, Bytes;
    PartSame(m, m2, p, k, n);
    BytesSame(m, m2, p, n);
  }
}
