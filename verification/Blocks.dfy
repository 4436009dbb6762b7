/** Blocks: what the page labels say about every address, and how the blocks of all
    chunks are split into live ones and entries of the free lists. */
module Blocks {
  import opened Sizes
  import opened Pages
  import opened Memory

  datatype Block = NoBlock | Small(bin: nat) | Large(pages: nat) | Huge(size: nat)

  /** Usable size of a block. */
  function Usable(k: Block): nat {
    match k
    case NoBlock => 0
    case Small(b) => if b < BINS then BinSize(b) else 0
    case Large(n) => n * PAGE
    case Huge(n) => n
  }

  function Base(p: int): int { p - p % CHUNK }

  function PageOf(p: int): int { p % CHUNK / PAGE }

  /** Address of page `s` of chunk `c`. */
  function PageAddr(c: int, s: int): int { c + s * PAGE }

  lemma AddressParts(c: int, off: int)
    requires c % CHUNK == 0 && 0 <= off < CHUNK
    ensures Base(c + off) == c && (c + off) % CHUNK == off && PageOf(c + off) == off / PAGE
  {}

  /** Offset `off` in a run of class `b` is the start of an element. */
  predicate ElementAt(off: int, b: nat)
    requires b < BINS
  {
    BinFacts(b);
    0 <= off < BinSize(b) * BinElements(b) && off % BinSize(b) == 0
  }

  /** The block that starts at offset `off` of the chunk at page state `p`. */
  function BlockIn(p: Pages, off: int): Block {
    if |p.own| == |p.info| == PAGES && 0 <= off < CHUNK && 1 <= p.own[off / PAGE] < PAGES then
      var s := p.own[off / PAGE];
      match p.info[s]
      case LRun(n) => if off == s * PAGE then Large(n) else NoBlock
      case SRun(b, _) => if b < BINS && ElementAt(off - s * PAGE, b) then Small(b) else NoBlock
      case _ => NoBlock
    else NoBlock
  }

  /** The block that starts at address `a`, as the chunk's labels tell it. */
  function BlockAt(pg: map<int, Pages>, a: int): Block {
    if Base(a) in pg then BlockIn(pg[Base(a)], a % CHUNK) else NoBlock
  }

  // ----- elements of one run -----

  /** Element `k` of a run of class `b` starts at this offset in the run. */
  function ElementOffset(b: nat, k: nat): int
    requires b < BINS
  {
    k * BinSize(b)
  }

  lemma MultipleGap(x: int, y: int, d: int)
    requires 0 < d && x % d == 0 && y % d == 0 && x < y
    ensures x + d <= y
  {
    var i, j := x / d, y / d;
    assert x == d * i && y == d * j;
    MulOrder(d, i, j);
    MulOrder(d, j, i);
  }

  lemma ElementsApart(b: nat, x: int, y: int)
    requires b < BINS && ElementAt(x, b) && ElementAt(y, b) && x < y
    ensures x + BinSize(b) <= y
  {
    hide BinSize, BinElements;
    BinFacts(b);
    MultipleGap(x, y, BinSize(b));
  }

  lemma ElementInside(b: nat, x: int)
    requires b < BINS && ElementAt(x, b)
    ensures 0 <= x && x + BinSize(b) <= BinSize(b) * BinElements(b) <= BinPages(b) * PAGE
  {
    hide BinSize, BinElements, BinPages;
    BinFacts(b);
    var d, n := BinSize(b), BinElements(b);
    assert (d * n) % d == 0 by { MulMod(n, d); }
    MultipleGap(x, d * n, d);
  }

  lemma MulSign(d: int, m: int)
    requires 0 < d
    ensures m >= 1 ==> d * m >= d
    ensures m <= -1 ==> d * m <= -d
  {}

  lemma SmallMultiple(d: int, m: int)
    requires 0 < d && -d < d * m < d
    ensures m == 0
  {
    MulSign(d, m);
  }

  lemma MulMod(k: int, d: int)
    requires 0 < d
    ensures (d * k) % d == 0
  {
    var q, r := (d * k) / d, (d * k) % d;
    assert d * (k - q) == r;
    SmallMultiple(d, k - q);
  }

  lemma MulOrder(d: int, i: int, j: int)
    requires 0 < d
    ensures i <= j ==> d * i <= d * j
    ensures i < j ==> d * i + d <= d * j
  {
    MulSign(d, j - i);
    assert d * (j - i) == d * j - d * i;
  }

  lemma ElementIs(b: nat, k: nat)
    requires b < BINS && k < BinElements(b)
    ensures ElementAt(ElementOffset(b, k), b)
  {
    hide BinSize, BinElements;
    BinFacts(b);
    var d := BinSize(b);
    MulMod(k, d);
    MulOrder(d, k, BinElements(b));
  }

  lemma ElementNumber(b: nat, x: int) returns (k: nat)
    requires b < BINS && ElementAt(x, b)
    ensures k < BinElements(b) && x == ElementOffset(b, k)
  {
    hide BinSize, BinElements;
    BinFacts(b);
    var d := BinSize(b);
    k := x / d;
    assert x == d * k;
    MulOrder(d, BinElements(b), k);
  }

  // ----- blocks and runs -----

  ghost predicate PagesWF(p: Pages) {
    RunsOK(p) || (Blank(p.own) && |p.info| == PAGES)
  }

  /** The run that holds offset `off`. */
  ghost predicate RunOf(p: Pages, off: int, s: int) {
    && |p.own| == |p.info| == PAGES && 0 <= off < CHUNK
    && s == p.own[off / PAGE] && 1 <= s <= off / PAGE
    && off / PAGE < s + RunLen(p.info[s]) <= PAGES && p.own[s] == s
  }

  lemma BlockRun(p: Pages, off: int)
    requires PagesWF(p) && 0 <= off < CHUNK && BlockIn(p, off) != NoBlock
    ensures RunOf(p, off, p.own[off / PAGE])
    ensures var s := p.own[off / PAGE]; InOwnRun(p, s) && InOwnRun(p, off / PAGE)
    ensures !BlockIn(p, off).Huge?
  {
    hide CountFree, ElementAt, Blank;
    assert RunsOK(p) by { NotBlank(p, off); }
    var q := off / PAGE;
    assert InOwnRun(p, q);
    assert InOwnRun(p, p.own[q]);
  }

  lemma NotBlank(p: Pages, off: int)
    requires PagesWF(p) && 0 <= off < CHUNK && BlockIn(p, off) != NoBlock
    ensures RunsOK(p)
  {
    hide RunsOK, ElementAt;
  }

  lemma BlockInside(p: Pages, off: int)
    requires PagesWF(p) && 0 <= off < CHUNK && BlockIn(p, off) != NoBlock
    ensures var s := p.own[off / PAGE]; var n := RunLen(p.info[s]);
      && RunOf(p, off, s)
      && s * PAGE <= off && off + Usable(BlockIn(p, off)) <= (s + n) * PAGE
      && 0 < Usable(BlockIn(p, off))
  {
    hide RunsOK, Blank, BinSize, BinElements, BinPages, ElementAt;
    BlockRun(p, off);
    var s := p.own[off / PAGE];
    if p.info[s].SRun? {
      BinFacts(p.info[s].bin);
      ElementInside(p.info[s].bin, off - s * PAGE);
    }
  }

  /** Different runs own different pages, so they are disjoint. */
  lemma RunsApart(p: Pages, s: int, t: int)
    requires PagesWF(p) && |p.own| == |p.info| == PAGES
    requires 1 <= s < t < PAGES && p.own[s] == s && p.own[t] == t
    ensures s + RunLen(p.info[s]) <= t
  {
    hide CountFree;
    assert RunsOK(p);
  }

  lemma BlocksInApart(p: Pages, x: int, y: int)
    requires PagesWF(p) && 0 <= x < y < CHUNK
    requires BlockIn(p, x) != NoBlock && BlockIn(p, y) != NoBlock
    ensures x + Usable(BlockIn(p, x)) <= y
  {
    hide RunsOK, Blank, PagesWF, BinSize, BinElements, BinPages, ElementAt;
    BlockInside(p, x);
    BlockInside(p, y);
    var s, t := p.own[x / PAGE], p.own[y / PAGE];
    if s == t {
      assert p.info[s].SRun?;
      ElementsApart(p.info[s].bin, x - s * PAGE, y - s * PAGE);
    } else if s < t {
      RunsApart(p, s, t);
    } else {
      RunsApart(p, t, s);
    }
  }

  ghost predicate ChunkBase(c: int) {
    c % CHUNK == 0 && 0 < c && c + CHUNK <= ADDRESS_LIMIT
  }

  ghost predicate ChunksWF(pg: map<int, Pages>) {
    forall c :: c in pg ==> ChunkBase(c) && PagesWF(pg[c])
  }

  /** No two blocks overlap, whatever chunks, runs and classes they belong to. */
  lemma BlocksApart(pg: map<int, Pages>, a: int, b: int)
    requires ChunksWF(pg) && a < b && BlockAt(pg, a) != NoBlock && BlockAt(pg, b) != NoBlock
    ensures a + Usable(BlockAt(pg, a)) <= b
  {
    hide PagesWF, BlockIn, Usable;
    var c, d := Base(a), Base(b);
    if c == d {
      BlocksInApart(pg[c], a % CHUNK, b % CHUNK);
    } else {
      BlockInChunk(pg, a);
    }
  }

  /** A block lies in the pages of its chunk after the header page. */
  lemma BlockInChunk(pg: map<int, Pages>, a: int)
    requires ChunksWF(pg) && BlockAt(pg, a) != NoBlock
    ensures Base(a) in pg && 0 < Base(a) && Base(a) + PAGE <= a && 0 < Usable(BlockAt(pg, a))
    ensures a + Usable(BlockAt(pg, a)) <= Base(a) + CHUNK <= ADDRESS_LIMIT
  {
    hide PagesWF, BlockIn, Usable;
    BlockInside(pg[Base(a)], a % CHUNK);
  }

  // ----- what each page operation does to the blocks of its chunk -----

  lemma TakeBlocks(p: Pages, s: nat, n: nat, off: int)
    requires RunsOK(p) && 1 <= s && 1 <= n && s + n <= PAGES && AllFree(p.own, s, s + n)
    requires 0 <= off < CHUNK
    ensures BlockIn(p, s * PAGE) == NoBlock
    ensures BlockIn(TakeRun(p, s, n), off) == if off == s * PAGE then Large(n) else BlockIn(p, off)
  {
    hide CountFree, ElementAt, RunsOK, AllFree;
    RunsLength(p);
    FreePage(p.own, s, s + n, s);
    if s <= off / PAGE < s + n { FreePage(p.own, s, s + n, off / PAGE); }
    if 0 <= p.own[off / PAGE] { HeadOutside(p, s, s + n, off / PAGE); }
  }

  lemma RunsLength(p: Pages)
    requires RunsOK(p)
    ensures |p.own| == |p.info| == PAGES
  {}

  lemma FreePage(own: seq<int>, s: int, e: int, q: int)
    requires AllFree(own, s, e) && s <= q < e && 0 <= q < |own|
    ensures own[q] < 0
  {}

  lemma HeadOutside(p: Pages, s: int, e: int, q: int)
    requires RunsOK(p) && AllFree(p.own, s, e) && 0 <= q < PAGES && 0 <= p.own[q]
    ensures !(s <= p.own[q] < e) && p.own[q] <= q
  {
    hide CountFree, Continues;
    assert InOwnRun(p, q);
  }

  lemma FreeBlocks(p: Pages, s: nat, n: nat, off: int)
    requires RunsOK(p) && 1 <= s < PAGES && p.own[s] == s && n == RunLen(p.info[s])
    requires 0 <= off < CHUNK
    ensures BlockIn(FreeRun(p, s, n), off) ==
      if s * PAGE <= off < (s + n) * PAGE then NoBlock else BlockIn(p, off)
  {
    hide CountFree, ElementAt, Continues;
    assert InOwnRun(p, s);
    if 0 <= p.own[off / PAGE] { assert InOwnRun(p, off / PAGE); }
  }

  lemma LargeBlock(p: Pages, s: nat, n: nat, off: int)
    requires RunsOK(p) && 1 <= s < PAGES && p.own[s] == s && p.info[s] == LRun(n)
    ensures s + n <= PAGES && 1 <= n
    ensures BlockIn(p, s * PAGE) == Large(n)
    ensures s * PAGE < off < (s + n) * PAGE ==> BlockIn(p, off) == NoBlock
  {
    hide CountFree, ElementAt, Continues;
    assert InOwnRun(p, s);
  }

  lemma ShrinkBlocks(p: Pages, s: nat, n: nat, m: nat, off: int)
    requires RunsOK(p) && 1 <= s < PAGES && p.own[s] == s && p.info[s] == LRun(n) && 1 <= m < n
    requires 0 <= off < CHUNK
    ensures BlockIn(ShrinkRun(p, s, n, m), off) == if off == s * PAGE then Large(m) else BlockIn(p, off)
  {
    hide CountFree, ElementAt, Continues;
    assert InOwnRun(p, s);
    if 0 <= p.own[off / PAGE] { assert InOwnRun(p, off / PAGE); }
  }

  lemma GrowBlocks(p: Pages, s: nat, n: nat, m: nat, off: int)
    requires RunsOK(p) && 1 <= s < PAGES && p.own[s] == s && p.info[s] == LRun(n) && n < m
    requires s + m <= PAGES && AllFree(p.own, s + n, s + m)
    requires 0 <= off < CHUNK
    ensures BlockIn(GrowRun(p, s, n, m), off) == if off == s * PAGE then Large(m) else BlockIn(p, off)
  {
    hide CountFree, ElementAt, Continues;
    assert InOwnRun(p, s);
    if 0 <= p.own[off / PAGE] { assert InOwnRun(p, off / PAGE); }
  }

  lemma SmallBlocks(p: Pages, s: nat, b: nat, off: int)
    requires RunsOK(p) && b < BINS && 1 <= s < PAGES && p.own[s] == s && p.info[s] == LRun(BinPages(b))
    requires 0 <= off < CHUNK
    ensures BlockIn(MakeSmall(p, s, b), off) ==
      if s * PAGE <= off < (s + BinPages(b)) * PAGE
      then (if ElementAt(off - s * PAGE, b) then Small(b) else NoBlock)
      else BlockIn(p, off)
  {
    hide CountFree, ElementAt, Continues, BinPages;
    assert InOwnRun(p, s);
    if 0 <= p.own[off / PAGE] { assert InOwnRun(p, off / PAGE); }
  }

  lemma CounterBlocks(p: Pages, r: Pages, off: int)
    requires SameButCounters(p, r)
    ensures BlockIn(r, off) == BlockIn(p, off)
  {
    hide ElementAt;
  }

  /** The label of the run that holds an address. */
  function HeadInfo(pg: map<int, Pages>, a: int): PageInfo {
    if Base(a) in pg then HeadIn(pg[Base(a)], a % CHUNK) else FRun
  }

  function HeadIn(p: Pages, off: int): PageInfo {
    if |p.own| == |p.info| == PAGES && 0 <= off < CHUNK && 0 <= p.own[off / PAGE] < PAGES
    then p.info[p.own[off / PAGE]] else FRun
  }

  lemma SweptBlocks(p: Pages, r: Pages, off: int)
    requires RunsOK(p) && SweptTo(p, r, PAGES)
    requires 0 <= off < CHUNK
    ensures BlockIn(r, off) == if Full(HeadIn(p, off)) then NoBlock else BlockIn(p, off)
  {
    hide CountFree, ElementAt, Continues, Full;
    if 0 <= p.own[off / PAGE] {
      assert InOwnRun(p, off / PAGE);
      assert InOwnRun(p, p.own[off / PAGE]);
    }
  }

  // ----- live blocks and free lists -----

  type Slots = seq<seq<int>>

  ghost predicate NoDup(s: seq<int>) {
    forall i, j :: 0 <= i < j < |s| ==> s[i] != s[j]
  }

  /** Every block of the chunks is live or is a free element on the list of its class, never
      both. While the collector runs, elements of runs it has counted as full may be neither. */
  ghost predicate Owned(pg: map<int, Pages>, slots: Slots, live: map<int, Block>, a: int) {
    match BlockAt(pg, a)
    case NoBlock => a !in live || live[a].Huge?
    case Small(b) =>
      b < BINS && |slots| == BINS &&
      (if a in live then live[a] == Small(b) && a !in slots[b] else a in slots[b] || Full(HeadInfo(pg, a)))
    case Large(n) => a in live && live[a] == Large(n)
    case Huge(_) => false
  }

  ghost predicate OnList(pg: map<int, Pages>, slots: Slots, b: int)
    requires |slots| == BINS && 0 <= b < BINS
  {
    NoDup(slots[b]) && forall i :: 0 <= i < |slots[b]| ==> BlockAt(pg, slots[b][i]) == Small(b)
  }

  ghost predicate LiveInv(pg: map<int, Pages>, slots: Slots, live: map<int, Block>) {
    && |slots| == BINS
    && (forall a :: Owned(pg, slots, live, a))
    && (forall b :: 0 <= b < BINS ==> OnList(pg, slots, b))
    && (forall a :: a in live && live[a].Huge? ==> a % CHUNK == 0)
    && (forall a :: a in live ==> live[a] != NoBlock)
  }

  lemma BlockAtUpdate(pg: map<int, Pages>, c: int, r: Pages, a: int)
    ensures BlockAt(pg[c := r], a) == if Base(a) == c then BlockIn(r, a % CHUNK) else BlockAt(pg, a)
    ensures HeadInfo(pg[c := r], a) == if Base(a) == c then HeadIn(r, a % CHUNK) else HeadInfo(pg, a)
  {
    hide BlockIn, HeadIn;
  }

  /** No counter is pending: the state between collector runs. */
  ghost predicate Quiet(pg: map<int, Pages>) {
    forall a :: BlockAt(pg, a).Small? ==> HeadInfo(pg, a) == SRun(BlockAt(pg, a).bin, 0)
  }

  /** A page operation that changes the block at one address only. */
  lemma OneBlockChanged(pg: map<int, Pages>, pg2: map<int, Pages>, slots: Slots, live: map<int, Block>, a: int, k: Block)
    requires LiveInv(pg, slots, live)
    requires forall x :: x != a ==> BlockAt(pg2, x) == BlockAt(pg, x)
    requires forall x :: BlockAt(pg, x).Small? ==> HeadInfo(pg2, x) == HeadInfo(pg, x)
    requires BlockAt(pg2, a) == k && !k.Small? && !k.Huge?
    requires !BlockAt(pg, a).Small? && a % CHUNK != 0
    ensures LiveInv(pg2, slots, if k.Large? then live[a := k] else live - {a})
    ensures Quiet(pg) ==> Quiet(pg2)
  {
    hide BlockAt, HeadInfo, Full;
    var live2 := if k.Large? then live[a := k] else live - {a};
    assert Owned(pg, slots, live, a);
    forall x ensures Owned(pg2, slots, live2, x) {
      assert Owned(pg, slots, live, x);
    }
    forall b | 0 <= b < BINS ensures OnList(pg2, slots, b) {
      assert OnList(pg, slots, b);
    }
  }
}
