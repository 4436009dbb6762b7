/** The pages of one chunk: which run owns each page, what the page map says, and the
    two summary numbers. Everything here is a value; class `Chunk` keeps such a value
    in its bitmap and its page map. */
module Pages {
  import opened Sizes

  /** A page label. `SRun` and `LRun` sit on the first page of a run, `NRun` on the
      further pages of a small run. The counter is used by the collector only. */
  datatype PageInfo =
    | FRun
    | LRun(pages: nat)
    | SRun(bin: nat, counter: nat)
    | NRun(bin: nat, offset: nat)

  /** `own[q]` is the first page of the run that holds page `q`, or -1 when `q` is free. */
  datatype Pages = Pages(own: seq<int>, info: seq<PageInfo>, freePages: int, freeTail: int)

  ghost predicate HeadLabel(i: PageInfo) {
    i.LRun? || (i.SRun? && i.bin < BINS)
  }

  ghost function RunLen(i: PageInfo): nat {
    match i
    case LRun(n) => n
    case SRun(b, _) => if b < BINS then BinPages(b) else 0
    case _ => 0
  }

  /** Page `q` lies in the run that owns it. */
  ghost predicate InOwnRun(p: Pages, q: int)
    requires |p.own| == |p.info| == PAGES
    requires 0 <= q < PAGES
  {
    var s := p.own[q];
    0 <= s <= q < s + RunLen(p.info[s]) <= PAGES && p.own[s] == s && HeadLabel(p.info[s])
  }

  ghost predicate Continues(p: Pages, q: int)
    requires |p.own| == |p.info| == PAGES
    requires 0 <= q < PAGES && 0 <= p.own[q] < PAGES
  {
    var s := p.own[q];
    s < q && p.info[s].SRun? ==> p.info[q] == NRun(p.info[s].bin, q - s)
  }

  /** The runs partition the marked pages, and labels agree with them where they carry
      meaning: on first pages, and on the further pages of small runs. */
  ghost predicate RunsOK(p: Pages) {
    && |p.own| == |p.info| == PAGES
    && (forall q :: 0 <= q < PAGES ==> -1 <= p.own[q])
    && (forall q :: 0 <= q < PAGES && 0 <= p.own[q] ==> InOwnRun(p, q) && Continues(p, q))
    && (forall s, q :: 0 <= s <= q < PAGES && p.own[s] == s && q < s + RunLen(p.info[s]) ==> p.own[q] == s)
    && p.own[0] == 0 && p.info[0] == LRun(1)
  }

  /** No run starts at or after the tail mark. */
  ghost predicate TailOK(p: Pages) {
    && p.freeTail <= PAGES
    && (forall s :: 0 <= s < |p.own| && p.own[s] == s ==> s < p.freeTail)
  }

  function CountFree(own: seq<int>): nat {
    if own == [] then 0 else CountFree(own[..|own| - 1]) + (if own[|own| - 1] < 0 then 1 else 0)
  }

  ghost predicate PagesOK(p: Pages) {
    RunsOK(p) && TailOK(p) && p.freePages == CountFree(p.own)
  }

  // ----- changing a range of owners -----

  function Fill(own: seq<int>, s: int, n: int, v: int): (r: seq<int>)
    ensures |r| == |own|
    ensures forall q :: 0 <= q < |own| ==> r[q] == if s <= q < s + n then v else own[q]
  {
    seq(|own|, q requires 0 <= q < |own| => if s <= q < s + n then v else own[q])
  }

  ghost predicate AllFree(own: seq<int>, s: int, e: int) {
    forall q :: s <= q < e && 0 <= q < |own| ==> own[q] < 0
  }

  ghost predicate AllUsed(own: seq<int>, s: int, e: int) {
    forall q :: s <= q < e && 0 <= q < |own| ==> own[q] >= 0
  }

  /** How many of the pages `s..s+n` lie below `m`. */
  function Below(s: int, n: int, m: int): int {
    if m <= s then 0 else if m <= s + n then m - s else n
  }

  lemma {:induction false} CountFill(own: seq<int>, s: int, n: nat, v: int, m: nat)
    requires 0 <= s && m <= |own|
    ensures v >= 0 && AllFree(own, s, s + n) ==>
      CountFree(Fill(own, s, n, v)[..m]) == CountFree(own[..m]) - Below(s, n, m)
    ensures v < 0 && AllUsed(own, s, s + n) ==>
      CountFree(Fill(own, s, n, v)[..m]) == CountFree(own[..m]) + Below(s, n, m)
  {
    if m > 0 {
      CountFill(own, s, n, v, m - 1);
      var f := Fill(own, s, n, v);
      assert f[..m][..m - 1] == f[..m - 1];
      assert own[..m][..m - 1] == own[..m - 1];
    }
  }

  lemma CountFillAll(own: seq<int>, s: int, n: nat, v: int)
    requires 0 <= s && s + n <= |own|
    ensures v >= 0 && AllFree(own, s, s + n) ==> CountFree(Fill(own, s, n, v)) == CountFree(own) - n
    ensures v < 0 && AllUsed(own, s, s + n) ==> CountFree(Fill(own, s, n, v)) == CountFree(own) + n
  {
    CountFill(own, s, n, v, |own|);
    assert own[..|own|] == own;
    var f := Fill(own, s, n, v);
    assert f[..|own|] == f;
  }

  // ----- the page operations -----

  /** A free range becomes a large run. */
  function TakeRun(p: Pages, s: nat, n: nat): Pages
    requires s < |p.info|
  {
    Pages(Fill(p.own, s, n, s), p.info[s := LRun(n)], p.freePages - n,
          if s == p.freeTail then s + n else p.freeTail)
  }

  /** A run is given back. Only the label of its first page is cleared. */
  function FreeRun(p: Pages, s: nat, n: nat): Pages
    requires s < |p.info|
  {
    Pages(Fill(p.own, s, n, -1), p.info[s := FRun], p.freePages + n,
          if p.freeTail == s + n then s else p.freeTail)
  }

  /** A large run of `n` pages gives back its tail; the tail mark is left alone. */
  function ShrinkRun(p: Pages, s: nat, n: nat, m: nat): Pages
    requires s < |p.info|
  {
    Pages(Fill(p.own, s + m, n - m, -1), p.info[s := LRun(m)], p.freePages + (n - m), p.freeTail)
  }

  /** A large run of `n` pages takes the free pages after it; the tail mark is left alone. */
  function GrowRun(p: Pages, s: nat, n: nat, m: nat): Pages
    requires s < |p.info|
  {
    Pages(Fill(p.own, s + n, m - n, s), p.info[s := LRun(m)], p.freePages - (m - n), p.freeTail)
  }

  /** Taking a run and giving it back restores owners and free count; the tail mark drops to the
      start of the run if the run ended at it. */
  lemma TakeFreeBack(p: Pages, s: nat, n: nat)
    requires RunsOK(p) && 1 <= s && 1 <= n && s + n <= PAGES && AllFree(p.own, s, s + n)
    ensures var r := FreeRun(TakeRun(p, s, n), s, n);
      r == Pages(p.own, p.info[s := FRun], p.freePages, if s + n == p.freeTail || s == p.freeTail then s else p.freeTail)
  {
    hide CountFree;
    var r := FreeRun(TakeRun(p, s, n), s, n);
    assert r.own == p.own;
    assert r.info == p.info[s := FRun];
  }

  /** Growing in place and cutting back is no change. */
  lemma GrowShrinkBack(p: Pages, s: nat, n: nat, m: nat)
    requires RunsOK(p) && 1 <= s && 1 <= n < m && s + m <= PAGES && AllFree(p.own, s + n, s + m)
    requires s < |p.info| && p.info[s] == LRun(n)
    ensures ShrinkRun(GrowRun(p, s, n, m), s, m, n) == p
  {
    hide CountFree;
    var r := ShrinkRun(GrowRun(p, s, n, m), s, m, n);
    assert r.own == p.own;
    assert r.info == p.info;
  }

  lemma TakeRunOK(p: Pages, s: nat, n: nat)
    requires RunsOK(p)
    requires 1 <= s && 1 <= n && s + n <= PAGES && AllFree(p.own, s, s + n)
    ensures RunsOK(TakeRun(p, s, n))
  {
    hide CountFree;
    var r := TakeRun(p, s, n);
    forall q | 0 <= q < PAGES && 0 <= r.own[q] ensures InOwnRun(r, q) && Continues(r, q) {
      if !(s <= q < s + n) {
        assert InOwnRun(p, q) && Continues(p, q);
        assert p.own[p.own[q]] >= 0;
      }
    }
    forall t, q | 0 <= t <= q < PAGES && r.own[t] == t && q < t + RunLen(r.info[t])
      ensures r.own[q] == t
    {
      if t != s { assert p.own[q] == t; }
    }
  }

  lemma FreeRunOK(p: Pages, s: nat, n: nat)
    requires RunsOK(p)
    requires 1 <= s < PAGES && p.own[s] == s && n == RunLen(p.info[s])
    ensures 1 <= n && s + n <= PAGES && AllUsed(p.own, s, s + n)
    ensures RunsOK(FreeRun(p, s, n))
  {
    hide CountFree;
    assert InOwnRun(p, s);
    var r := FreeRun(p, s, n);
    forall q | 0 <= q < PAGES && 0 <= r.own[q] ensures InOwnRun(r, q) && Continues(r, q) {
      assert InOwnRun(p, q) && Continues(p, q);
    }
    forall t, q | 0 <= t <= q < PAGES && r.own[t] == t && q < t + RunLen(r.info[t])
      ensures r.own[q] == t
    {
      assert p.own[q] == t;
    }
  }

  lemma ShrinkRunOK(p: Pages, s: nat, n: nat, m: nat)
    requires RunsOK(p)
    requires 1 <= s < PAGES && p.own[s] == s && p.info[s] == LRun(n) && 1 <= m < n
    ensures s + n <= PAGES && AllUsed(p.own, s + m, s + n)
    ensures RunsOK(ShrinkRun(p, s, n, m))
  {
    hide CountFree;
    assert InOwnRun(p, s);
    var r := ShrinkRun(p, s, n, m);
    forall q | 0 <= q < PAGES && 0 <= r.own[q] ensures InOwnRun(r, q) && Continues(r, q) {
      assert InOwnRun(p, q) && Continues(p, q);
    }
    forall t, q | 0 <= t <= q < PAGES && r.own[t] == t && q < t + RunLen(r.info[t])
      ensures r.own[q] == t
    {
      assert p.own[q] == t;
    }
  }

  lemma GrowRunOK(p: Pages, s: nat, n: nat, m: nat)
    requires RunsOK(p)
    requires 1 <= s < PAGES && p.own[s] == s && p.info[s] == LRun(n) && n < m
    requires s + m <= PAGES && AllFree(p.own, s + n, s + m)
    ensures RunsOK(GrowRun(p, s, n, m))
  {
    hide CountFree;
    assert InOwnRun(p, s);
    var r := GrowRun(p, s, n, m);
    forall q | 0 <= q < PAGES && 0 <= r.own[q] ensures InOwnRun(r, q) && Continues(r, q) {
      if !(s + n <= q < s + m) {
        assert InOwnRun(p, q) && Continues(p, q);
        assert p.own[p.own[q]] >= 0;
      }
    }
    forall t, q | 0 <= t <= q < PAGES && r.own[t] == t && q < t + RunLen(r.info[t])
      ensures r.own[q] == t
    {
      if t != s { assert p.own[q] == t; }
    }
  }

  /** A large run of the right length is cut into the elements of a small class. */
  function SmallLabels(info: seq<PageInfo>, s: nat, b: nat): (r: seq<PageInfo>)
    requires b < BINS
    ensures |r| == |info|
  {
    seq(|info|, q requires 0 <= q < |info| =>
      if q == s then SRun(b, 0)
      else if s < q < s + BinPages(b) then NRun(b, q - s)
      else info[q])
  }

  function MakeSmall(p: Pages, s: nat, b: nat): Pages
    requires b < BINS
  {
    p.(info := SmallLabels(p.info, s, b))
  }

  lemma MakeSmallOK(p: Pages, s: nat, b: nat)
    requires RunsOK(p) && b < BINS
    requires 1 <= s < PAGES && p.own[s] == s && p.info[s] == LRun(BinPages(b))
    ensures RunsOK(MakeSmall(p, s, b))
  {
    hide CountFree, BinPages;
    assert InOwnRun(p, s);
    var r := MakeSmall(p, s, b);
    forall q | 0 <= q < PAGES && 0 <= r.own[q] ensures InOwnRun(r, q) && Continues(r, q) {
      assert InOwnRun(p, q) && Continues(p, q);
      var t := p.own[q];
      if t != s { assert p.own[t] == t; }
    }
    forall t, q | 0 <= t <= q < PAGES && r.own[t] == t && q < t + RunLen(r.info[t])
      ensures r.own[q] == t
    {
      assert p.own[q] == t;
    }
  }

  /** Only the counters of small runs may differ. */
  ghost predicate SameButCounters(p: Pages, r: Pages) {
    && |p.info| == |r.info| && p.own == r.own && p.freePages == r.freePages && p.freeTail == r.freeTail
    && (forall q :: 0 <= q < |p.info| ==>
         r.info[q] == p.info[q] || (p.info[q].SRun? && r.info[q].SRun? && r.info[q].bin == p.info[q].bin))
  }

  lemma CountersOK(p: Pages, r: Pages)
    requires PagesOK(p) && SameButCounters(p, r)
    ensures PagesOK(r)
  {
    hide CountFree;
    forall q | 0 <= q < PAGES && 0 <= r.own[q] ensures InOwnRun(r, q) && Continues(r, q) {
      assert InOwnRun(p, q) && Continues(p, q);
    }
    forall t, q | 0 <= t <= q < PAGES && r.own[t] == t && q < t + RunLen(r.info[t])
      ensures r.own[q] == t
    {
      assert p.own[q] == t;
    }
  }

  // ----- the full page invariant -----

  lemma TakePagesOK(p: Pages, s: nat, n: nat)
    requires PagesOK(p)
    requires 1 <= s && 1 <= n && s + n <= PAGES && AllFree(p.own, s, s + n)
    requires s <= p.freeTail
    ensures PagesOK(TakeRun(p, s, n))
  {
    hide CountFree, Fill;
    TakeRunOK(p, s, n);
    hide RunsOK;
    CountFillAll(p.own, s, n, s);
  }

  lemma FreePagesOK(p: Pages, s: nat, n: nat)
    requires PagesOK(p)
    requires 1 <= s < PAGES && p.own[s] == s && n == RunLen(p.info[s])
    ensures 1 <= n && s + n <= PAGES
    ensures PagesOK(FreeRun(p, s, n))
  {
    hide CountFree, Fill;
    FreeRunOK(p, s, n);
    var r := FreeRun(p, s, n);
    forall t | 0 <= t < |r.own| && r.own[t] == t ensures t < r.freeTail {
      assert p.own[t] == t;
    }
    hide RunsOK;
    CountFillAll(p.own, s, n, -1);
  }

  lemma ShrinkPagesOK(p: Pages, s: nat, n: nat, m: nat)
    requires PagesOK(p)
    requires 1 <= s < PAGES && p.own[s] == s && p.info[s] == LRun(n) && 1 <= m < n
    ensures s + n <= PAGES
    ensures PagesOK(ShrinkRun(p, s, n, m))
  {
    hide CountFree, Fill;
    ShrinkRunOK(p, s, n, m);
    var r := ShrinkRun(p, s, n, m);
    forall t | 0 <= t < |r.own| && r.own[t] == t ensures t < r.freeTail {
      assert p.own[t] == t;
    }
    hide RunsOK;
    CountFillAll(p.own, s + m, n - m, -1);
  }

  /** Growing never raises the tail mark, although the run may now reach past it. */
  lemma GrowPagesOK(p: Pages, s: nat, n: nat, m: nat)
    requires PagesOK(p)
    requires 1 <= s < PAGES && p.own[s] == s && p.info[s] == LRun(n) && n < m
    requires s + m <= PAGES && AllFree(p.own, s + n, s + m)
    ensures PagesOK(GrowRun(p, s, n, m))
  {
    hide CountFree, Fill;
    assert InOwnRun(p, s);
    GrowRunOK(p, s, n, m);
    var r := GrowRun(p, s, n, m);
    forall t | 0 <= t < |r.own| && r.own[t] == t ensures t < r.freeTail {
      assert p.own[t] == t;
    }
    hide RunsOK;
    CountFillAll(p.own, s + n, m - n, s);
  }

  lemma SmallPagesOK(p: Pages, s: nat, b: nat)
    requires PagesOK(p) && b < BINS
    requires 1 <= s < PAGES && p.own[s] == s && p.info[s] == LRun(BinPages(b))
    ensures PagesOK(MakeSmall(p, s, b))
  {
    hide CountFree, BinPages;
    MakeSmallOK(p, s, b);
  }

  // ----- holes -----

  /** `s..e` is a maximal range of free pages. */
  ghost predicate Hole(own: seq<int>, s: int, e: int) {
    && 0 <= s < e <= |own|
    && AllFree(own, s, e)
    && (s == 0 || own[s - 1] >= 0)
    && (e == |own| || own[e] >= 0)
  }

  ghost predicate NoRoom(own: seq<int>, n: int) {
    forall s, e :: 0 <= s && e == s + n && e <= |own| ==> !AllFree(own, s, e)
  }

  /** `s..e` is the lowest-addressed of the shortest holes with room for `n` pages. */
  ghost predicate BestFit(own: seq<int>, n: int, s: int, e: int) {
    && Hole(own, s, e) && n <= e - s
    && (forall s2, e2 :: Hole(own, s2, e2) && n <= e2 - s2 ==>
         e - s < e2 - s2 || (e - s == e2 - s2 && s <= s2))
  }

  /** Every free range of `n` pages lies in a hole. */
  lemma {:induction false} HoleAround(own: seq<int>, s: int, e: int) returns (s1: int, e1: int)
    requires 0 <= s < e <= |own| && AllFree(own, s, e)
    ensures Hole(own, s1, e1) && s1 <= s && e <= e1
    decreases s + |own| - e
  {
    if s > 0 && own[s - 1] < 0 {
      s1, e1 := HoleAround(own, s - 1, e);
    } else if e < |own| && own[e] < 0 {
      s1, e1 := HoleAround(own, s, e + 1);
    } else {
      s1, e1 := s, e;
    }
  }

  /** A chunk with fewer than `n` free pages has no free range of `n` pages. */
  lemma TooFew(own: seq<int>, n: nat)
    requires CountFree(own) < n
    ensures NoRoom(own, n)
  {
    forall s, e | 0 <= s && e == s + n && e <= |own| ensures !AllFree(own, s, e) {
      if AllFree(own, s, e) {
        CountFillAll(own, s, n, 0);
        CountNonNeg(Fill(own, s, n, 0));
      }
    }
  }

  lemma {:induction false} CountNonNeg(own: seq<int>)
    ensures 0 <= CountFree(own) <= |own|
  {
    if own != [] {
      CountNonNeg(own[..|own| - 1]);
    }
  }

  /** A run that holds a page past the tail mark also holds the page before. */
  lemma PastTail(p: Pages, q: int)
    requires RunsOK(p) && TailOK(p)
    requires 0 <= q < PAGES && p.freeTail <= q && 0 <= p.own[q]
    ensures 0 < q && p.own[q - 1] == p.own[q]
  {
    hide CountFree;
    assert InOwnRun(p, q);
    var t := p.own[q];
    assert p.own[t] == t && t < p.freeTail;
  }

  /** The early exit of the search: a free range reaching the tail mark reaches the end. */
  lemma {:induction false} TailFree(p: Pages, s: int, i: int)
    requires RunsOK(p) && TailOK(p)
    requires 0 <= s < i <= PAGES && AllFree(p.own, s, i) && p.freeTail <= i
    ensures AllFree(p.own, s, PAGES)
    decreases PAGES - i
  {
    hide RunsOK, TailOK;
    assert |p.own| == PAGES by { LengthOK(p); }
    if i < PAGES {
      if 0 <= p.own[i] { PastTail(p, i); }
      TailFree(p, s, i + 1);
    }
  }

  lemma LengthOK(p: Pages)
    requires RunsOK(p)
    ensures |p.own| == |p.info| == PAGES
  {}

  // ----- the best-fit scan -----

  /** What the scan knows once it has passed the used page `pos - 1`: `best` is the best
      hole so far that is longer than `n`, or -1, and no hole so far fits exactly. */
  ghost predicate Scanned(own: seq<int>, n: int, pos: int, best: int, bestLen: int) {
    && 0 <= pos <= |own| == PAGES && (pos == 0 || own[pos - 1] >= 0)
    && (best == -1 ==> bestLen == PAGES && (forall s, e :: Hole(own, s, e) && e <= pos ==> e - s < n))
    && (best != -1 ==>
         && 0 < best && n < bestLen && best + bestLen <= pos && Hole(own, best, best + bestLen)
         && (forall s, e :: Hole(own, s, e) && e <= pos && n <= e - s ==>
              bestLen < e - s || (bestLen == e - s && best <= s)))
  }

  /** Two holes that overlap are the same hole. */
  lemma SameHole(own: seq<int>, s: int, e: int, s2: int, e2: int)
    requires Hole(own, s, e) && Hole(own, s2, e2)
    ensures e < s2 || e2 < s || (s2 == s && e2 == e)
  {
  }

  lemma Elsewhere(own: seq<int>, pos: int, s: int, e: int, s2: int, e2: int)
    requires 0 <= pos <= |own| && (pos == 0 || own[pos - 1] >= 0)
    requires Hole(own, s, e) && pos <= s && AllUsed(own, pos, s)
    requires Hole(own, s2, e2)
    ensures e2 <= pos || (s2 == s && e2 == e) || e < s2
  {
    SameHole(own, s, e, s2, e2);
    assert own[s2] < 0;
  }

  lemma ExactFit(own: seq<int>, n: int, pos: int, best: int, bestLen: int, s: int, e: int)
    requires Scanned(own, n, pos, best, bestLen) && 1 <= n
    requires Hole(own, s, e) && pos <= s && AllUsed(own, pos, s) && e - s == n
    ensures BestFit(own, n, s, e)
  {
    hide Hole, AllUsed;
    forall s2, e2 | Hole(own, s2, e2) && n <= e2 - s2
      ensures e - s < e2 - s2 || (e - s == e2 - s2 && s <= s2)
    {
      Elsewhere(own, pos, s, e, s2, e2);
    }
  }

  lemma NextHole(own: seq<int>, n: int, pos: int, best: int, bestLen: int, s: int, e: int)
    requires Scanned(own, n, pos, best, bestLen) && 1 <= n
    requires Hole(own, s, e) && pos <= s && AllUsed(own, pos, s) && e - s != n && e < |own|
    requires own[0] >= 0
    ensures n < e - s && e - s < bestLen ==> Scanned(own, n, e + 1, s, e - s)
    ensures !(n < e - s && e - s < bestLen) ==> Scanned(own, n, e + 1, best, bestLen)
  {
    hide AllUsed;
    assert own[e] >= 0 && own[s] < 0;
    hide Hole;
    forall s2, e2 | Hole(own, s2, e2) && e2 <= e + 1
      ensures e2 <= pos || (s2 == s && e2 == e)
    {
      Elsewhere(own, pos, s, e, s2, e2);
      HoleOrder(own, s2, e2);
    }
  }

  lemma HoleOrder(own: seq<int>, s: int, e: int)
    requires Hole(own, s, e)
    ensures 0 <= s < e <= |own|
  {}

  lemma ScanEnd(own: seq<int>, n: int, pos: int, best: int, bestLen: int)
    requires Scanned(own, n, pos, best, bestLen) && 1 <= n && AllUsed(own, pos, |own|)
    ensures best == -1 ==> NoRoom(own, n)
    ensures best != -1 ==> BestFit(own, n, best, best + bestLen)
  {
    forall s, e | Hole(own, s, e) ensures e <= pos {
      assert own[e - 1] < 0;
    }
    if best == -1 { NoHoleNoRoom(own, n); }
  }

  lemma NoHoleNoRoom(own: seq<int>, n: int)
    requires 1 <= n
    requires forall s, e :: Hole(own, s, e) ==> e - s < n
    ensures NoRoom(own, n)
  {
    forall s, e | 0 <= s && e == s + n && e <= |own| ensures !AllFree(own, s, e) {
      if AllFree(own, s, e) {
        var s1, e1 := HoleAround(own, s, e);
      }
    }
  }

  lemma ScanTail(own: seq<int>, n: int, pos: int, best: int, bestLen: int, s: int)
    requires Scanned(own, n, pos, best, bestLen) && 1 <= n && own[0] >= 0
    requires Hole(own, s, |own|) && pos <= s && AllUsed(own, pos, s)
    ensures n <= |own| - s < bestLen ==> BestFit(own, n, s, |own|)
    ensures !(n <= |own| - s < bestLen) && best == -1 ==> NoRoom(own, n)
    ensures !(n <= |own| - s < bestLen) && best != -1 ==> BestFit(own, n, best, best + bestLen)
  {
    hide AllUsed;
    assert own[s] < 0 && s < |own|;
    hide Hole;
    forall s2, e2 | Hole(own, s2, e2) ensures e2 <= pos || (s2 == s && e2 == |own|) {
      Elsewhere(own, pos, s, |own|, s2, e2);
      HoleOrder(own, s2, e2);
    }
    if best == -1 && !(n <= |own| - s < bestLen) { NoHoleNoRoom(own, n); }
  }

  // ----- what each exit of the search may conclude -----

  lemma ScanStart(own: seq<int>, n: int)
    requires |own| == PAGES
    ensures Scanned(own, n, 0, -1, PAGES) && AllUsed(own, 0, 0)
  {
    hide AllFree;
  }

  /** A hole that does not reach the end of the chunk begins before the tail mark. */
  lemma HoleBeforeTail(p: Pages, s: int, e: int)
    requires PagesOK(p) && Hole(p.own, s, e) && e < PAGES
    ensures s < p.freeTail
  {
    hide CountFree;
    assert InOwnRun(p, e);
    assert p.own[e] < e ==> p.own[e - 1] == p.own[e];
  }

  lemma AtExactFit(p: Pages, n: int, pos: int, best: int, bestLen: int, page: int, e: int)
    requires PagesOK(p) && 1 <= n && Scanned(p.own, n, pos, best, bestLen)
    requires 0 <= pos <= page < e < PAGES && AllUsed(p.own, pos, page) && AllFree(p.own, page, e) && p.own[e] >= 0
    ensures Hole(p.own, page, e) && 0 < page
    ensures e - page == n ==> BestFit(p.own, n, page, e) && page <= p.freeTail
  {
    hide CountFree, RunsOK, TailOK;
    FirstPageUsed(p);
    assert p.own[page] < 0;
    assert Hole(p.own, page, e);
    hide Hole, AllUsed, AllFree, Scanned, BestFit;
    if e - page == n { ExactFit(p.own, n, pos, best, bestLen, page, e); }
    HoleBeforeTail(p, page, e);
  }

  lemma FirstPageUsed(p: Pages)
    requires PagesOK(p)
    ensures |p.own| == |p.info| == PAGES && p.own[0] == 0
  {}

  lemma AtLastWord(p: Pages, n: int, pos: int, best: int, bestLen: int)
    requires PagesOK(p) && 1 <= n && Scanned(p.own, n, pos, best, bestLen) && AllUsed(p.own, pos, PAGES)
    ensures best == -1 || 0 < best
    ensures best == -1 ==> NoRoom(p.own, n)
    ensures best != -1 ==> BestFit(p.own, n, best, best + bestLen) && best <= p.freeTail
  {
    hide CountFree, RunsOK, TailOK, AllUsed, AllFree, NoRoom, BestFit, Hole;
    ScanEnd(p.own, n, pos, best, bestLen);
    BestBeforeTail(p, n, pos, best, bestLen);
  }

  lemma BestBeforeTail(p: Pages, n: int, pos: int, best: int, bestLen: int)
    requires PagesOK(p) && Scanned(p.own, n, pos, best, bestLen)
    ensures best != -1 ==> best + bestLen <= pos && best < p.freeTail
  {
    hide CountFree, AllFree;
    if best != -1 {
      assert p.own[best + bestLen - 1] < 0 by { HoleInside(p.own, best, best + bestLen); }
      HoleBeforeTail(p, best, best + bestLen);
    }
  }

  lemma HoleInside(own: seq<int>, s: int, e: int)
    requires Hole(own, s, e)
    ensures own[e - 1] < 0 && own[s] < 0
  {}

  lemma AtTail(p: Pages, n: int, pos: int, best: int, bestLen: int, page: int, i: int)
    requires PagesOK(p) && 1 <= n && Scanned(p.own, n, pos, best, bestLen)
    requires 0 <= pos <= page < i <= PAGES && AllUsed(p.own, pos, page) && AllFree(p.own, page, i)
    requires p.freeTail <= i || i == PAGES
    ensures 0 < page && (best == -1 || 0 < best)
    ensures n <= PAGES - page < bestLen ==>
      BestFit(p.own, n, page, PAGES) && PagesOK(p.(freeTail := page + n))
    ensures !(n <= PAGES - page < bestLen) ==>
      && PagesOK(p.(freeTail := page))
      && (best == -1 ==> NoRoom(p.own, n))
      && (best != -1 ==> BestFit(p.own, n, best, best + bestLen) && best <= page)
  {
    hide RunsOK, TailOK, CountFree, AllUsed, AllFree, NoRoom, BestFit, Hole;
    FirstPageUsed(p);
    TailHole(p, n, pos, best, bestLen, page, i);
    RetailOK(p, page, page);
    if page + n <= PAGES { RetailOK(p, page, page + n); }
    ScanTail(p.own, n, pos, best, bestLen, page);
  }

  lemma TailHole(p: Pages, n: int, pos: int, best: int, bestLen: int, page: int, i: int)
    requires PagesOK(p) && Scanned(p.own, n, pos, best, bestLen)
    requires 0 <= pos <= page < i <= PAGES && AllUsed(p.own, pos, page) && AllFree(p.own, page, i)
    requires p.freeTail <= i || i == PAGES
    ensures 0 < page && AllFree(p.own, page, PAGES) && Hole(p.own, page, PAGES)
  {
    hide RunsOK, TailOK, CountFree;
    FirstPageUsed(p);
    if i < PAGES { TailFree(p, page, i); }
    assert p.own[page] < 0;
  }

  /** When all pages from `page` on are free, the tail mark may be set anywhere from there. */
  lemma RetailOK(p: Pages, page: int, t: int)
    requires PagesOK(p) && AllFree(p.own, page, PAGES) && 0 <= page <= t <= PAGES
    ensures PagesOK(p.(freeTail := t))
  {
    hide CountFree;
    var r := p.(freeTail := t);
    assert RunsOK(r) by { SameRuns(p, r); }
  }

  lemma SameRuns(p: Pages, r: Pages)
    requires RunsOK(p) && r.own == p.own && r.info == p.info
    ensures RunsOK(r)
  {
    forall q | 0 <= q < PAGES && 0 <= r.own[q] ensures InOwnRun(r, q) && Continues(r, q) {
      assert InOwnRun(p, q) && Continues(p, q);
    }
  }

  // ----- the page pass of the collector -----

  /** A small run all of whose elements were counted as free. */
  predicate Full(i: PageInfo) {
    i.SRun? && i.bin < BINS && i.counter == BinElements(i.bin)
  }

  ghost function SweptOwner(p: Pages, q: int): int
    requires RunsOK(p) && 0 <= q < PAGES
  {
    var s := p.own[q];
    if 0 <= s && InOwnRun(p, q) && Full(p.info[s]) then -1 else s
  }

  ghost function SweptLabel(p: Pages, q: int): PageInfo
    requires RunsOK(p) && 0 <= q < PAGES
  {
    var i := p.info[q];
    if p.own[q] != q then i
    else if Full(i) then FRun
    else if i.SRun? then SRun(i.bin, 0)
    else i
  }

  /** `r` is `p` after the pass has dealt with the pages before `i`: full small runs are
      gone, the counters of the others are reset, nothing else has changed. */
  ghost predicate SweptTo(p: Pages, r: Pages, i: int)
    requires RunsOK(p)
  {
    && |r.own| == |r.info| == PAGES
    && (forall q :: 0 <= q < PAGES ==> r.own[q] == if q < i then SweptOwner(p, q) else p.own[q])
    && (forall q :: 0 <= q < PAGES ==> r.info[q] == if q < i then SweptLabel(p, q) else p.info[q])
  }

  /** Page `i` is not inside a run that starts earlier. */
  ghost predicate Boundary(p: Pages, i: int) {
    0 <= i < |p.own| ==> p.own[i] < 0 || p.own[i] == i
  }

  lemma SweepBegin(p: Pages)
    requires RunsOK(p)
    ensures SweptTo(p, p, 1) && Boundary(p, 1)
  {
    assert 0 <= p.own[1] ==> InOwnRun(p, 1);
    assert InOwnRun(p, 0);
  }

  lemma RunBoundary(p: Pages, i: int)
    requires RunsOK(p) && 0 <= i < PAGES && p.own[i] == i
    ensures InOwnRun(p, i) && Boundary(p, i + RunLen(p.info[i]))
    ensures forall q :: i <= q < i + RunLen(p.info[i]) ==> p.own[q] == i
  {
    assert InOwnRun(p, i);
    var e := i + RunLen(p.info[i]);
    if e < PAGES && 0 <= p.own[e] {
      assert InOwnRun(p, e);
    }
  }

  lemma SweepFree(p: Pages, r: Pages, i: int)
    requires RunsOK(p) && SweptTo(p, r, i) && Boundary(p, i)
    requires 0 <= i < PAGES && r.own[i] < 0
    ensures SweptTo(p, r, i + 1) && Boundary(p, i + 1)
  {
    assert i + 1 < PAGES && 0 <= p.own[i + 1] ==> InOwnRun(p, i + 1);
  }

  lemma SweepLarge(p: Pages, r: Pages, i: int)
    requires RunsOK(p) && SweptTo(p, r, i) && Boundary(p, i)
    requires 0 <= i < PAGES && 0 <= r.own[i] && !r.info[i].SRun?
    ensures r.info[i].LRun? && 1 <= RunLen(r.info[i])
    ensures SweptTo(p, r, i + RunLen(r.info[i])) && Boundary(p, i + RunLen(r.info[i]))
  {
    RunBoundary(p, i);
  }

  lemma SweepRelease(p: Pages, r: Pages, i: int, n: int)
    requires RunsOK(p) && SweptTo(p, r, i) && Boundary(p, i)
    requires 1 <= i < PAGES && 0 <= r.own[i] && Full(r.info[i]) && n == RunLen(r.info[i])
    ensures r.own[i] == i && 1 <= n
    ensures SweptTo(p, FreeRun(r, i, n), i + n) && Boundary(p, i + n)
  {
    hide Full;
    RunBoundary(p, i);
    var f := FreeRun(r, i, n);
    assert forall q :: 0 <= q < PAGES ==> f.own[q] == if q < i + n then SweptOwner(p, q) else p.own[q];
  }

  lemma SweepReset(p: Pages, r: Pages, i: int, n: int)
    requires RunsOK(p) && SweptTo(p, r, i) && Boundary(p, i)
    requires 1 <= i < PAGES && 0 <= r.own[i] && r.info[i].SRun? && !Full(r.info[i]) && n == RunLen(r.info[i])
    ensures r.own[i] == i && 1 <= n && r.info[i].bin < BINS
    ensures SweptTo(p, r.(info := r.info[i := SRun(r.info[i].bin, 0)]), i + n) && Boundary(p, i + n)
  {
    hide Full;
    RunBoundary(p, i);
  }

  /** Stopping at the tail mark is stopping at the end. */
  lemma SweepEnd(p: Pages, r: Pages, i: int)
    requires RunsOK(p) && SweptTo(p, r, i) && Boundary(p, i)
    requires RunsOK(r) && TailOK(r) && 1 <= i && r.freeTail <= i
    ensures SweptTo(p, r, PAGES)
  {
    hide Full;
    forall q | i <= q < PAGES ensures p.own[q] < 0 {
      if 0 <= p.own[q] { OwnedPastBoundary(p, r, i, q); }
    }
  }

  lemma OwnedPastBoundary(p: Pages, r: Pages, i: int, q: int)
    requires RunsOK(p) && Boundary(p, i) && 1 <= i <= q < PAGES && 0 <= p.own[q]
    requires SweptTo(p, r, i)
    ensures i <= p.own[q] <= q && r.own[p.own[q]] == p.own[q]
  {
    hide Full;
    assert InOwnRun(p, q);
  }

  // ----- a chunk taken into use -----

  /** All pages but the first are free; the first may be either. */
  ghost predicate Blank(own: seq<int>) {
    |own| == PAGES && (forall q :: 1 <= q < PAGES ==> own[q] == -1) && -1 <= own[0] <= 0
  }

  /** The page part of a header whose bytes are all zero. */
  function ZeroPages(): (p: Pages)
    ensures Blank(p.own) && |p.info| == PAGES
  {
    Pages(seq(512, _ => -1), seq(512, _ => FRun), 0, 0)
  }

  function FirstRun(p: Pages): Pages
    requires 0 < |p.info|
  {
    Pages(Fill(p.own, 0, 1, 0), p.info[0 := LRun(1)], PAGES - FIRST_PAGE, FIRST_PAGE)
  }

  lemma {:induction false} CountAll(own: seq<int>)
    requires AllFree(own, 0, |own|)
    ensures CountFree(own) == |own|
  {
    if own != [] {
      CountAll(own[..|own| - 1]);
    }
  }

  /** Only page 0 of a blank chunk needs to be written. */
  lemma FirstRunOK(p: Pages)
    requires Blank(p.own) && |p.info| == PAGES
    ensures PagesOK(FirstRun(p))
  {
    hide CountFree;
    var none := Fill(p.own, 0, 1, -1);
    CountAll(none);
    CountFillAll(none, 0, 1, 0);
    assert Fill(none, 0, 1, 0) == Fill(p.own, 0, 1, 0);
  }

  lemma {:induction false} AllCounted(own: seq<int>)
    requires CountFree(own) == |own|
    ensures AllFree(own, 0, |own|)
  {
    if own != [] {
      CountNonNeg(own[..|own| - 1]);
      AllCounted(own[..|own| - 1]);
    }
  }

  /** A chunk with 511 free pages owns its header page only. */
  lemma EmptyIsBlank(p: Pages)
    requires PagesOK(p) && p.freePages == PAGES - FIRST_PAGE
    ensures Blank(p.own) && |p.info| == PAGES
  {
    hide CountFree;
    var f := Fill(p.own, 0, 1, -1);
    CountFillAll(p.own, 0, 1, -1);
    AllCounted(f);
    forall q | 1 <= q < PAGES ensures p.own[q] == -1 { assert f[q] < 0; }
  }
}
