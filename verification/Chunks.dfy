/** One 2 MB chunk: its header, its page bitmap and its page map. */
module Chunks {
  import opened Sizes
  import opened Word
  import opened PageBitmap
  import opened Pages
  import opened Scan
  import opened Memory

  /** The link fields of a chunk header. */
  datatype Links = Links(next: int, prev: int, shadow: Word8, heap: int, num: int)

  class Chunk {
    const addr: int
    const freeMap: array<bv64>
    const pageMap: array<PageInfo>
    var heap: int
    var next: int
    var prev: int
    var nextShadow: Word8
    var freePages: int
    var freeTail: int
    var num: int
    ghost var own: seq<int>

    ghost predicate Shape() {
      freeMap.Length == 8 && pageMap.Length == 512
    }

    ghost function View(): Pages
      reads this, pageMap
    {
      Pages(own, pageMap[..], freePages, freeTail)
    }

    ghost function Header(): Links
      reads this
    {
      Links(next, prev, nextShadow, heap, num)
    }

    ghost predicate Valid()
      reads this, freeMap
    {
      Shape() && |own| == 512 && Synced(freeMap[..], own)
    }

    /** Best-fit search for `n` free pages; 0 when there is no room.
        The tail mark is moved to where the last hole begins, or to just after the run
        about to be placed there. */
    method FindPages(n: nat) returns (page: int)
      requires Valid() && PagesOK(View()) && 1 <= n < PAGES
      modifies this`freeTail
      ensures Valid() && PagesOK(View()) && 0 <= page
      ensures page == 0 ==> NoRoom(own, n)
      ensures page != 0 ==> page <= freeTail && exists e :: BestFit(own, n, page, e)
    {
      hide Bit, TrailingOnes, TrailingZeros, DropTrailingOnes, FillTrailingZeros, CountFree,
        Marked, Scanned, RunsOK, TailOK, Synced, SkippingUsed, SkippingFree, AllUsed, AllFree, NoRoom, BestFit, Hole;
      if freePages < n {
        TooFew(own, n);
        return 0;
      }
      var best: int, bestLen: int, tail := -1, PAGES, freeTail;
      var tmp, i: int := freeMap[0], 0;
      ghost var p, pos: int := View(), 0;
      FirstPageUsed(p);
      ScanStart(own, n);
      LoadWord(freeMap[..], own, 0, 0);
      while true
        invariant Valid() && View() == p && 0 <= i < PAGES && i % 64 == 0 && pos <= i + 64
        invariant Scanned(own, n, pos, best, bestLen)
        invariant SkippingUsed(tmp, own, i, pos) && AllUsed(own, pos, i)
        decreases PAGES - pos
      {
        // skip used pages
        while tmp == 0xFFFF_FFFF_FFFF_FFFF
          invariant Valid() && View() == p && 0 <= i < PAGES && i % 64 == 0 && pos <= i + 64
          invariant SkippingUsed(tmp, own, i, pos) && AllUsed(own, pos, i)
          decreases PAGES - i
        {
          UsedWord(tmp, own, i, pos);
          i := i + 64;
          if i == PAGES {
            AtLastWord(p, n, pos, best, bestLen);
            return if best > 0 then best else 0;
          }
          tmp := freeMap[i / 64];
          LoadWord(freeMap[..], own, i, pos);
        }
        page := i + TrailingOnes(tmp);
        FirstFree(tmp, own, i, pos);
        tmp := DropTrailingOnes(tmp);
        // skip free pages
        while tmp == 0
          invariant Valid() && View() == p && 0 <= i < PAGES && i % 64 == 0
          invariant SkippingFree(tmp, own, i, page) && AllFree(own, page, i)
          decreases PAGES - i
        {
          FreeWord(own, i, page);
          i := i + 64;
          if i >= tail || i == PAGES {
            AtTail(p, n, pos, best, bestLen, page, i);
            var len := PAGES - page;
            if len >= n && len < bestLen {
              freeTail := page + n;
              return;
            } else {
              freeTail := page;
              return if best > 0 then best else 0;
            }
          }
          tmp := freeMap[i / 64];
          LoadWord(freeMap[..], own, i, page);
        }
        ghost var e := i + TrailingZeros(tmp);
        var len := i + TrailingZeros(tmp) - page;
        FirstUsed(tmp, own, i, page);
        AtExactFit(p, n, pos, best, bestLen, page, e);
        if len != n { NextHole(own, n, pos, best, bestLen, page, e); }
        if len >= n {
          if len == n {
            return;
          } else if len < bestLen {
            bestLen := len;
            best := page;
          }
        }
        tmp := FillTrailingZeros(tmp);
        pos := e + 1;
      }
    }

    /** A chunk as the operating system returns it: every header byte is zero. */
    constructor (address: int)
      ensures addr == address && Valid() && fresh(freeMap) && fresh(pageMap)
      ensures forall q :: 0 <= q < PAGES ==> own[q] == -1
      ensures heap == 0 && next == 0 && prev == 0 && num == 0
    {
      hide Bit;
      addr := address;
      freeMap := new bv64[8](_ => 0);
      pageMap := new PageInfo[512](_ => FRun);
      heap, next, prev, freePages, freeTail, num := 0, 0, 0, 0, 0, 0;
      nextShadow := [0, 0, 0, 0, 0, 0, 0, 0];
      own := seq(512, _ => -1);
      new;
      ZeroWords(freeMap[..]);
    }

    /** Page part of taking a chunk into use. Only the first bitmap word is written, so
        the other pages must already be free. */
    method InitPages()
      requires Valid() && Blank(own)
      modifies this`freePages, this`freeTail, this`own, freeMap, pageMap
      ensures Valid() && PagesOK(View())
      ensures pageMap.Length == 512 && View() == FirstRun(old(View()))
    {
      hide Bit, CountFree, Marked, Synced, Blank;
      freePages := PAGES - FIRST_PAGE;
      freeTail := FIRST_PAGE;
      ghost var w := freeMap[..];
      freeMap[0] := 1;
      pageMap[0] := LRun(FIRST_PAGE);
      FirstWord(w, own);
      assert freeMap[..] == w[0 := 1];
      FirstRunOK(old(View()));
      own := Fill(own, 0, 1, 0);
      assert View() == FirstRun(old(View()));
    }

    /** The `found` exit of the page allocator: mark pages `page..page+n` as a large run. */
    method MarkRun(page: nat, n: nat)
      requires Valid() && PagesOK(View())
      requires 1 <= page && 1 <= n && page + n <= PAGES && AllFree(own, page, page + n) && page <= freeTail
      modifies this`freePages, this`freeTail, this`own, freeMap, pageMap
      ensures Valid() && PagesOK(View())
      ensures View() == TakeRun(old(View()), page, n)
    {
      hide Bit, CountFree, Marked, RunsOK, TailOK, Synced, AllFree;
      ghost var w := freeMap[..];
      freePages := freePages - n;
      SetRange(freeMap, page, n);
      SyncFill(w, freeMap[..], own, page, n, page);
      pageMap[page] := LRun(n);
      if page == freeTail {
        freeTail := page + n;
      }
      own := Fill(own, page, n, page);
      TakePagesOK(old(View()), page, n);
      assert View() == TakeRun(old(View()), page, n);
    }

    /** Give the run at `page` back; the caller decides about an empty chunk. */
    method ReleaseRun(page: nat, n: nat)
      requires Valid() && PagesOK(View())
      requires 1 <= page < PAGES && own[page] == page && n == RunLen(pageMap[page])
      modifies this`freePages, this`freeTail, this`own, freeMap, pageMap
      ensures Valid() && PagesOK(View())
      ensures View() == FreeRun(old(View()), page, n)
    {
      hide Bit, CountFree, Marked, RunsOK, TailOK, Synced;
      FreePagesOK(View(), page, n);
      ghost var w := freeMap[..];
      freePages := freePages + n;
      ResetRange(freeMap, page, n);
      SyncFill(w, freeMap[..], own, page, n, -1);
      pageMap[page] := FRun;
      if freeTail == page + n {
        freeTail := page;
      }
      own := Fill(own, page, n, -1);
      assert View() == FreeRun(old(View()), page, n);
    }

    /** In-place shrink of a large run from `n` to `m` pages. */
    method ShrinkLarge(page: nat, n: nat, m: nat)
      requires Valid() && PagesOK(View())
      requires 1 <= page < PAGES && own[page] == page && pageMap[page] == LRun(n) && 1 <= m < n
      modifies this`freePages, this`own, freeMap, pageMap
      ensures Valid() && PagesOK(View())
      ensures View() == ShrinkRun(old(View()), page, n, m)
    {
      hide Bit, CountFree, Marked, RunsOK, TailOK, Synced;
      ShrinkPagesOK(View(), page, n, m);
      ghost var w := freeMap[..];
      pageMap[page] := LRun(m);
      freePages := freePages + (n - m);
      ResetRange(freeMap, page + m, n - m);
      SyncFill(w, freeMap[..], own, page + m, n - m, -1);
      own := Fill(own, page + m, n - m, -1);
      assert View() == ShrinkRun(old(View()), page, n, m);
    }

    /** In-place growth of a large run from `n` to `m` pages, when the pages after it are free. */
    method GrowLarge(page: nat, n: nat, m: nat) returns (grown: bool)
      requires Valid() && PagesOK(View())
      requires 1 <= page < PAGES && own[page] == page && pageMap[page] == LRun(n) && n < m
      modifies this`freePages, this`own, freeMap, pageMap
      ensures Valid() && PagesOK(View())
      ensures grown <==> page + m <= PAGES && AllFree(old(own), page + n, page + m)
      ensures View() == if grown then GrowRun(old(View()), page, n, m) else old(View())
    {
      hide Bit, CountFree, Marked, Synced, AllFree, NoneMarked;
      if page + m > PAGES {
        return false;
      }
      assert InOwnRun(View(), page);
      hide RunsOK, TailOK;
      grown := IsFreeRange(freeMap, page + n, m - n);
      SyncFree(freeMap[..], own, page + n, page + m);
      if grown {
        GrowPagesOK(View(), page, n, m);
        ghost var w := freeMap[..];
        freePages := freePages - (m - n);
        SetRange(freeMap, page + n, m - n);
        SyncFill(w, freeMap[..], own, page + n, m - n, page);
        pageMap[page] := LRun(m);
        own := Fill(own, page + n, m - n, page);
        assert View() == GrowRun(old(View()), page, n, m);
      }
    }

    /** Label the pages of a fresh run as a small run of class `b`. */
    method LabelSmall(page: nat, b: nat)
      requires Valid() && PagesOK(View()) && b < BINS
      requires 1 <= page < PAGES && own[page] == page && pageMap[page] == LRun(BinPages(b))
      modifies pageMap
      ensures Valid() && PagesOK(View())
      ensures View() == MakeSmall(old(View()), page, b)
    {
      hide Bit, CountFree, Marked, Synced, BinPages, RunsOK, TailOK;
      SmallPagesOK(View(), page, b);
      RunInside(View(), page);
      BinFacts(b);
      ghost var m := pageMap[..];
      pageMap[page] := SRun(b, 0);
      if BinPages(b) > 1 {
        var i := 1;
        while i < BinPages(b)
          invariant 1 <= i <= BinPages(b)
          invariant forall q :: 0 <= q < 512 ==>
            pageMap[q] == (if q == page then SRun(b, 0) else if page < q < page + i then NRun(b, q - page) else m[q])
        {
          pageMap[page + i] := NRun(b, i);
          i := i + 1;
        }
      }
      assert pageMap[..] == SmallLabels(m, page, b);
    }

    /** Record how many free elements of the small run at `page` were seen. */
    method SetCounter(page: nat, n: nat)
      requires Valid() && PagesOK(View()) && page < PAGES && pageMap[page].SRun?
      modifies pageMap
      ensures Valid() && PagesOK(View())
      ensures View() == old(View()).(info := old(View()).info[page := SRun(old(pageMap[page]).bin, n)])
    {
      hide CountFree, Synced;
      ghost var p := View();
      pageMap[page] := SRun(pageMap[page].bin, n);
      assert pageMap[..] == p.info[page := SRun(p.info[page].bin, n)];
      CountersOK(p, View());
    }

    /** memset over the page part of the header. */
    method ClearPages()
      requires Shape()
      modifies this`freePages, this`freeTail, this`own, freeMap, pageMap
      ensures Valid() && View() == ZeroPages()
    {
      hide Bit;
      var i := 0;
      while i < 8
        invariant 0 <= i <= 8
        invariant forall j :: 0 <= j < i ==> freeMap[j] == 0
      {
        freeMap[i] := 0;
        i := i + 1;
      }
      i := 0;
      while i < 512
        invariant 0 <= i <= 512
        invariant forall j :: 0 <= j < i ==> pageMap[j] == FRun
        invariant forall j :: 0 <= j < 8 ==> freeMap[j] == 0
      {
        pageMap[i] := FRun;
        i := i + 1;
      }
      freePages, freeTail := 0, 0;
      own := seq(512, _ => -1);
      ZeroWords(freeMap[..]);
      assert own == ZeroPages().own && pageMap[..] == ZeroPages().info;
    }

    /** Page pass of the collector over this chunk: frees the small runs that are full,
        resets the counters of the others, and returns the number of pages freed. */
    method Sweep() returns (collected: nat)
      requires Valid() && PagesOK(View())
      modifies this`freePages, this`freeTail, this`own, freeMap, pageMap
      ensures Valid() && PagesOK(View())
      ensures SweptTo(old(View()), View(), PAGES)
      ensures collected == freePages - old(freePages)
    {
      hide Bit, CountFree, Marked, Synced, RunsOK, TailOK, SweptTo, Boundary, BinPages, Full;
      ghost var p := View();
      FirstPageUsed(p);
      SweepBegin(p);
      var i := FIRST_PAGE;
      collected := 0;
      while i < freeTail
        invariant Valid() && PagesOK(View()) && RunsOK(p)
        invariant 1 <= i && SweptTo(p, View(), i) && Boundary(p, i)
        invariant collected == freePages - p.freePages
        decreases PAGES - i
      {
        assert freeTail <= PAGES by { TailInside(View()); }
        SyncBit(freeMap[..], own, i);
        if Bit(freeMap[i / 64], i % 64) {
          var info := pageMap[i];
          if info.SRun? {
            if Full(info) {
              SweepRelease(p, View(), i, RunLen(info));
              collected := collected + BinPages(info.bin);
              assert BinPages(info.bin) == RunLen(info) by { FullLen(info); }
              ReleaseRun(i, BinPages(info.bin));
            } else {
              SweepReset(p, View(), i, RunLen(info));
              ResetCounterOK(View(), i);
              pageMap[i] := SRun(info.bin, 0);
            }
            i := i + BinPages(info.bin);
          } else {
            SweepLarge(p, View(), i);
            i := i + info.pages;
          }
        } else {
          SweepFree(p, View(), i);
          i := i + 1;
        }
      }
      SweepEnd(p, View(), i);
    }
  }

  lemma TailInside(p: Pages)
    requires TailOK(p)
    ensures p.freeTail <= PAGES
  {}

  lemma RunInside(p: Pages, s: nat)
    requires PagesOK(p) && s < PAGES && p.own[s] == s
    ensures s + RunLen(p.info[s]) <= PAGES && |p.info| == PAGES
  {
    assert InOwnRun(p, s);
  }

  lemma FullLen(i: PageInfo)
    requires i.SRun? && i.bin < BINS
    ensures RunLen(i) == BinPages(i.bin)
  {}

  lemma ResetCounterOK(p: Pages, s: nat)
    requires PagesOK(p) && s < PAGES && p.info[s].SRun?
    ensures PagesOK(p.(info := p.info[s := SRun(p.info[s].bin, 0)]))
  {
    hide CountFree;
    CountersOK(p, p.(info := p.info[s := SRun(p.info[s].bin, 0)]));
  }

  /** Setting or clearing a range of the bitmap is filling a range of owners. */
  lemma SyncFill(w: seq<bv64>, w2: seq<bv64>, own: seq<int>, s: nat, n: nat, v: int)
    requires Synced(w, own) && |w2| == |w| && s + n <= |own|
    requires forall i :: 0 <= i < 64 * |w| ==>
      (Marked(w2, i) <==> if s <= i < s + n then v >= 0 else Marked(w, i))
    ensures Synced(w2, Fill(own, s, n, v))
  {
    hide Marked;
  }

  lemma SyncFree(w: seq<bv64>, own: seq<int>, s: nat, e: nat)
    requires Synced(w, own) && e <= |own|
    ensures NoneMarked(w, s, e) <==> AllFree(own, s, e)
  {
    hide Marked;
    if NoneMarked(w, s, e) {
      forall q | s <= q < e ensures own[q] < 0 { assert !Marked(w, q); }
    }
    if AllFree(own, s, e) {
      forall q | s <= q < e ensures !Marked(w, q) { assert own[q] < 0; }
    }
  }

  lemma SyncBit(w: seq<bv64>, own: seq<int>, i: nat)
    requires Synced(w, own) && i < |own|
    ensures Bit(w[i / 64], i % 64) <==> own[i] >= 0
  {
    hide Bit;
    assert Marked(w, i) <==> own[i] >= 0;
  }

  lemma ZeroWords(w: seq<bv64>)
    requires |w| == 8 && (forall j :: 0 <= j < 8 ==> w[j] == 0)
    ensures Synced(w, seq(512, _ => -1))
  {
    hide Bit;
    forall i | 0 <= i < 512 ensures !Marked(w, i) {
      ConstantBits(i % 64);
    }
  }

  lemma OneBit(k: nat)
    requires k < 64
    ensures Bit(1, k) <==> k == 0
  {
    hide Bit;
    MaskBits(0, k);
    var one: bv64 := 1;
    assert one << 0 == 1;
  }

  /** Writing one into the first word of a blank bitmap marks the first page only. */
  lemma FirstWord(w: seq<bv64>, own: seq<int>)
    requires Synced(w, own) && Blank(own)
    ensures Synced(w[0 := 1], Fill(own, 0, 1, 0))
  {
    hide Bit;
    var v, o := w[0 := 1], Fill(own, 0, 1, 0);
    forall i | 0 <= i < 512 ensures Marked(v, i) <==> o[i] >= 0 {
      if i < 64 {
        OneBit(i);
      } else {
        assert Marked(v, i) == Marked(w, i);
      }
    }
  }
}
