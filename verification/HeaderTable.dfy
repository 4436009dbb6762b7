/** The chunk headers as they are reached from addresses: rounding a pointer down to a
    chunk boundary gives the chunk whose header lies there. */
module HeaderTable {
  import opened Sizes
  import opened Pages
  import opened Memory
  import opened Blocks
  import opened Scan
  import opened Chunks
  import opened Rings

  /** The header object `h` is the header of chunk `c` with these pages and links. */
  ghost predicate HeaderIs(h: Chunk, c: int, p: Pages, l: Links)
    reads h, h.freeMap, h.pageMap
  {
    h.addr == c && h.Valid() && h.View() == p && h.Header() == l
  }

  lemma HeaderFacts(h: Chunk, c: int, p: Pages, l: Links)
    ensures HeaderIs(h, c, p, l) <==> h.addr == c && h.Valid() && h.View() == p && h.Header() == l
  {
    hide Synced;
  }

  /** Two headers share no memory. */
  ghost predicate Separate(g: Chunk, h: Chunk) {
    && g != h
    && g.freeMap != h.freeMap && g.pageMap != h.pageMap
    && (g.freeMap as object) != h.pageMap && (g.pageMap as object) != h.freeMap
  }

  lemma NotShared(s: set<object>, g: Chunk, h: Chunk)
    requires g in s && g.freeMap in s && g.pageMap in s
    requires h !in s && h.freeMap !in s && h.pageMap !in s
    ensures Separate(g, h) && Separate(h, g)
  {}

  class Headers {
    var chunk: map<int, Chunk>
    ghost var pg: map<int, Pages>     // page state of every chunk
    ghost var ln: map<int, Links>     // link fields of every chunk
    ghost var objs: set<object>       // the header objects and their arrays

    ghost predicate Valid()
      reads this, objs
      ensures Valid() ==> this !in objs && chunk.Keys == pg.Keys == ln.Keys
    {
      && this !in objs
      && chunk.Keys == pg.Keys == ln.Keys
      && (forall c :: c in chunk ==> chunk[c] in objs && chunk[c].freeMap in objs && chunk[c].pageMap in objs)
      && (forall c :: c in chunk ==> HeaderIs(chunk[c], c, pg[c], ln[c]))
      && (forall c, d :: c in chunk && d in chunk && c != d ==> Separate(chunk[c], chunk[d]))
    }

    constructor ()
      ensures Valid() && fresh(objs) && pg == map[] && ln == map[]
    {
      chunk, pg, ln, objs := map[], map[], map[], {};
    }

    /** Enter a header that shares no memory with the others. */
    method Register(c: int, h: Chunk)
      requires Valid() && c !in pg && h.addr == c && h.Valid()
      requires h !in objs && h.freeMap !in objs && h.pageMap !in objs
      requires (h as object) != this && (h.freeMap as object) != this && (h.pageMap as object) != this
      modifies this
      ensures Valid() && objs == old(objs) + {h, h.freeMap, h.pageMap}
      ensures pg == old(pg)[c := h.View()] && ln == old(ln)[c := h.Header()]
    {
      hide HeaderIs, Synced, Separate;
      HeaderFacts(h, c, h.View(), h.Header());
      forall d | d in chunk ensures Separate(chunk[d], h) && Separate(h, chunk[d]) {
        NotShared(objs, chunk[d], h);
      }
      chunk, pg, ln, objs := chunk[c := h], pg[c := h.View()], ln[c := h.Header()], objs + {h, h.freeMap, h.pageMap};
    }

    /** A zeroed header appears at `c`. */
    method Add(c: int)
      requires Valid() && c !in pg
      modifies this
      ensures Valid() && fresh(objs - old(objs))
      ensures pg.Keys == old(pg).Keys + {c} && pg == old(pg)[c := pg[c]]
      ensures Blank(pg[c].own) && |pg[c].info| == PAGES
      ensures ln.Keys == old(ln).Keys + {c} && ln == old(ln)[c := ln[c]] && ln[c].num == 0
    {
      hide HeaderIs, Synced, Separate;
      var h := new Chunk(c);
      Register(c, h);
    }

    /** The header of the main chunk of a new heap. */
    method InitMain(c: int, home: int)
      requires Valid() && pg == map[]
      modifies this, objs
      ensures Valid() && fresh(objs - old(objs))
      ensures pg.Keys == {c} && ln.Keys == {c}
      ensures exists p: Pages :: Blank(p.own) && |p.info| == PAGES && pg[c] == FirstRun(p)
      ensures ln[c].next == c && ln[c].prev == c && ln[c].heap == home && ln[c].num == 0
    {
      hide Valid, Blank, FirstRun, PagesOK;
      Add(c);
      SetNext(c, c);
      SetPrev(c, c);
      SetHome(c, home);
      SetNum(c, 0);
      InitPages(c);
    }

    /** The header at `c` goes away with its memory. */
    method Remove(c: int)
      requires Valid() && c in pg
      modifies this
      ensures Valid() && objs == old(objs)
      ensures pg == old(pg) - {c} && ln == old(ln) - {c}
    {
      hide HeaderIs;
      chunk := chunk - {c};
      pg := pg - {c};
      ln := ln - {c};
    }

    /** The header fields of `c`, as the code reads them. */
    function Get(c: int): (l: Links)
      requires Valid() && c in ln
      reads this, objs
      ensures l == ln[c]
    {
      HeaderFacts(chunk[c], c, pg[c], ln[c]);
      Links(chunk[c].next, chunk[c].prev, chunk[c].nextShadow, chunk[c].heap, chunk[c].num)
    }

    // ----- link fields -----

    method SetNext(c: int, v: int)
      requires Valid() && c in ln
      modifies objs, this`ln
      ensures Valid() && objs == old(objs) && ln == SetLinkNext(old(ln), c, v)
    {
      hide HeaderIs, Synced;
      HeaderFacts(chunk[c], c, pg[c], ln[c]);
      chunk[c].next := v;
      ln := ln[c := chunk[c].Header()];
      HeaderFacts(chunk[c], c, pg[c], ln[c]);
    }

    method SetPrev(c: int, v: int)
      requires Valid() && c in ln
      modifies objs, this`ln
      ensures Valid() && objs == old(objs) && ln == SetLinkPrev(old(ln), c, v)
    {
      hide HeaderIs, Synced;
      HeaderFacts(chunk[c], c, pg[c], ln[c]);
      chunk[c].prev := v;
      ln := ln[c := chunk[c].Header()];
      HeaderFacts(chunk[c], c, pg[c], ln[c]);
    }

    method SetShadow(c: int, w: Word8)
      requires Valid() && c in ln
      modifies objs, this`ln
      ensures Valid() && objs == old(objs) && ln == old(ln)[c := old(ln)[c].(shadow := w)]
    {
      hide HeaderIs, Synced;
      HeaderFacts(chunk[c], c, pg[c], ln[c]);
      chunk[c].nextShadow := w;
      ln := ln[c := chunk[c].Header()];
      HeaderFacts(chunk[c], c, pg[c], ln[c]);
    }

    method SetHome(c: int, heap: int)
      requires Valid() && c in ln
      modifies objs, this`ln
      ensures Valid() && objs == old(objs) && ln == old(ln)[c := old(ln)[c].(heap := heap)]
    {
      hide HeaderIs, Synced;
      HeaderFacts(chunk[c], c, pg[c], ln[c]);
      chunk[c].heap := heap;
      ln := ln[c := chunk[c].Header()];
      HeaderFacts(chunk[c], c, pg[c], ln[c]);
    }

    method SetNum(c: int, num: int)
      requires Valid() && c in ln
      modifies objs, this`ln
      ensures Valid() && objs == old(objs) && ln == old(ln)[c := old(ln)[c].(num := num)]
    {
      hide HeaderIs, Synced;
      HeaderFacts(chunk[c], c, pg[c], ln[c]);
      chunk[c].num := num;
      ln := ln[c := chunk[c].Header()];
      HeaderFacts(chunk[c], c, pg[c], ln[c]);
    }

    // ----- page state -----

    function FreePages(c: int): (n: int)
      requires Valid() && c in pg
      reads this, objs
      ensures n == pg[c].freePages
    {
      HeaderFacts(chunk[c], c, pg[c], ln[c]);
      chunk[c].freePages
    }

    function Label(c: int, page: nat): (i: PageInfo)
      requires Valid() && c in pg && page < PAGES && |pg[c].info| == PAGES
      reads this, objs
      ensures i == pg[c].info[page]
    {
      HeaderFacts(chunk[c], c, pg[c], ln[c]);
      chunk[c].pageMap[page]
    }

    method FindPages(c: int, n: nat) returns (page: int)
      requires Valid() && c in pg
      requires PagesOK(pg[c]) && 1 <= n < PAGES
      modifies objs, this`pg
      ensures Valid() && objs == old(objs) && pg.Keys == old(pg).Keys
      ensures pg == old(pg)[c := old(pg)[c].(freeTail := pg[c].freeTail)] && PagesOK(pg[c]) && 0 <= page
      ensures page == 0 ==> NoRoom(pg[c].own, n)
      ensures page != 0 ==> page <= pg[c].freeTail && exists e :: BestFit(pg[c].own, n, page, e)
    {
      hide HeaderIs, Synced, PagesOK, AllFree, TakeRun, FreeRun, ShrinkRun, GrowRun, MakeSmall, RunLen,
        BinPages, BestFit, NoRoom, SweptTo, Blank, FirstRun;
      HeaderFacts(chunk[c], c, pg[c], ln[c]);
      page := chunk[c].FindPages(n);
      pg := pg[c := chunk[c].View()];
      HeaderFacts(chunk[c], c, pg[c], ln[c]);
    }

    method MarkRun(c: int, page: nat, n: nat)
      requires Valid() && c in pg
      requires PagesOK(pg[c]) && 1 <= page && 1 <= n && page + n <= PAGES
      requires AllFree(pg[c].own, page, page + n) && page <= pg[c].freeTail
      modifies objs, this`pg
      ensures Valid() && objs == old(objs) && pg.Keys == old(pg).Keys
      ensures pg == old(pg)[c := TakeRun(old(pg)[c], page, n)] && PagesOK(pg[c])
    {
      hide HeaderIs, Synced, PagesOK, AllFree, TakeRun, FreeRun, ShrinkRun, GrowRun, MakeSmall, RunLen,
        BinPages, BestFit, NoRoom, SweptTo, Blank, FirstRun;
      HeaderFacts(chunk[c], c, pg[c], ln[c]);
      chunk[c].MarkRun(page, n);
      pg := pg[c := chunk[c].View()];
      HeaderFacts(chunk[c], c, pg[c], ln[c]);
    }

    method ReleaseRun(c: int, page: nat, n: nat)
      requires Valid() && c in pg
      requires PagesOK(pg[c]) && 1 <= page < PAGES && pg[c].own[page] == page && n == RunLen(pg[c].info[page])
      modifies objs, this`pg
      ensures Valid() && objs == old(objs) && pg.Keys == old(pg).Keys
      ensures pg == old(pg)[c := FreeRun(old(pg)[c], page, n)] && PagesOK(pg[c])
    {
      hide HeaderIs, Synced, PagesOK, AllFree, TakeRun, FreeRun, ShrinkRun, GrowRun, MakeSmall, RunLen,
        BinPages, BestFit, NoRoom, SweptTo, Blank, FirstRun;
      HeaderFacts(chunk[c], c, pg[c], ln[c]);
      chunk[c].ReleaseRun(page, n);
      pg := pg[c := chunk[c].View()];
      HeaderFacts(chunk[c], c, pg[c], ln[c]);
    }

    method ShrinkLarge(c: int, page: nat, n: nat, m: nat)
      requires Valid() && c in pg
      requires PagesOK(pg[c]) && 1 <= page < PAGES && pg[c].own[page] == page && pg[c].info[page] == LRun(n)
      requires 1 <= m < n
      modifies objs, this`pg
      ensures Valid() && objs == old(objs) && pg.Keys == old(pg).Keys
      ensures pg == old(pg)[c := ShrinkRun(old(pg)[c], page, n, m)] && PagesOK(pg[c])
    {
      hide HeaderIs, Synced, PagesOK, AllFree, TakeRun, FreeRun, ShrinkRun, GrowRun, MakeSmall, RunLen,
        BinPages, BestFit, NoRoom, SweptTo, Blank, FirstRun;
      HeaderFacts(chunk[c], c, pg[c], ln[c]);
      chunk[c].ShrinkLarge(page, n, m);
      pg := pg[c := chunk[c].View()];
      HeaderFacts(chunk[c], c, pg[c], ln[c]);
    }

    method GrowLarge(c: int, page: nat, n: nat, m: nat) returns (grown: bool)
      requires Valid() && c in pg
      requires PagesOK(pg[c]) && 1 <= page < PAGES && pg[c].own[page] == page && pg[c].info[page] == LRun(n)
      requires n < m
      modifies objs, this`pg
      ensures Valid() && objs == old(objs) && pg.Keys == old(pg).Keys
      ensures grown <==> page + m <= PAGES && AllFree(old(pg)[c].own, page + n, page + m)
      ensures grown ==> pg == old(pg)[c := GrowRun(old(pg)[c], page, n, m)] && PagesOK(pg[c])
      ensures !grown ==> pg == old(pg)
    {
      hide HeaderIs, Synced, PagesOK, AllFree, TakeRun, FreeRun, ShrinkRun, GrowRun, MakeSmall, RunLen,
        BinPages, BestFit, NoRoom, SweptTo, Blank, FirstRun;
      HeaderFacts(chunk[c], c, pg[c], ln[c]);
      grown := chunk[c].GrowLarge(page, n, m);
      pg := pg[c := chunk[c].View()];
      HeaderFacts(chunk[c], c, pg[c], ln[c]);
    }

    method LabelSmall(c: int, page: nat, b: nat)
      requires Valid() && c in pg
      requires PagesOK(pg[c]) && b < BINS && 1 <= page < PAGES
      requires pg[c].own[page] == page && pg[c].info[page] == LRun(BinPages(b))
      modifies objs, this`pg
      ensures Valid() && objs == old(objs) && pg.Keys == old(pg).Keys
      ensures pg == old(pg)[c := MakeSmall(old(pg)[c], page, b)] && PagesOK(pg[c])
    {
      hide HeaderIs, Synced, PagesOK, AllFree, TakeRun, FreeRun, ShrinkRun, GrowRun, MakeSmall, RunLen,
        BinPages, BestFit, NoRoom, SweptTo, Blank, FirstRun;
      HeaderFacts(chunk[c], c, pg[c], ln[c]);
      chunk[c].LabelSmall(page, b);
      pg := pg[c := chunk[c].View()];
      HeaderFacts(chunk[c], c, pg[c], ln[c]);
    }

    method SetCounter(c: int, page: nat, n: nat)
      requires Valid() && c in pg
      requires PagesOK(pg[c]) && page < PAGES && pg[c].info[page].SRun?
      modifies objs, this`pg
      ensures Valid() && objs == old(objs) && pg.Keys == old(pg).Keys
      ensures pg == old(pg)[c := old(pg)[c].(info := old(pg)[c].info[page := SRun(old(pg)[c].info[page].bin, n)])]
      ensures PagesOK(pg[c])
    {
      hide HeaderIs, Synced, PagesOK, AllFree, TakeRun, FreeRun, ShrinkRun, GrowRun, MakeSmall, RunLen,
        BinPages, BestFit, NoRoom, SweptTo, Blank, FirstRun;
      HeaderFacts(chunk[c], c, pg[c], ln[c]);
      chunk[c].SetCounter(page, n);
      pg := pg[c := chunk[c].View()];
      HeaderFacts(chunk[c], c, pg[c], ln[c]);
    }

    method Sweep(c: int) returns (collected: nat)
      requires Valid() && c in pg
      requires PagesOK(pg[c])
      modifies objs, this`pg
      ensures Valid() && objs == old(objs) && pg.Keys == old(pg).Keys
      ensures pg == old(pg)[c := pg[c]] && PagesOK(pg[c])
      ensures SweptTo(old(pg)[c], pg[c], PAGES) && collected == pg[c].freePages - old(pg)[c].freePages
    {
      hide HeaderIs, Synced, PagesOK, AllFree, TakeRun, FreeRun, ShrinkRun, GrowRun, MakeSmall, RunLen,
        BinPages, BestFit, NoRoom, SweptTo, Blank, FirstRun;
      HeaderFacts(chunk[c], c, pg[c], ln[c]);
      collected := chunk[c].Sweep();
      pg := pg[c := chunk[c].View()];
      HeaderFacts(chunk[c], c, pg[c], ln[c]);
    }

    method InitPages(c: int)
      requires Valid() && c in pg
      requires Blank(pg[c].own) && |pg[c].info| == PAGES
      modifies objs, this`pg
      ensures Valid() && objs == old(objs) && pg.Keys == old(pg).Keys
      ensures pg == old(pg)[c := FirstRun(old(pg)[c])] && PagesOK(pg[c])
    {
      hide HeaderIs, Synced, PagesOK, AllFree, TakeRun, FreeRun, ShrinkRun, GrowRun, MakeSmall, RunLen,
        BinPages, BestFit, NoRoom, SweptTo, Blank, FirstRun;
      HeaderFacts(chunk[c], c, pg[c], ln[c]);
      chunk[c].InitPages();
      pg := pg[c := chunk[c].View()];
      HeaderFacts(chunk[c], c, pg[c], ln[c]);
    }

    method ClearPages(c: int)
      requires Valid() && c in pg
      modifies objs, this`pg
      ensures Valid() && objs == old(objs) && pg == old(pg)[c := ZeroPages()]
    {
      hide HeaderIs, Synced, PagesOK, AllFree, TakeRun, FreeRun, ShrinkRun, GrowRun, MakeSmall, RunLen,
        BinPages, BestFit, NoRoom, SweptTo, Blank, FirstRun, ZeroPages;
      HeaderFacts(chunk[c], c, pg[c], ln[c]);
      chunk[c].ClearPages();
      pg := pg[c := chunk[c].View()];
      HeaderFacts(chunk[c], c, pg[c], ln[c]);
    }
  }
}
