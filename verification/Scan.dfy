/** How the best-fit search reads a page bitmap one word at a time.

    The search keeps a working copy of the current word. While it skips used pages, the
    bits it has passed are forced to one; while it skips free pages, they are forced to
    zero. Each step below ties such a word to the pages it stands for. */
module Scan {
  import opened Sizes
  import opened Word
  import opened PageBitmap
  import opened Pages

  /** The bitmap marks exactly the owned pages. */
  ghost predicate Synced(words: seq<bv64>, own: seq<int>) {
    && 64 * |words| == |own|
    && (forall i :: 0 <= i < |own| ==> (Marked(words, i) <==> own[i] >= 0))
  }

  /** `tmp` is the word of pages `i..i+64` with the pages before `pos` forced to one. */
  ghost predicate SkippingUsed(tmp: bv64, own: seq<int>, i: int, pos: int) {
    && 0 <= i && i + 64 <= |own|
    && (forall k :: 0 <= k < 64 ==> (Bit(tmp, k) <==> i + k < pos || own[i + k] >= 0))
  }

  /** `tmp` is the word of pages `i..i+64` with the pages before `page` forced to zero. */
  ghost predicate SkippingFree(tmp: bv64, own: seq<int>, i: int, page: int) {
    && 0 <= i && i + 64 <= |own|
    && (forall k :: 0 <= k < 64 ==> (Bit(tmp, k) <==> page <= i + k && own[i + k] >= 0))
  }

  lemma LoadWord(words: seq<bv64>, own: seq<int>, i: int, pos: int)
    requires Synced(words, own)
    requires 0 <= i && i % 64 == 0 && i + 64 <= |own| && pos <= i
    ensures SkippingUsed(words[i / 64], own, i, pos)
    ensures SkippingFree(words[i / 64], own, i, pos)
  {
    hide Bit;
    forall k | 0 <= k < 64 ensures Bit(words[i / 64], k) <==> own[i + k] >= 0 {
      assert (i + k) / 64 == i / 64 && (i + k) % 64 == k;
      assert Marked(words, i + k) <==> own[i + k] >= 0;
    }
  }

  lemma UsedWord(tmp: bv64, own: seq<int>, i: int, pos: int)
    requires SkippingUsed(tmp, own, i, pos) && AllUsed(own, pos, i)
    requires tmp == 0xFFFF_FFFF_FFFF_FFFF
    ensures AllUsed(own, pos, i + 64)
  {
    hide Bit;
    forall q | pos <= q < i + 64 && 0 <= q ensures own[q] >= 0 {
      if i <= q {
        ConstantBits(q - i);
        assert Bit(tmp, q - i) <==> i + (q - i) < pos || own[i + (q - i)] >= 0;
      }
    }
  }

  lemma FirstFree(tmp: bv64, own: seq<int>, i: int, pos: int)
    requires SkippingUsed(tmp, own, i, pos) && AllUsed(own, pos, i) && pos <= i + 64
    requires tmp != 0xFFFF_FFFF_FFFF_FFFF
    ensures var page := i + TrailingOnes(tmp);
      && pos <= page < i + 64 && own[page] < 0 && AllUsed(own, pos, page) && AllFree(own, page, i)
      && SkippingFree(DropTrailingOnes(tmp), own, i, page)
  {
    hide Bit, TrailingOnes, DropTrailingOnes;
    TrailingOnesSpec(tmp, 0);
    var t := TrailingOnes(tmp);
    TrailingOnesSpec(tmp, t);
    var page := i + t;
    forall q | pos <= q < page && 0 <= q ensures own[q] >= 0 {
      if i <= q {
        TrailingOnesSpec(tmp, q - i);
        assert Bit(tmp, q - i) <==> i + (q - i) < pos || own[i + (q - i)] >= 0;
      }
    }
    forall k | 0 <= k < 64
      ensures Bit(DropTrailingOnes(tmp), k) <==> page <= i + k && own[i + k] >= 0
    {
      DropTrailingOnesBit(tmp, k);
    }
  }

  lemma FreeWord(own: seq<int>, i: int, page: int)
    requires SkippingFree(0, own, i, page) && AllFree(own, page, i)
    ensures AllFree(own, page, i + 64)
  {
    hide Bit;
    forall q | page <= q < i + 64 && 0 <= q ensures own[q] < 0 {
      if i <= q {
        ConstantBits(q - i);
        assert Bit(0, q - i) <==> page <= i + (q - i) && own[i + (q - i)] >= 0;
      }
    }
  }

  lemma FirstUsed(tmp: bv64, own: seq<int>, i: int, page: int)
    requires SkippingFree(tmp, own, i, page) && AllFree(own, page, i)
    requires tmp != 0
    ensures var e := i + TrailingZeros(tmp);
      && page <= e < i + 64 && own[e] >= 0 && AllFree(own, page, e)
      && SkippingUsed(FillTrailingZeros(tmp), own, i, e + 1) && AllUsed(own, e + 1, i)
  {
    hide Bit, TrailingZeros, FillTrailingZeros;
    TrailingZerosSpec(tmp, 0);
    var z := TrailingZeros(tmp);
    TrailingZerosSpec(tmp, z);
    var e := i + z;
    forall q | page <= q < e && 0 <= q ensures own[q] < 0 {
      if i <= q {
        TrailingZerosSpec(tmp, q - i);
        assert Bit(tmp, q - i) <==> page <= i + (q - i) && own[i + (q - i)] >= 0;
      }
    }
    forall k | 0 <= k < 64
      ensures Bit(FillTrailingZeros(tmp), k) <==> i + k < e + 1 || own[i + k] >= 0
    {
      FillTrailingZerosBit(tmp, k);
      TrailingZerosSpec(tmp, k);
    }
  }
}
