/** Range operations on a bitmap held in an array of machine words.

    A range is handled one word at a time: a partial first word, whole words in
    the middle, a partial last word, with separate code for a single bit and for a
    range inside one word. The contracts speak of single pages only. */
module PageBitmap {
  import opened Word

  /** Page `i` is marked in the bitmap. */
  predicate Marked(words: seq<bv64>, i: nat)
    requires i < 64 * |words|
  {
    Bit(words[i / 64], i % 64)
  }

  // ----- what the partial-word masks do -----

  function From(bit: nat): bv64
    requires bit < 64
  {
    0xFFFF_FFFF_FFFF_FFFF << bit
  }

  function UpTo(end: nat): bv64
    requires end < 64
  {
    0xFFFF_FFFF_FFFF_FFFF >> (63 - end)
  }

  function Between(bit: nat, end: nat): bv64
    requires bit < 64 && end < 64
  {
    And(From(bit), UpTo(end))
  }

  function Only(bit: nat): bv64
    requires bit < 64
  {
    1 << bit
  }

  lemma FromBit(bit: nat, k: nat)
    requires bit < 64 && k < 64
    ensures Bit(From(bit), k) <==> bit <= k
  {
    hide Bit;
    MaskBits(bit, k);
  }

  lemma UpToBit(end: nat, k: nat)
    requires end < 64 && k < 64
    ensures Bit(UpTo(end), k) <==> k <= end
  {
    hide Bit;
    MaskUpToBit(end, k);
  }

  /** `m` selects exactly the bits `lo..hi` of a word. */
  ghost predicate Selects(m: bv64, lo: int, hi: int) {
    forall k :: 0 <= k < 64 ==> (Bit(m, k) <==> lo <= k < hi)
  }

  lemma FromSelects(bit: nat)
    requires bit < 64
    ensures Selects(From(bit), bit, 64)
  {
    hide Bit, From;
    forall k | 0 <= k < 64 ensures Bit(From(bit), k) <==> bit <= k < 64 {
      FromBit(bit, k);
    }
  }

  lemma UpToSelects(end: nat)
    requires end < 64
    ensures Selects(UpTo(end), 0, end + 1)
  {
    hide Bit, UpTo;
    forall k | 0 <= k < 64 ensures Bit(UpTo(end), k) <==> 0 <= k < end + 1 {
      UpToBit(end, k);
    }
  }

  lemma BothSelect(bit: nat, end: nat)
    requires bit < 64 && end < 64
    ensures Selects(Between(bit, end), bit, end + 1)
  {
    hide Bit, From, UpTo, Between;
    forall k | 0 <= k < 64 ensures Bit(Between(bit, end), k) <==> bit <= k < end + 1 {
      BetweenBit(bit, end, k);
    }
  }

  lemma BetweenBit(bit: nat, end: nat, k: nat)
    requires bit < 64 && end < 64 && k < 64
    ensures Bit(Between(bit, end), k) <==> bit <= k <= end
  {
    hide Bit, From, UpTo, And;
    AndBit(From(bit), UpTo(end), k);
    FromBit(bit, k);
    UpToBit(end, k);
  }

  lemma OneSelects(bit: nat)
    requires bit < 64
    ensures Selects(Only(bit), bit, bit + 1)
  {
    hide Bit, Only;
    forall k | 0 <= k < 64 ensures Bit(Only(bit), k) <==> bit <= k < bit + 1 {
      OnlyBit(bit, k);
    }
  }

  lemma OnlyBit(bit: nat, k: nat)
    requires bit < 64 && k < 64
    ensures Bit(Only(bit), k) <==> k == bit
  {
    hide Bit;
    MaskBits(bit, k);
  }

  lemma AndNotBit(w: bv64, m: bv64, k: nat)
    requires k < 64
    ensures Bit(And(w, Not(m)), k) <==> Bit(w, k) && !Bit(m, k)
  {
    hide Bit, And, Not;
    AndBit(w, Not(m), k);
    NotBit(m, k);
  }

  lemma SetSelected(w: bv64, m: bv64, lo: int, hi: int)
    requires Selects(m, lo, hi)
    ensures forall k :: 0 <= k < 64 ==> (Bit(Or(w, m), k) <==> lo <= k < hi || Bit(w, k))
    ensures forall k :: 0 <= k < 64 ==> (Bit(And(w, Not(m)), k) <==> !(lo <= k < hi) && Bit(w, k))
  {
    hide Bit, And, Or, Not;
    forall k | 0 <= k < 64
      ensures Bit(Or(w, m), k) <==> lo <= k < hi || Bit(w, k)
      ensures Bit(And(w, Not(m)), k) <==> !(lo <= k < hi) && Bit(w, k)
    {
      OrBit(w, m, k);
      AndNotBit(w, m, k);
    }
  }

  lemma SelectedClear(w: bv64, m: bv64, lo: int, hi: int)
    requires Selects(m, lo, hi)
    ensures And(w, m) == 0 <==> forall k :: 0 <= k < 64 && lo <= k < hi ==> !Bit(w, k)
  {
    hide Bit, And, TrailingZeros;
    if And(w, m) == 0 {
      forall k | 0 <= k < 64 && lo <= k < hi ensures !Bit(w, k) {
        AndBit(w, m, k);
        ConstantBits(k);
      }
    } else {
      var v := And(w, m);
      TrailingZerosSpec(v, 0);
      var z := TrailingZeros(v);
      TrailingZerosSpec(v, z);
      AndBit(w, m, z);
    }
  }

  // ----- the range operations -----

  /** Words `0..upto` of `s1` are those of `s0` with `start..stop` added (`on`) or
      removed; the remaining words are still those of `s0`. */
  ghost predicate Updated(s0: seq<bv64>, s1: seq<bv64>, upto: nat, start: int, stop: int, on: bool) {
    && |s0| == |s1|
    && (forall i :: 0 <= i < 64 * upto && i < 64 * |s0| ==>
         (Marked(s1, i) <==> if start <= i < stop then on else Marked(s0, i)))
    && (forall j :: upto <= j < |s0| ==> s1[j] == s0[j])
  }

  /** Bits `lo..hi` of word `pos` are the part of `start..stop` in that word. */
  ghost predicate Part(pos: int, lo: int, hi: int, start: int, stop: int) {
    && lo == (if start <= 64 * pos then 0 else start - 64 * pos)
    && hi == (if 64 * pos + 64 <= stop then 64 else stop - 64 * pos)
  }

  lemma UpdatedStart(s: seq<bv64>, upto: nat, start: int, stop: int, on: bool)
    requires 64 * upto <= start
    ensures Updated(s, s, upto, start, stop, on)
  {
    hide Marked;
  }

  lemma UpdatedNext(s0: seq<bv64>, s1: seq<bv64>, pos: nat, w: bv64, lo: int, hi: int,
                    start: int, stop: int, on: bool)
    requires |s0| == |s1| && pos < |s0|
    requires Updated(s0, s1, pos, start, stop, on)
    requires forall k :: 0 <= k < 64 ==> (Bit(w, k) <==> if lo <= k < hi then on else Bit(s0[pos], k))
    requires Part(pos, lo, hi, start, stop)
    ensures Updated(s0, s1[pos := w], pos + 1, start, stop, on)
  {
    hide Bit;
    var s2 := s1[pos := w];
    forall i | 0 <= i < 64 * (pos + 1)
      ensures Marked(s2, i) <==> if start <= i < stop then on else Marked(s0, i)
    {
      if i < 64 * pos {
        assert Marked(s2, i) == Marked(s1, i);
      } else {
        assert i / 64 == pos && i == 64 * pos + i % 64;
      }
    }
  }

  lemma UpdatedEnd(s0: seq<bv64>, s1: seq<bv64>, upto: nat, start: int, stop: int, on: bool)
    requires stop <= 64 * upto
    requires Updated(s0, s1, upto, start, stop, on)
    ensures forall i :: 0 <= i < 64 * |s0| ==>
      (Marked(s1, i) <==> if start <= i < stop then on else Marked(s0, i))
  {
    hide Bit;
  }

  lemma WholeWord(s0: seq<bv64>, s1: seq<bv64>, pos: nat, start: int, stop: int, on: bool)
    requires |s0| == |s1| && pos < |s0|
    requires Updated(s0, s1, pos, start, stop, on)
    requires start <= 64 * pos && 64 * pos + 64 <= stop
    ensures Updated(s0, s1[pos := if on then 0xFFFF_FFFF_FFFF_FFFF else 0], pos + 1, start, stop, on)
  {
    hide Bit, Updated;
    var w: bv64 := if on then 0xFFFF_FFFF_FFFF_FFFF else 0;
    forall k | 0 <= k < 64 ensures Bit(w, k) <==> on {
      ConstantBits(k);
    }
    UpdatedNext(s0, s1, pos, w, 0, 64, start, stop, on);
  }

  lemma PartWord(s0: seq<bv64>, s1: seq<bv64>, pos: nat, m: bv64, lo: int, hi: int,
                 start: int, stop: int, on: bool)
    requires |s0| == |s1| && pos < |s0|
    requires Updated(s0, s1, pos, start, stop, on)
    requires Selects(m, lo, hi) && Part(pos, lo, hi, start, stop)
    ensures on ==> Updated(s0, s1[pos := Or(s1[pos], m)], pos + 1, start, stop, on)
    ensures !on ==> Updated(s0, s1[pos := And(s1[pos], Not(m))], pos + 1, start, stop, on)
  {
    hide Bit, And, Or, Not, Selects, Part;
    assert s1[pos] == s0[pos];
    hide Updated;
    SetSelected(s1[pos], m, lo, hi);
    var w := if on then Or(s1[pos], m) else And(s1[pos], Not(m));
    UpdatedNext(s0, s1, pos, w, lo, hi, start, stop, on);
  }

  method SetRange(bitset: array<bv64>, start: nat, len: nat)
    requires 1 <= len && start + len <= 64 * bitset.Length
    modifies bitset
    ensures forall i :: 0 <= i < 64 * bitset.Length ==>
      (Marked(bitset[..], i) <==> start <= i < start + len || Marked(old(bitset[..]), i))
  {
    hide Bit, And, Or, Not, From, UpTo, Between, Only, Marked, Selects, Updated;
    ghost var s0, stop := bitset[..], start + len;
    UpdatedStart(s0, start / 64, start, stop, true);
    var pos := start / 64;
    if len == 1 {
      OneSelects(start % 64);
      PartWord(s0, s0, pos, Only(start % 64), start % 64, start % 64 + 1, start, stop, true);
      bitset[pos] := Or(bitset[pos], Only(start % 64));
      assert bitset[..] == s0[pos := bitset[pos]];
    } else {
      var end, bit := (start + len - 1) / 64, start % 64;
      if pos != end {
        // from `bit` to the end of the first word
        FromSelects(bit);
        PartWord(s0, s0, pos, From(bit), bit, 64, start, stop, true);
        bitset[pos] := Or(bitset[pos], From(bit));
        assert bitset[..] == s0[pos := bitset[pos]];
        pos := pos + 1;
        while pos != end
          invariant start / 64 < pos <= end < bitset.Length
          invariant Updated(s0, bitset[..], pos, start, stop, true)
        {
          ghost var s := bitset[..];
          WholeWord(s0, s, pos, start, stop, true);
          bitset[pos] := 0xFFFF_FFFF_FFFF_FFFF;
          assert bitset[..] == s[pos := bitset[pos]];
          pos := pos + 1;
        }
        end := (start + len - 1) % 64;
        ghost var s := bitset[..];
        UpToSelects(end);
        PartWord(s0, s, pos, UpTo(end), 0, end + 1, start, stop, true);
        bitset[pos] := Or(bitset[pos], UpTo(end));
        assert bitset[..] == s[pos := bitset[pos]];
      } else {
        end := (start + len - 1) % 64;
        BothSelect(bit, end);
        PartWord(s0, s0, pos, Between(bit, end), bit, end + 1, start, stop, true);
        bitset[pos] := Or(bitset[pos], Between(bit, end));
        assert bitset[..] == s0[pos := bitset[pos]];
      }
    }
    UpdatedEnd(s0, bitset[..], pos + 1, start, stop, true);
  }

  /** The reset code builds its first mask by borrowing instead of shifting ones. */
  function Borrowed(bit: nat): bv64
    requires bit < 64
  {
    Not((1 << bit) - 1)
  }

  lemma BorrowedMask(bit: nat)
    requires bit < 64
    ensures Borrowed(bit) == From(bit)
  {
    BorrowedShift(bit as bv7, 1, 0xFFFF_FFFF_FFFF_FFFF);
  }

  lemma BorrowedShift(bit: bv7, one: bv64, ones: bv64)
    requires bit < 64 && one == 1 && ones == 0xFFFF_FFFF_FFFF_FFFF
    ensures !((one << bit) - 1) == ones << bit
  {}

  method ResetRange(bitset: array<bv64>, start: nat, len: nat)
    requires 1 <= len && start + len <= 64 * bitset.Length
    modifies bitset
    ensures forall i :: 0 <= i < 64 * bitset.Length ==>
      (Marked(bitset[..], i) <==> !(start <= i < start + len) && Marked(old(bitset[..]), i))
  {
    hide Bit, And, Or, Not, From, Borrowed, UpTo, Between, Only, Marked, Selects, Updated;
    ghost var s0, stop := bitset[..], start + len;
    UpdatedStart(s0, start / 64, start, stop, false);
    var pos := start / 64;
    if len == 1 {
      OneSelects(start % 64);
      PartWord(s0, s0, pos, Only(start % 64), start % 64, start % 64 + 1, start, stop, false);
      bitset[pos] := And(bitset[pos], Not(Only(start % 64)));
      assert bitset[..] == s0[pos := bitset[pos]];
    } else {
      var end, bit := (start + len - 1) / 64, start % 64;
      if pos != end {
        FromSelects(bit);
        BorrowedMask(bit);
        PartWord(s0, s0, pos, From(bit), bit, 64, start, stop, false);
        bitset[pos] := And(bitset[pos], Not(Borrowed(bit)));
        assert bitset[..] == s0[pos := bitset[pos]];
        pos := pos + 1;
        while pos != end
          invariant start / 64 < pos <= end < bitset.Length
          invariant Updated(s0, bitset[..], pos, start, stop, false)
        {
          ghost var s := bitset[..];
          WholeWord(s0, s, pos, start, stop, false);
          bitset[pos] := 0;
          assert bitset[..] == s[pos := bitset[pos]];
          pos := pos + 1;
        }
        end := (start + len - 1) % 64;
        ghost var s := bitset[..];
        UpToSelects(end);
        PartWord(s0, s, pos, UpTo(end), 0, end + 1, start, stop, false);
        bitset[pos] := And(bitset[pos], Not(UpTo(end)));
        assert bitset[..] == s[pos := bitset[pos]];
      } else {
        end := (start + len - 1) % 64;
        BothSelect(bit, end);
        PartWord(s0, s0, pos, Between(bit, end), bit, end + 1, start, stop, false);
        bitset[pos] := And(bitset[pos], Not(Between(bit, end)));
        assert bitset[..] == s0[pos := bitset[pos]];
      }
    }
    UpdatedEnd(s0, bitset[..], pos + 1, start, stop, false);
  }

  /** No page of `start..stop` is marked. */
  ghost predicate NoneMarked(s: seq<bv64>, start: nat, stop: int)
    requires stop <= 64 * |s|
  {
    forall i :: start <= i < stop ==> !Marked(s, i)
  }

  /** Once pages `start..64*pos` are clear, testing word `pos` under the mask of its part
      of the range decides the pages up to `upto`. */
  lemma ClearPart(s: seq<bv64>, pos: nat, m: bv64, lo: int, hi: int, start: nat, stop: nat, upto: nat)
    requires pos < |s| && stop <= 64 * |s| && start / 64 <= pos
    requires upto == if 64 * pos + 64 <= stop then 64 * pos + 64 else stop
    requires 64 * pos <= stop && NoneMarked(s, start, 64 * pos)
    requires Selects(m, lo, hi) && Part(pos, lo, hi, start, stop)
    ensures And(s[pos], m) == 0 <==> NoneMarked(s, start, upto)
    ensures And(s[pos], m) != 0 ==> !NoneMarked(s, start, stop)
  {
    hide Bit, And;
    SelectedClear(s[pos], m, lo, hi);
    if And(s[pos], m) == 0 {
      forall i | start <= i < upto ensures !Marked(s, i) {
        if 64 * pos <= i {
          assert i / 64 == pos && i % 64 == i - 64 * pos;
        }
      }
    } else {
      var k :| 0 <= k < 64 && lo <= k < hi && Bit(s[pos], k);
      var i := 64 * pos + k;
      assert i / 64 == pos && i % 64 == k;
      assert Marked(s, i);
    }
  }

  lemma ClearWord(s: seq<bv64>, pos: nat, start: nat, stop: nat)
    requires pos < |s| && start <= 64 * pos && 64 * pos + 64 <= stop <= 64 * |s|
    requires NoneMarked(s, start, 64 * pos)
    ensures s[pos] == 0 <==> NoneMarked(s, start, 64 * pos + 64)
    ensures s[pos] != 0 ==> !NoneMarked(s, start, stop)
  {
    hide Bit, And, From, NoneMarked;
    FromSelects(0);
    ClearPart(s, pos, From(0), 0, 64, start, stop, 64 * pos + 64);
    AndAll(s[pos]);
  }

  lemma AndAll(w: bv64)
    ensures And(w, From(0)) == w
  {}

  lemma OneMarked(s: seq<bv64>, i: nat)
    requires i < 64 * |s|
    ensures NoneMarked(s, i, i + 1) <==> !Bit(s[i / 64], i % 64)
  {
    hide Bit;
    assert Marked(s, i) == Bit(s[i / 64], i % 64);
  }

  method IsFreeRange(bitset: array<bv64>, start: nat, len: nat) returns (free: bool)
    requires 1 <= len && start + len <= 64 * bitset.Length
    ensures free <==> NoneMarked(bitset[..], start, start + len)
  {
    hide Bit, And, From, UpTo, Between, Only, Selects, Marked;
    ghost var s, stop := bitset[..], start + len;
    var pos := start / 64;
    assert NoneMarked(s, start, 64 * pos);
    hide NoneMarked;
    if len == 1 {
      OneMarked(s, start);
      free := !Bit(bitset[pos], start % 64);
    } else {
      var end, bit := (start + len - 1) / 64, start % 64;
      if pos != end {
        FromSelects(bit);
        ClearPart(s, pos, From(bit), bit, 64, start, stop, 64 * pos + 64);
        if And(bitset[pos], From(bit)) != 0 { return false; }
        pos := pos + 1;
        while pos != end
          invariant start / 64 < pos <= end < bitset.Length
          invariant NoneMarked(s, start, 64 * pos)
        {
          ClearWord(s, pos, start, stop);
          if bitset[pos] != 0 { return false; }
          pos := pos + 1;
        }
        end := (start + len - 1) % 64;
        UpToSelects(end);
        ClearPart(s, pos, UpTo(end), 0, end + 1, start, stop, stop);
        free := And(bitset[pos], UpTo(end)) == 0;
      } else {
        end := (start + len - 1) % 64;
        BothSelect(bit, end);
        ClearPart(s, pos, Between(bit, end), bit, end + 1, start, stop, stop);
        free := And(bitset[pos], Between(bit, end)) == 0;
      }
    }
  }
}
