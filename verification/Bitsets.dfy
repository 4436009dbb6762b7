/** Sets of small integers held in arrays of machine words: `Zend/zend_bitset.h`.

    Every operation works a word at a time or shifts a word bit by bit. The contracts
    speak of members only: `Marked(words, i)` for one member, `Members(words, n)` for
    the ascending list of all of them. */
module Bitsets {
  import opened Word
  import opened PageBitmap
  import opened Sequences

  // ----- words and their bits -----

  lemma NonZero(w: bv64) returns (k: nat)
    ensures k <= 64
    ensures w != 0 ==> k < 64 && Bit(w, k)
    ensures w == 0 ==> forall j :: 0 <= j < 64 ==> !Bit(w, j)
  {
    hide Bit, TrailingZeros;
    k := TrailingZeros(w);
    TrailingZerosSpec(w, 0);
    if w != 0 {
      TrailingZerosSpec(w, k);
    } else {
      forall j | 0 <= j < 64 ensures !Bit(w, j) { ConstantBits(j); }
    }
  }

  function DownOne(w: bv64): bv64 { w >> 1 }

  function UpOne(w: bv64): bv64 { w << 1 }

  function Single(j: bv7): bv64
    requires j < 64
  {
    1 << j
  }

  lemma TestSingle(w: bv64, j: bv7)
    requires j < 64
    ensures Test(w, j) <==> And(w, Single(j)) != 0
    ensures And(w, Single(j)) == 0 || And(w, Single(j)) == Single(j)
  {}

  lemma DownMask(w: bv64, m: bv64)
    ensures And(DownOne(w), m) == DownOne(And(w, UpOne(m)))
    ensures DownOne(And(w, UpOne(m))) == 0 <==> And(w, UpOne(m)) == 0
  {}

  lemma UpMask(w: bv64, m: bv64)
    ensures And(UpOne(w), UpOne(m)) == UpOne(And(w, m))
    ensures And(UpOne(w), 1) == 0
    ensures And(w, 0) == 0 == UpOne(0)
  {}

  lemma NextSingle(j: bv7)
    requires j < 64
    ensures j < 63 ==> UpOne(Single(j)) == Single(j + 1) != 0
    ensures j == 63 ==> UpOne(Single(j)) == 0
    ensures Single(0) == 1
  {}

  lemma DownTest(w: bv64, j: bv7)
    requires j < 64
    ensures Test(DownOne(w), j) <==> j < 63 && Test(w, j + 1)
  {
    hide Test, Single, And, DownOne, UpOne;
    NextSingle(j);
    TestSingle(DownOne(w), j);
    DownMask(w, Single(j));
    if j < 63 {
      TestSingle(w, j + 1);
    } else {
      UpMask(w, 0);
    }
  }

  lemma UpTest(w: bv64, j: bv7)
    requires j < 64
    ensures Test(UpOne(w), j) <==> j > 0 && Test(w, j - 1)
  {
    hide Test, Single, And, DownOne, UpOne;
    TestSingle(UpOne(w), j);
    if j == 0 {
      UpMask(w, 1);
      NextSingle(0);
    } else {
      var i := j - 1;
      assert i < 63 && i + 1 == j;
      NextSingle(i);
      UpMask(w, Single(i));
      TestSingle(w, i);
      UpMask(w, 0);
    }
  }

  lemma NextAmount(j: nat)
    requires j < 64
    ensures ((j + 1) as bv7) == (j as bv7) + 1
    ensures j as bv7 < 63 <==> j < 63
  {
    ShiftAmount(j);
    ShiftAmount(j + 1);
    ShiftOrder(j, 63);
  }

  lemma DownBit(w: bv64, j: nat)
    requires j < 64
    ensures Bit(DownOne(w), j) <==> j < 63 && Bit(w, j + 1)
  {
    hide Test, DownOne;
    NextAmount(j);
    ShiftOrder(j, 64);
    DownTest(w, j as bv7);
  }

  lemma UpBit(w: bv64, j: nat)
    requires j < 64
    ensures Bit(UpOne(w), j) <==> j > 0 && Bit(w, j - 1)
  {
    hide Test, UpOne;
    ShiftOrder(j, 64);
    ShiftOrder(0, j);
    UpTest(w, j as bv7);
    if j > 0 { NextAmount(j - 1); }
  }

  lemma NoDifference(a: bv64, b: bv64)
    requires And(a, Not(b)) == 0 && And(b, Not(a)) == 0
    ensures a == b
  {}

  /** A word is determined by its bits. */
  lemma SameBits(a: bv64, b: bv64)
    requires forall k :: 0 <= k < 64 ==> (Bit(a, k) <==> Bit(b, k))
    ensures a == b
  {
    hide Bit, And, Not;
    var j := NonZero(And(a, Not(b)));
    var k := NonZero(And(b, Not(a)));
    if j < 64 { AndNotBit(a, b, j); }
    if k < 64 { AndNotBit(b, a, k); }
    NoDifference(a, b);
  }

  /** Number of leading zero bits: a binary search over halves of the word. */
  function LeadingZeros7(w: bv64): bv7 {
    var n5: bv7 := if w >> 32 != 0 then 32 else 64;
    var w5 := if w >> 32 != 0 then w >> 32 else w;
    var n4 := if w5 >> 16 != 0 then n5 - 16 else n5;
    var w4 := if w5 >> 16 != 0 then w5 >> 16 else w5;
    var n3 := if w4 >> 8 != 0 then n4 - 8 else n4;
    var w3 := if w4 >> 8 != 0 then w4 >> 8 else w4;
    var n2 := if w3 >> 4 != 0 then n3 - 4 else n3;
    var w2 := if w3 >> 4 != 0 then w3 >> 4 else w3;
    var n1 := if w2 >> 2 != 0 then n2 - 2 else n2;
    var w1 := if w2 >> 2 != 0 then w2 >> 2 else w2;
    if w1 >> 1 != 0 then n1 - 2 else if w1 == 1 then n1 - 1 else n1
  }

  /** For a nonzero word the count is below 64, and what remains of the word once all bits
      below the counted position are shifted out is that one bit. */
  lemma LeadingZerosSpec(w: bv64)
    requires w != 0
    ensures LeadingZeros7(w) < 64 && w >> (63 - LeadingZeros7(w)) == 1
  {}

  // ----- the members of a set -----

  /** The members below `n`, in ascending order. */
  ghost function Members(words: seq<bv64>, n: nat): (r: seq<nat>)
    requires n <= 64 * |words|
  {
    if n == 0 then [] else Members(words, n - 1) + if Marked(words, n - 1) then [n - 1] else []
  }

  /** `Members` lists exactly the members, each once, in ascending order. */
  lemma {:induction false} MembersExact(words: seq<bv64>, n: nat)
    requires n <= 64 * |words|
    ensures forall i :: 0 <= i < n ==> (i in Members(words, n) <==> Marked(words, i))
    ensures forall x <- Members(words, n) :: x < n
    ensures forall j, k :: 0 <= j < k < |Members(words, n)| ==> Members(words, n)[j] < Members(words, n)[k]
  {
    hide Marked;
    if n > 0 {
      MembersExact(words, n - 1);
      var m := Members(words, n - 1);
      forall j, k | 0 <= j < k < |Members(words, n)| ensures Members(words, n)[j] < Members(words, n)[k] {
        if k == |m| { assert m[j] in m; }
      }
    }
  }

  /** Positions `lo..hi` hold no member: the list does not grow. */
  lemma {:induction false} MembersGap(words: seq<bv64>, lo: nat, hi: nat)
    requires lo <= hi <= 64 * |words|
    requires forall i :: lo <= i < hi ==> !Marked(words, i)
    ensures Members(words, hi) == Members(words, lo)
  {
    hide Marked;
    if lo < hi { MembersGap(words, lo, hi - 1); }
  }

  lemma {:induction false} MembersPrefix(words: seq<bv64>, lo: nat, hi: nat)
    requires lo <= hi <= 64 * |words|
    ensures |Members(words, lo)| <= |Members(words, hi)|
    ensures Members(words, hi)[..|Members(words, lo)|] == Members(words, lo)
  {
    hide Marked;
    if lo < hi { MembersPrefix(words, lo, hi - 1); }
  }

  /** The smallest member heads the list, the largest ends it. */
  lemma Ends(words: seq<bv64>, n: nat, i: nat)
    requires i < n <= 64 * |words| && Marked(words, i)
    ensures var m := Members(words, n); m != []
    ensures (forall j :: 0 <= j < i ==> !Marked(words, j)) ==> Members(words, n)[0] == i
    ensures (forall j :: i < j < n ==> !Marked(words, j)) ==> Members(words, n)[|Members(words, n)| - 1] == i
  {
    hide Marked;
    assert Members(words, i + 1) == Members(words, i) + [i];
    MembersPrefix(words, i + 1, n);
    var m := Members(words, n);
    if forall j :: 0 <= j < i ==> !Marked(words, j) {
      MembersGap(words, 0, i);
      assert m[..1] == [i];
      assert m[0] == m[..1][0];
    }
    if forall j :: i < j < n ==> !Marked(words, j) {
      MembersGap(words, i + 1, n);
    }
  }

  /** Clearing the smallest member removes the head of the list. */
  lemma {:induction false} MembersWithout(w0: seq<bv64>, w1: seq<bv64>, n: nat, i: nat)
    requires |w0| == |w1| && i < n <= 64 * |w0| && Marked(w0, i)
    requires forall j :: 0 <= j < i ==> !Marked(w0, j)
    requires forall j :: 0 <= j < n ==> (Marked(w1, j) <==> j != i && Marked(w0, j))
    ensures Members(w0, n) == [i] + Members(w1, n)
    decreases n
  {
    hide Marked;
    if i == n - 1 {
      MembersGap(w0, 0, i);
      MembersGap(w1, 0, n);
    } else {
      MembersWithout(w0, w1, n - 1, i);
    }
  }

  // ----- single members -----

  /** Number of words for `n` bits: just enough. */
  function Len(n: nat): (r: nat)
    ensures n <= 64 * r < n + 64
  {
    (n + 63) / 64
  }

  method In(set0: array<bv64>, n: nat) returns (r: bool)
    requires n < 64 * set0.Length
    ensures r <==> Marked(set0[..], n)
  {
    r := Bit(set0[n / 64], n % 64);
  }

  method Incl(set0: array<bv64>, n: nat)
    requires n < 64 * set0.Length
    modifies set0
    ensures forall i :: 0 <= i < 64 * set0.Length ==>
      (Marked(set0[..], i) <==> i == n || Marked(old(set0[..]), i))
  {
    hide Bit, Or, Only, Marked, Selects, Updated;
    ghost var s0 := set0[..];
    UpdatedStart(s0, n / 64, n, n + 1, true);
    OneSelects(n % 64);
    PartWord(s0, s0, n / 64, Only(n % 64), n % 64, n % 64 + 1, n, n + 1, true);
    set0[n / 64] := Or(set0[n / 64], Only(n % 64));
    assert set0[..] == s0[n / 64 := set0[n / 64]];
    UpdatedEnd(s0, set0[..], n / 64 + 1, n, n + 1, true);
  }

  method Excl(set0: array<bv64>, n: nat)
    requires n < 64 * set0.Length
    modifies set0
    ensures forall i :: 0 <= i < 64 * set0.Length ==>
      (Marked(set0[..], i) <==> i != n && Marked(old(set0[..]), i))
  {
    hide Bit, And, Not, Only, Marked, Selects, Updated;
    ghost var s0 := set0[..];
    UpdatedStart(s0, n / 64, n, n + 1, false);
    OneSelects(n % 64);
    PartWord(s0, s0, n / 64, Only(n % 64), n % 64, n % 64 + 1, n, n + 1, false);
    set0[n / 64] := And(set0[n / 64], Not(Only(n % 64)));
    assert set0[..] == s0[n / 64 := set0[n / 64]];
    UpdatedEnd(s0, set0[..], n / 64 + 1, n, n + 1, false);
  }

  // ----- whole sets -----

  /** Words from `len` on are those of `was`. */
  ghost predicate RestKept(now: seq<bv64>, was: seq<bv64>, len: nat) {
    |now| == |was| && forall j :: len <= j < |was| ==> now[j] == was[j]
  }

  method Clear(set0: array<bv64>, len: nat)
    requires len <= set0.Length
    modifies set0
    ensures forall i :: 0 <= i < 64 * len ==> !Marked(set0[..], i)
    ensures RestKept(set0[..], old(set0[..]), len)
  {
    hide Bit;
    forall j | 0 <= j < len { set0[j] := 0; }
    forall i | 0 <= i < 64 * len ensures !Marked(set0[..], i) { ConstantBits(i % 64); }
  }

  method Fill(set0: array<bv64>, len: nat)
    requires len <= set0.Length
    modifies set0
    ensures forall i :: 0 <= i < 64 * len ==> Marked(set0[..], i)
    ensures RestKept(set0[..], old(set0[..]), len)
  {
    hide Bit;
    forall j | 0 <= j < len { set0[j] := 0xFFFF_FFFF_FFFF_FFFF; }
    forall i | 0 <= i < 64 * len ensures Marked(set0[..], i) { ConstantBits(i % 64); }
  }

  method Copy(set1: array<bv64>, set2: array<bv64>, len: nat)
    requires len <= set1.Length && len <= set2.Length
    modifies set1
    ensures forall i :: 0 <= i < 64 * len ==> (Marked(set1[..], i) <==> Marked(old(set2[..]), i))
    ensures RestKept(set1[..], old(set1[..]), len)
  {
    hide Bit;
    forall j | 0 <= j < len { set1[j] := set2[j]; }
  }

  method Empty(set0: array<bv64>, len: nat) returns (r: bool)
    requires len <= set0.Length
    ensures r <==> forall i :: 0 <= i < 64 * len ==> !Marked(set0[..], i)
  {
    hide Bit;
    for i := 0 to len
      invariant forall j :: 0 <= j < 64 * i ==> !Marked(set0[..], j)
    {
      ghost var k := NonZero(set0[i]);
      if set0[i] != 0 {
        assert Marked(set0[..], 64 * i + k);
        return false;
      }
      forall j | 0 <= j < 64 * (i + 1) ensures !Marked(set0[..], j) {
        if 64 * i <= j { assert j / 64 == i; }
      }
    }
    r := true;
  }

  method Equal(set1: array<bv64>, set2: array<bv64>, len: nat) returns (r: bool)
    requires len <= set1.Length && len <= set2.Length
    ensures r <==> forall i :: 0 <= i < 64 * len ==> (Marked(set1[..], i) <==> Marked(set2[..], i))
  {
    hide Bit;
    r := set1[..len] == set2[..len];
    if r {
      forall j | 0 <= j < len ensures set1[j] == set2[j] {
        assert set1[..len][j] == set2[..len][j];
      }
    } else if forall i :: 0 <= i < 64 * len ==> (Marked(set1[..], i) <==> Marked(set2[..], i)) {
      forall j | 0 <= j < len ensures set1[j] == set2[j] {
        forall k | 0 <= k < 64 ensures Bit(set1[j], k) <==> Bit(set2[j], k) {
          var i := 64 * j + k;
          assert i / 64 == j && i % 64 == k;
          assert Marked(set1[..], i) <==> Marked(set2[..], i);
        }
        SameBits(set1[j], set2[j]);
      }
    }
  }

  method Subset(set1: array<bv64>, set2: array<bv64>, len: nat) returns (r: bool)
    requires len <= set1.Length && len <= set2.Length
    ensures r <==> forall i :: 0 <= i < 64 * len && Marked(set1[..], i) ==> Marked(set2[..], i)
  {
    hide Bit, And, Not;
    for i := 0 to len
      invariant forall j :: 0 <= j < 64 * i && Marked(set1[..], j) ==> Marked(set2[..], j)
    {
      ghost var k := NonZero(And(set1[i], Not(set2[i])));
      if And(set1[i], Not(set2[i])) != 0 {
        AndNotBit(set1[i], set2[i], k);
        assert (64 * i + k) / 64 == i && (64 * i + k) % 64 == k;
        assert Marked(set1[..], 64 * i + k) && !Marked(set2[..], 64 * i + k);
        return false;
      }
      forall j | 0 <= j < 64 * (i + 1) && Marked(set1[..], j) ensures Marked(set2[..], j) {
        if 64 * i <= j {
          assert j / 64 == i;
          AndNotBit(set1[i], set2[i], j % 64);
        }
      }
    }
    r := true;
  }

  // ----- set algebra; the result may be one of the operands -----

  method Intersection(set1: array<bv64>, set2: array<bv64>, len: nat)
    requires len <= set1.Length && len <= set2.Length
    modifies set1
    ensures forall i :: 0 <= i < 64 * len ==>
      (Marked(set1[..], i) <==> Marked(old(set1[..]), i) && Marked(old(set2[..]), i))
    ensures RestKept(set1[..], old(set1[..]), len)
  {
    hide Bit, And;
    ghost var a, b := set1[..], set2[..];
    for i := 0 to len
      invariant forall j :: 0 <= j < i ==> set1[j] == And(a[j], b[j])
      invariant forall j :: i <= j < set1.Length ==> set1[j] == a[j]
      invariant set2 != set1 ==> set2[..] == b
    {
      set1[i] := And(set1[i], set2[i]);
    }
    forall i | 0 <= i < 64 * len ensures Marked(set1[..], i) <==> Marked(a, i) && Marked(b, i) {
      AndBit(a[i / 64], b[i / 64], i % 64);
    }
  }

  method Union(set1: array<bv64>, set2: array<bv64>, len: nat)
    requires len <= set1.Length && len <= set2.Length
    modifies set1
    ensures forall i :: 0 <= i < 64 * len ==>
      (Marked(set1[..], i) <==> Marked(old(set1[..]), i) || Marked(old(set2[..]), i))
    ensures RestKept(set1[..], old(set1[..]), len)
  {
    hide Bit, Or;
    ghost var a, b := set1[..], set2[..];
    for i := 0 to len
      invariant forall j :: 0 <= j < i ==> set1[j] == Or(a[j], b[j])
      invariant forall j :: i <= j < set1.Length ==> set1[j] == a[j]
      invariant set2 != set1 ==> set2[..] == b
    {
      set1[i] := Or(set1[i], set2[i]);
    }
    forall i | 0 <= i < 64 * len ensures Marked(set1[..], i) <==> Marked(a, i) || Marked(b, i) {
      OrBit(a[i / 64], b[i / 64], i % 64);
    }
  }

  method Difference(set1: array<bv64>, set2: array<bv64>, len: nat)
    requires len <= set1.Length && len <= set2.Length
    modifies set1
    ensures forall i :: 0 <= i < 64 * len ==>
      (Marked(set1[..], i) <==> Marked(old(set1[..]), i) && !Marked(old(set2[..]), i))
    ensures RestKept(set1[..], old(set1[..]), len)
  {
    hide Bit, And, Not;
    ghost var a, b := set1[..], set2[..];
    for i := 0 to len
      invariant forall j :: 0 <= j < i ==> set1[j] == And(a[j], Not(b[j]))
      invariant forall j :: i <= j < set1.Length ==> set1[j] == a[j]
      invariant set2 != set1 ==> set2[..] == b
    {
      set1[i] := And(set1[i], Not(set2[i]));
    }
    forall i | 0 <= i < 64 * len ensures Marked(set1[..], i) <==> Marked(a, i) && !Marked(b, i) {
      AndNotBit(a[i / 64], b[i / 64], i % 64);
    }
  }

  method UnionWithIntersection(set1: array<bv64>, set2: array<bv64>, set3: array<bv64>, set4: array<bv64>, len: nat)
    requires len <= set1.Length && len <= set2.Length && len <= set3.Length && len <= set4.Length
    modifies set1
    ensures forall i :: 0 <= i < 64 * len ==>
      (Marked(set1[..], i) <==> Marked(old(set2[..]), i) || (Marked(old(set3[..]), i) && Marked(old(set4[..]), i)))
    ensures RestKept(set1[..], old(set1[..]), len)
  {
    hide Bit, And, Or;
    ghost var a, b, c, d := set1[..], set2[..], set3[..], set4[..];
    for i := 0 to len
      invariant forall j :: 0 <= j < i ==> set1[j] == Or(b[j], And(c[j], d[j]))
      invariant forall j :: i <= j < set1.Length ==> set1[j] == a[j]
      invariant set2 != set1 ==> set2[..] == b
      invariant set3 != set1 ==> set3[..] == c
      invariant set4 != set1 ==> set4[..] == d
    {
      set1[i] := Or(set2[i], And(set3[i], set4[i]));
    }
    forall i | 0 <= i < 64 * len
      ensures Marked(set1[..], i) <==> Marked(b, i) || (Marked(c, i) && Marked(d, i))
    {
      OrBit(b[i / 64], And(c[i / 64], d[i / 64]), i % 64);
      AndBit(c[i / 64], d[i / 64], i % 64);
    }
  }

  method UnionWithDifference(set1: array<bv64>, set2: array<bv64>, set3: array<bv64>, set4: array<bv64>, len: nat)
    requires len <= set1.Length && len <= set2.Length && len <= set3.Length && len <= set4.Length
    modifies set1
    ensures forall i :: 0 <= i < 64 * len ==>
      (Marked(set1[..], i) <==> Marked(old(set2[..]), i) || (Marked(old(set3[..]), i) && !Marked(old(set4[..]), i)))
    ensures RestKept(set1[..], old(set1[..]), len)
  {
    hide Bit, And, Or, Not;
    ghost var a, b, c, d := set1[..], set2[..], set3[..], set4[..];
    for i := 0 to len
      invariant forall j :: 0 <= j < i ==> set1[j] == Or(b[j], And(c[j], Not(d[j])))
      invariant forall j :: i <= j < set1.Length ==> set1[j] == a[j]
      invariant set2 != set1 ==> set2[..] == b
      invariant set3 != set1 ==> set3[..] == c
      invariant set4 != set1 ==> set4[..] == d
    {
      set1[i] := Or(set2[i], And(set3[i], Not(set4[i])));
    }
    forall i | 0 <= i < 64 * len
      ensures Marked(set1[..], i) <==> Marked(b, i) || (Marked(c, i) && !Marked(d, i))
    {
      OrBit(b[i / 64], And(c[i / 64], Not(d[i / 64])), i % 64);
      AndNotBit(c[i / 64], d[i / 64], i % 64);
    }
  }

  // ----- first, last, pop -----

  lemma WordGap(words: seq<bv64>, i: nat)
    requires i < |words| && words[i] == 0
    ensures forall j :: 64 * i <= j < 64 * i + 64 ==> !Marked(words, j)
  {
    hide Bit;
    var k := NonZero(words[i]);
    forall j | 64 * i <= j < 64 * i + 64 ensures !Marked(words, j) { assert j / 64 == i; }
  }

  /** The first member, or -1. */
  method First(set0: array<bv64>, len: nat) returns (r: int)
    requires len <= set0.Length
    ensures r == var m := Members(set0[..], 64 * len); if m == [] then -1 else m[0]
    ensures r >= 0 ==> r < 64 * len && Marked(set0[..], r) && forall j :: 0 <= j < r ==> !Marked(set0[..], j)
  {
    hide Bit, Members, TrailingZeros;
    for i := 0 to len
      invariant forall j :: 0 <= j < 64 * i ==> !Marked(set0[..], j)
    {
      if set0[i] != 0 {
        r := 64 * i + TrailingZeros(set0[i]);
        ghost var t := TrailingZeros(set0[i]);
        TrailingZerosSpec(set0[i], 0);
        TrailingZerosSpec(set0[i], t);
        assert r / 64 == i && r % 64 == t;
        forall j | 0 <= j < r ensures !Marked(set0[..], j) {
          if 64 * i <= j {
            assert j / 64 == i;
            TrailingZerosSpec(set0[i], j % 64);
          }
        }
        Ends(set0[..], 64 * len, r);
        return;
      }
      WordGap(set0[..], i);
    }
    NoMembers(set0[..], 64 * len);
    r := -1;
  }

  lemma NoMembers(words: seq<bv64>, n: nat)
    requires n <= 64 * |words| && forall j :: 0 <= j < n ==> !Marked(words, j)
    ensures Members(words, n) == []
  {
    hide Marked;
    MembersGap(words, 0, n);
  }

  /** `x` is `w` moved down by `c` bits. */
  ghost predicate MovedDown(w: bv64, x: bv64, c: nat) {
    forall k :: 0 <= k < 64 ==> (Bit(x, k) <==> k + c < 64 && Bit(w, k + c))
  }

  lemma MovedDownAt(w: bv64, x: bv64, c: nat, k: nat)
    requires MovedDown(w, x, c) && k < 64
    ensures Bit(x, k) <==> k + c < 64 && Bit(w, k + c)
  {
    hide Bit;
  }

  lemma DownMoves(w: bv64, x: bv64, c: nat)
    requires MovedDown(w, x, c)
    ensures MovedDown(w, DownOne(x), c + 1)
  {
    hide Bit, DownOne;
    forall k | 0 <= k < 64 ensures Bit(DownOne(x), k) <==> k + (c + 1) < 64 && Bit(w, k + (c + 1)) {
      DownBit(x, k);
      if k < 63 { MovedDownAt(w, x, c, k + 1); }
    }
  }

  lemma MoveDown(w: bv64, x: bv64, c: nat)
    requires MovedDown(w, x, c)
    ensures MovedDown(w, DownOne(x), c + 1)
    ensures x != 0 ==> c < 64
    ensures x == 0 ==> forall k :: c <= k < 64 ==> !Bit(w, k)
    ensures Bit(x, 0) <==> c < 64 && Bit(w, c)
  {
    hide Bit, DownOne, MovedDown;
    var z := NonZero(x);
    if x != 0 { MovedDownAt(w, x, c, z); }
    MovedDownAt(w, x, c, 0);
    DownMoves(w, x, c);
    if x == 0 {
      forall k | c <= k < 64 ensures !Bit(w, k) { MovedDownAt(w, x, c, k - c); }
    }
  }

  /** The last member, or -1: the position is found by shifting the last nonzero word out. */
  method Last(set0: array<bv64>, len: nat) returns (r: int)
    requires len <= set0.Length
    ensures r == var m := Members(set0[..], 64 * len); if m == [] then -1 else m[|m| - 1]
    ensures r >= 0 ==> r < 64 * len && Marked(set0[..], r) && forall j :: r < j < 64 * len ==> !Marked(set0[..], j)
  {
    hide Bit, Members, DownOne, MovedDown;
    var i := len;
    while i > 0
      invariant 0 <= i <= len
      invariant forall j :: 64 * i <= j < 64 * len ==> !Marked(set0[..], j)
    {
      i := i - 1;
      if set0[i] != 0 {
        var x := set0[i];
        r := 64 * i - 1;
        ghost var c := 0;
        assert MovedDown(set0[i], x, 0) by { Unmoved(x); }
        while x != 0
          invariant r == 64 * i - 1 + c && c <= 64
          invariant MovedDown(set0[i], x, c)
          invariant c == 0 ==> x != 0
          invariant c > 0 && x == 0 ==> Bit(set0[i], c - 1)
          decreases 64 - c
        {
          MoveDown(set0[i], x, c);
          LastOut(x);
          x := DownOne(x);
          r := r + 1;
          c := c + 1;
        }
        MoveDown(set0[i], x, c);
        assert r / 64 == i && r % 64 == c - 1;
        forall j | r < j < 64 * len ensures !Marked(set0[..], j) {
          if j < 64 * i + 64 { assert j / 64 == i; }
        }
        Ends(set0[..], 64 * len, r);
        return;
      }
      WordGap(set0[..], i);
    }
    NoMembers(set0[..], 64 * len);
    r := -1;
  }

  lemma Unmoved(w: bv64)
    ensures MovedDown(w, w, 0)
  {
    hide Bit;
  }

  /** A nonzero word that shifts to zero ends in a one. */
  lemma LastOut(x: bv64)
    ensures x != 0 && DownOne(x) == 0 ==> Bit(x, 0)
  {
    hide Bit, DownOne;
    var k := NonZero(x);
    if x != 0 && DownOne(x) == 0 && k > 0 {
      var z := NonZero(DownOne(x));
      DownBit(x, k - 1);
    }
  }

  /** Takes the first member out of the set. */
  method PopFirst(set0: array<bv64>, len: nat) returns (r: int)
    requires len <= set0.Length
    modifies set0
    ensures var m := Members(old(set0[..]), 64 * len);
      if m == [] then r == -1 && set0[..] == old(set0[..])
      else r == m[0] && Members(set0[..], 64 * len) == m[1..]
    ensures forall i :: 0 <= i < 64 * set0.Length ==>
      (Marked(set0[..], i) <==> i != r && Marked(old(set0[..]), i))
  {
    hide Marked, Members;
    r := First(set0, len);
    if r >= 0 {
      ghost var was := set0[..];
      Excl(set0, r);
      MembersWithout(was, set0[..], 64 * len, r);
    }
  }

  // ----- iteration -----

  /** Visits the members in ascending order, each once, and nothing else. */
  method Foreach(set0: array<bv64>, len: nat) returns (visited: seq<nat>)
    requires len <= set0.Length
    ensures visited == Members(set0[..], 64 * len)
  {
    hide Bit, Members, DownOne, MovedDown;
    visited := [];
    assert visited == Members(set0[..], 0) by { NoMembers(set0[..], 0); }
    for i := 0 to len
      invariant visited == Members(set0[..], 64 * i)
    {
      var x := set0[i];
      if x != 0 {
        var bit := 64 * i;
        ghost var c := 0;
        assert MovedDown(set0[i], x, 0) by { Unmoved(x); }
        while x != 0
          invariant bit == 64 * i + c && c <= 64
          invariant MovedDown(set0[i], x, c)
          invariant visited == Members(set0[..], bit)
          decreases 64 - c
        {
          MoveDown(set0[i], x, c);
          MembersStep(set0[..], bit);
          assert bit / 64 == i && bit % 64 == c;
          if Bit(x, 0) { visited := visited + [bit]; }
          x := DownOne(x);
          bit := bit + 1;
          c := c + 1;
        }
        MoveDown(set0[i], x, c);
        forall j | bit <= j < 64 * i + 64 ensures !Marked(set0[..], j) { assert j / 64 == i; }
        MembersGap(set0[..], bit, 64 * i + 64);
      } else {
        WordGap(set0[..], i);
        MembersGap(set0[..], 64 * i, 64 * i + 64);
      }
    }
  }

  lemma MembersStep(words: seq<bv64>, n: nat)
    requires n < 64 * |words|
    ensures Members(words, n + 1) == Members(words, n) + if Marked(words, n) then [n] else []
  {}

  /** `x` is `w` moved up by `c` bits. */
  ghost predicate MovedUp(w: bv64, x: bv64, c: nat) {
    forall k :: 0 <= k < 64 ==> (Bit(x, k) <==> k >= c && Bit(w, k - c))
  }

  lemma MovedUpAt(w: bv64, x: bv64, c: nat, k: nat)
    requires MovedUp(w, x, c) && k < 64
    ensures Bit(x, k) <==> k >= c && Bit(w, k - c)
  {
    hide Bit;
  }

  lemma UpMoves(w: bv64, x: bv64, c: nat)
    requires MovedUp(w, x, c)
    ensures MovedUp(w, UpOne(x), c + 1)
  {
    hide Bit, UpOne;
    forall k | 0 <= k < 64 ensures Bit(UpOne(x), k) <==> k >= c + 1 && Bit(w, k - (c + 1)) {
      UpBit(x, k);
      if k > 0 { MovedUpAt(w, x, c, k - 1); }
    }
  }

  lemma MoveUp(w: bv64, x: bv64, c: nat)
    requires MovedUp(w, x, c)
    ensures MovedUp(w, UpOne(x), c + 1)
    ensures x != 0 ==> c < 64
    ensures x == 0 ==> forall k :: 0 <= k < 64 - c ==> !Bit(w, k)
    ensures Bit(x, 63) <==> c < 64 && Bit(w, 63 - c)
  {
    hide Bit, UpOne, MovedUp;
    var z := NonZero(x);
    if x != 0 { MovedUpAt(w, x, c, z); }
    MovedUpAt(w, x, c, 63);
    UpMoves(w, x, c);
    if x == 0 {
      forall k | 0 <= k < 64 - c ensures !Bit(w, k) { MovedUpAt(w, x, c, k + c); }
    }
  }

  lemma UnmovedUp(w: bv64)
    ensures MovedUp(w, w, 0)
  {
    hide Bit;
  }

  /** Visits the members in descending order, each once, and nothing else. */
  method ReverseForeach(set0: array<bv64>, len: nat) returns (visited: seq<nat>)
    requires len <= set0.Length
    ensures visited == Backwards(Members(set0[..], 64 * len))
  {
    hide Bit, Members, UpOne, MovedUp;
    visited := [];
    ghost var all := Members(set0[..], 64 * len);
    var i := len;
    while i > 0
      invariant 0 <= i <= len
      invariant all == Members(set0[..], 64 * i) + Backwards(visited)
    {
      i := i - 1;
      var x := set0[i];
      if x != 0 {
        var bit: int := 64 * (i + 1) - 1;
        ghost var c := 0;
        assert MovedUp(set0[i], x, 0) by { UnmovedUp(x); }
        while x != 0
          invariant bit == 64 * i + 63 - c && c <= 64
          invariant MovedUp(set0[i], x, c)
          invariant all == Members(set0[..], bit + 1) + Backwards(visited)
          decreases 64 - c
        {
          MoveUp(set0[i], x, c);
          MembersStep(set0[..], bit);
          assert bit / 64 == i && bit % 64 == 63 - c;
          if Bit(x, 63) {
            assert Backwards(visited + [bit as nat]) == [bit] + Backwards(visited);
            visited := visited + [bit];
          }
          x := UpOne(x);
          bit := bit - 1;
          c := c + 1;
        }
        MoveUp(set0[i], x, c);
        forall j | 64 * i <= j < bit + 1 ensures !Marked(set0[..], j) { assert j / 64 == i; }
        MembersGap(set0[..], 64 * i, bit + 1);
      } else {
        WordGap(set0[..], i);
        MembersGap(set0[..], 64 * i, 64 * i + 64);
      }
    }
    NoMembers(set0[..], 0);
    assert all == Backwards(visited);
    assert visited == Backwards(all);
  }
}
