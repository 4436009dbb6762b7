/** 64-bit machine words and their individual bits.

    The page bitmap of the allocator and the bitset library both store sets of
    small integers in arrays of machine words. This module states what the word
    operations do to each bit; everything above it reasons bit by bit. */
module Word {

  /** Bit `k` of `w`, for a bit number that is itself a machine value. */
  predicate Test(w: bv64, k: bv7)
    requires k < 64
  {
    w & (1 << k) != 0
  }

  /** Bit `k` of `w`, counted from the least significant end. */
  predicate Bit(w: bv64, k: nat)
    requires k < 64
  {
    ShiftOrder(k, 64);
    Test(w, k as bv7)
  }

  // ----- shift amounts -----

  lemma ShiftAmount(a: nat)
    requires a <= 64
    ensures (a as bv7) as int == a
  {
    if a < 32 {} else {}
  }

  lemma ShiftOrder(a: nat, b: nat)
    requires a <= 64 && b <= 64
    ensures (a as bv7) < (b as bv7) <==> a < b
    ensures (a as bv7) == (b as bv7) <==> a == b
  {
    ShiftAmount(a);
    ShiftAmount(b);
  }

  lemma Complement(k: nat)
    requires k < 64
    ensures ((63 - k) as bv7) == 63 - (k as bv7)
  {
    ShiftAmount(63 - k);
    ShiftAmount(k);
  }

  // ----- the bit facts on machine values -----

  predicate Hit(w: bv64, m: bv64) {
    w & m != 0
  }

  /** `m` has at most one bit in common with `w`, or all of its bits. */
  predicate AllOrNothing(w: bv64, m: bv64) {
    w & m == 0 || w & m == m
  }

  lemma AndRaw(a: bv64, b: bv64, m: bv64)
    requires a & m == 0 || a & m == m
    requires b & m == 0 || b & m == m
    ensures (a & b) & m != 0 <==> a & m != 0 && b & m != 0
  {}

  lemma OrRaw(a: bv64, b: bv64, m: bv64)
    ensures (a | b) & m != 0 <==> a & m != 0 || b & m != 0
  {
    assert (a | b) & m == (a & m) | (b & m);
  }

  lemma NotRaw(a: bv64, m: bv64)
    requires a & m == 0 || a & m == m
    requires m != 0
    ensures (!a) & m != 0 <==> a & m == 0
  {}

  lemma MaskAnd(a: bv64, b: bv64, m: bv64)
    requires AllOrNothing(a, m) && AllOrNothing(b, m)
    ensures Hit(a & b, m) <==> Hit(a, m) && Hit(b, m)
  { AndRaw(a, b, m); }

  lemma MaskOr(a: bv64, b: bv64, m: bv64)
    ensures Hit(a | b, m) <==> Hit(a, m) || Hit(b, m)
  { OrRaw(a, b, m); }

  lemma MaskNot(a: bv64, m: bv64)
    requires AllOrNothing(a, m) && m != 0
    ensures Hit(!a, m) <==> !Hit(a, m)
  { NotRaw(a, m); }

  lemma OneHot(w: bv64, j: bv7)
    requires j < 64
    ensures AllOrNothing(w, 1 << j)
    ensures 1 << j != 0 as bv64
    ensures Test(w, j) <==> Hit(w, 1 << j)
  {}

  lemma TestAnd(a: bv64, b: bv64, j: bv7)
    requires j < 64
    ensures Test(a & b, j) <==> Test(a, j) && Test(b, j)
  {
    hide Test, Hit, AllOrNothing;
    OneHot(a, j);
    OneHot(b, j);
    OneHot(a & b, j);
    MaskAnd(a, b, 1 << j);
  }

  lemma TestOr(a: bv64, b: bv64, j: bv7)
    requires j < 64
    ensures Test(a | b, j) <==> Test(a, j) || Test(b, j)
  {
    hide Test, Hit, AllOrNothing;
    OneHot(a, j);
    OneHot(b, j);
    OneHot(a | b, j);
    MaskOr(a, b, 1 << j);
  }

  lemma TestNot(a: bv64, j: bv7)
    requires j < 64
    ensures Test(!a, j) <==> !Test(a, j)
  {
    hide Test, Hit, AllOrNothing;
    OneHot(a, j);
    OneHot(!a, j);
    MaskNot(a, 1 << j);
  }

  lemma TestMasks(k: bv7, j: bv7)
    requires k < 64 && j < 64
    ensures Test(0xFFFF_FFFF_FFFF_FFFF << k, j) <==> k <= j
    ensures Test(1 << k, j) <==> j == k
  {}

  lemma TestMaskUpTo(k: bv7, j: bv7)
    requires k < 64 && j < 64
    ensures Test(0xFFFF_FFFF_FFFF_FFFF >> (63 - k), j) <==> j <= k
  {}

  lemma TestConstants(j: bv7)
    requires j < 64
    ensures Test(0xFFFF_FFFF_FFFF_FFFF, j)
    ensures !Test(0, j)
  {}

  // ----- bitwise operators, bit by bit -----

  function And(a: bv64, b: bv64): bv64 { a & b }

  function Or(a: bv64, b: bv64): bv64 { a | b }

  function Not(a: bv64): bv64 { !a }

  lemma AndBit(a: bv64, b: bv64, j: nat)
    requires j < 64
    ensures Bit(And(a, b), j) <==> Bit(a, j) && Bit(b, j)
  {
    hide Test;
    ShiftOrder(j, 64);
    TestAnd(a, b, j as bv7);
  }

  lemma OrBit(a: bv64, b: bv64, j: nat)
    requires j < 64
    ensures Bit(Or(a, b), j) <==> Bit(a, j) || Bit(b, j)
  {
    hide Test;
    ShiftOrder(j, 64);
    TestOr(a, b, j as bv7);
  }

  lemma NotBit(a: bv64, j: nat)
    requires j < 64
    ensures Bit(Not(a), j) <==> !Bit(a, j)
  {
    hide Test;
    ShiftOrder(j, 64);
    TestNot(a, j as bv7);
  }

  lemma MaskBits(k: nat, j: nat)
    requires k < 64 && j < 64
    ensures Bit(0xFFFF_FFFF_FFFF_FFFF << k, j) <==> k <= j
    ensures Bit(1 << k, j) <==> j == k
  {
    hide Test;
    ShiftOrder(j, 64);
    ShiftOrder(k, 64);
    ShiftOrder(j, k);
    TestMasks(k as bv7, j as bv7);
  }

  lemma MaskUpToBit(k: nat, j: nat)
    requires k < 64 && j < 64
    ensures Bit(0xFFFF_FFFF_FFFF_FFFF >> (63 - k), j) <==> j <= k
  {
    hide Test;
    ShiftOrder(j, 64);
    ShiftOrder(k, 64);
    ShiftOrder(k, j);
    Complement(k);
    TestMaskUpTo(k as bv7, j as bv7);
  }

  lemma ConstantBits(j: nat)
    requires j < 64
    ensures Bit(0xFFFF_FFFF_FFFF_FFFF, j)
    ensures !Bit(0, j)
  {
    hide Test;
    ShiftOrder(j, 64);
    TestConstants(j as bv7);
  }

  // ----- trailing runs of equal bits -----

  /** Number of trailing one bits: a binary search over halves of the word. */
  function TrailingOnes7(w: bv64): bv7 {
    if w == 0xFFFF_FFFF_FFFF_FFFF then 64 else
    var n5: bv7 := if w & 0xffffffff == 0xffffffff then 32 else 0;
    var w5 := if w & 0xffffffff == 0xffffffff then w >> 32 else w;
    var n4 := if w5 & 0xffff == 0xffff then n5 + 16 else n5;
    var w4 := if w5 & 0xffff == 0xffff then w5 >> 16 else w5;
    var n3 := if w4 & 0xff == 0xff then n4 + 8 else n4;
    var w3 := if w4 & 0xff == 0xff then w4 >> 8 else w4;
    var n2 := if w3 & 0xf == 0xf then n3 + 4 else n3;
    var w2 := if w3 & 0xf == 0xf then w3 >> 4 else w3;
    var n1 := if w2 & 3 == 3 then n2 + 2 else n2;
    var w1 := if w2 & 3 == 3 then w2 >> 2 else w2;
    if w1 & 1 == 1 then n1 + 1 else n1
  }

  /** Number of trailing zero bits, with the correction by the last bit at the end. */
  function TrailingZeros7(w: bv64): bv7 {
    if w == 0 then 64 else
    var n5: bv7 := if w & 0xffffffff == 0 then 33 else 1;
    var w5 := if w & 0xffffffff == 0 then w >> 32 else w;
    var n4 := if w5 & 0xffff == 0 then n5 + 16 else n5;
    var w4 := if w5 & 0xffff == 0 then w5 >> 16 else w5;
    var n3 := if w4 & 0xff == 0 then n4 + 8 else n4;
    var w3 := if w4 & 0xff == 0 then w4 >> 8 else w4;
    var n2 := if w3 & 0xf == 0 then n3 + 4 else n3;
    var w2 := if w3 & 0xf == 0 then w3 >> 4 else w3;
    var n1 := if w2 & 3 == 0 then n2 + 2 else n2;
    var w1 := if w2 & 3 == 0 then w2 >> 2 else w2;
    if w1 & 1 == 1 then n1 - 1 else n1
  }

  lemma OnesTest(w: bv64, k: bv7)
    requires k < 64
    ensures k < TrailingOnes7(w) ==> Test(w, k)
    ensures k == TrailingOnes7(w) ==> !Test(w, k)
  {
    hide TrailingOnes7;
    OnesBelow(w, k);
    if k == TrailingOnes7(w) { OnesEnd(w); }
  }

  lemma OnesBelow(w: bv64, k: bv7)
    requires k < 64
    ensures k < TrailingOnes7(w) ==> w & (1 << k) != 0
  {}

  lemma OnesEnd(w: bv64)
    requires TrailingOnes7(w) < 64
    ensures w & (1 << TrailingOnes7(w)) == 0
  {}

  lemma OnesBound(w: bv64)
    ensures TrailingOnes7(w) <= 64
    ensures TrailingOnes7(w) == 64 <==> w == 0xFFFF_FFFF_FFFF_FFFF
  {}

  lemma ZerosTest(w: bv64, k: bv7)
    requires k < 64
    ensures k < TrailingZeros7(w) ==> !Test(w, k)
    ensures k == TrailingZeros7(w) ==> Test(w, k)
  {
    hide TrailingZeros7;
    ZerosBelow(w, k);
    if k == TrailingZeros7(w) { ZerosEnd(w); }
  }

  lemma ZerosBelow(w: bv64, k: bv7)
    requires k < 64
    ensures k < TrailingZeros7(w) ==> w & (1 << k) == 0
  {}

  lemma ZerosEnd(w: bv64)
    requires TrailingZeros7(w) < 64
    ensures w & (1 << TrailingZeros7(w)) != 0
  {}

  lemma ZerosBound(w: bv64)
    ensures TrailingZeros7(w) <= 64
    ensures TrailingZeros7(w) == 64 <==> w == 0
  {}

  function TrailingOnes(w: bv64): nat {
    TrailingOnes7(w) as nat
  }

  function TrailingZeros(w: bv64): nat {
    TrailingZeros7(w) as nat
  }

  lemma ValueOrder(a: bv7, b: bv7)
    ensures a as int < b as int <==> a < b
    ensures a as int == b as int <==> a == b
  {}

  /** `TrailingOnes` finds the first zero bit, and 64 when there is none. */
  lemma TrailingOnesSpec(w: bv64, k: nat)
    requires k < 64
    ensures TrailingOnes(w) <= 64
    ensures TrailingOnes(w) == 64 <==> w == 0xFFFF_FFFF_FFFF_FFFF
    ensures k < TrailingOnes(w) ==> Bit(w, k)
    ensures k == TrailingOnes(w) ==> !Bit(w, k)
  {
    hide Test, TrailingOnes7;
    var t := TrailingOnes7(w);
    ShiftAmount(k);
    ShiftAmount(64);
    OnesBound(w);
    ValueOrder(k as bv7, t);
    ValueOrder(t, 64);
    ValueOrder(64, t);
    ShiftOrder(k, 64);
    OnesTest(w, k as bv7);
  }

  /** `TrailingZeros` finds the first one bit, and 64 when there is none. */
  lemma TrailingZerosSpec(w: bv64, k: nat)
    requires k < 64
    ensures TrailingZeros(w) <= 64
    ensures TrailingZeros(w) == 64 <==> w == 0
    ensures k < TrailingZeros(w) ==> !Bit(w, k)
    ensures k == TrailingZeros(w) ==> Bit(w, k)
  {
    hide Test, TrailingZeros7;
    var t := TrailingZeros7(w);
    ShiftAmount(k);
    ShiftAmount(64);
    ZerosBound(w);
    ValueOrder(k as bv7, t);
    ValueOrder(t, 64);
    ValueOrder(64, t);
    ShiftOrder(k, 64);
    ZerosTest(w, k as bv7);
  }

  /** Adding one does not carry past a zero bit. */
  lemma CarryStops(w: bv64, t: bv7, j: bv7)
    requires t < j < 64
    requires w & (1 << t) == 0
    ensures (w + 1) & (1 << j) == w & (1 << j)
  {}

  /** Subtracting one does not borrow past a one bit. */
  lemma BorrowStops(w: bv64, t: bv7, j: bv7)
    requires t < j < 64
    requires (w + 1) & (1 << t) != 0
    ensures w & (1 << j) == (w + 1) & (1 << j)
  {}

  lemma ClearBelow(w: bv64, j: bv7)
    requires j < 64 && w != 0xFFFF_FFFF_FFFF_FFFF
    requires j < TrailingOnes7(w)
    ensures (w & (w + 1)) & (1 << j) == 0
  {}

  lemma FillBelow(w: bv64, j: bv7)
    requires j < 64 && w != 0
    requires j < TrailingZeros7(w)
    ensures (w | (w - 1)) & (1 << j) != 0
  {}

  lemma TestCarry(w: bv64, t: bv7, j: bv7)
    requires t < j < 64 && !Test(w, t)
    ensures Test(w + 1, j) <==> Test(w, j)
  {
    CarryStops(w, t, j);
  }

  lemma TestBorrow(w: bv64, t: bv7, j: bv7)
    requires t < j < 64 && Test(w + 1, t)
    ensures Test(w, j) <==> Test(w + 1, j)
  {
    BorrowStops(w, t, j);
  }

  lemma ClearAboveTest(w: bv64, t: bv7, j: bv7)
    requires t <= j < 64 && !Test(w, t)
    ensures Test(w & (w + 1), j) <==> Test(w, j)
  {
    hide Test;
    TestAnd(w, w + 1, j);
    if t < j { TestCarry(w, t, j); }
  }

  lemma FillAboveTest(w: bv64, t: bv7, j: bv7)
    requires t <= j < 64 && Test(w, t)
    ensures Test(w | (w - 1), j) <==> Test(w, j)
  {
    hide Test;
    TestOr(w, w - 1, j);
    assert w - 1 + 1 == w;
    if t < j { TestBorrow(w - 1, t, j); }
  }

  lemma ClearBelowTest(w: bv64, j: bv7)
    requires j < 64 && w != 0xFFFF_FFFF_FFFF_FFFF
    requires j < TrailingOnes7(w)
    ensures !Test(w & (w + 1), j)
  {
    hide TrailingOnes7;
    ClearBelow(w, j);
  }

  lemma FillBelowTest(w: bv64, j: bv7)
    requires j < 64 && w != 0
    requires j < TrailingZeros7(w)
    ensures Test(w | (w - 1), j)
  {
    hide TrailingZeros7;
    FillBelow(w, j);
  }

  lemma ClearOnesTest(w: bv64, j: bv7)
    requires j < 64 && w != 0xFFFF_FFFF_FFFF_FFFF
    ensures Test(w & (w + 1), j) <==> TrailingOnes7(w) <= j && Test(w, j)
  {
    hide TrailingOnes7, Test;
    var t := TrailingOnes7(w);
    if j < t {
      ClearBelowTest(w, j);
    } else {
      OnesTest(w, t);
      ClearAboveTest(w, t, j);
    }
  }

  lemma FillZerosTest(w: bv64, j: bv7)
    requires j < 64 && w != 0
    ensures Test(w | (w - 1), j) <==> j < TrailingZeros7(w) || Test(w, j)
  {
    hide TrailingZeros7, Test;
    var t := TrailingZeros7(w);
    if j < t {
      FillBelowTest(w, j);
    } else {
      ZerosTest(w, t);
      FillAboveTest(w, t, j);
    }
  }

  function DropTrailingOnes(w: bv64): bv64 { w & (w + 1) }

  function FillTrailingZeros(w: bv64): bv64 { w | (w - 1) }

  /** `w & (w + 1)` clears the trailing ones of `w` and nothing else. */
  lemma DropTrailingOnesBit(w: bv64, k: nat)
    requires k < 64 && w != 0xFFFF_FFFF_FFFF_FFFF
    ensures Bit(DropTrailingOnes(w), k) <==> TrailingOnes(w) <= k && Bit(w, k)
  {
    hide Test, TrailingOnes7;
    ShiftOrder(k, 64);
    ShiftAmount(k);
    ValueOrder(k as bv7, TrailingOnes7(w));
    ClearOnesTest(w, k as bv7);
  }

  /** `w | (w - 1)` sets the trailing zeros of `w` and nothing else. */
  lemma FillTrailingZerosBit(w: bv64, k: nat)
    requires k < 64 && w != 0
    ensures Bit(FillTrailingZeros(w), k) <==> k < TrailingZeros(w) || Bit(w, k)
  {
    hide Test, TrailingZeros7;
    ShiftOrder(k, 64);
    ShiftAmount(k);
    ValueOrder(k as bv7, TrailingZeros7(w));
    FillZerosTest(w, k as bv7);
  }
}
