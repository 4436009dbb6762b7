/** Constants of the allocator and the table of small size classes. */
module Sizes {
  const CHUNK: int := 0x20_0000   // 2 MB
  const PAGE: int := 4096
  const PAGES: int := 512
  const FIRST_PAGE: int := 1
  const BINS: int := 30
  const MIN_USABLE: int := 16     // two pointers: the link and its shadow
  const MAX_SMALL: int := 3072
  const MAX_LARGE: int := 0x1F_F000

  const BIN_SIZE: seq<nat> := [
    8, 16, 24, 32, 40, 48, 56, 64, 80, 96, 112, 128, 160, 192, 224, 256,
    320, 384, 448, 512, 640, 768, 896, 1024, 1280, 1536, 1792, 2048, 2560, 3072]

  const BIN_ELEMENTS: seq<nat> := [
    512, 256, 170, 128, 102, 85, 73, 64, 51, 42, 36, 32, 25, 21, 18, 16,
    64, 32, 9, 8, 32, 16, 9, 8, 16, 8, 16, 8, 8, 4]

  const BIN_PAGES: seq<nat> := [
    1, 1, 1, 1, 1, 1, 1, 1, 1, 1, 1, 1, 1, 1, 1, 1,
    5, 3, 1, 1, 5, 3, 2, 2, 5, 3, 7, 4, 5, 3]

  function BinSize(b: nat): nat
    requires b < BINS
  {
    BIN_SIZE[b]
  }

  function BinElements(b: nat): nat
    requires b < BINS
  {
    BIN_ELEMENTS[b]
  }

  function BinPages(b: nat): nat
    requires b < BINS
  {
    BIN_PAGES[b]
  }

  /** Every class is a multiple of 8, its elements fit in its pages, and a further
      element would not. */
  lemma BinFacts(b: nat)
    requires b < BINS
    ensures 8 <= BinSize(b) <= MAX_SMALL && BinSize(b) % 8 == 0
    ensures 4 <= BinElements(b) <= 512
    ensures 1 <= BinPages(b) <= 7
    ensures BinSize(b) * BinElements(b) <= PAGE * BinPages(b) < BinSize(b) * BinElements(b) + BinSize(b)
  {
  }

  lemma BinStep(b: nat)
    requires b + 1 < BINS
    ensures BinSize(b) < BinSize(b + 1)
  {
  }

  lemma {:induction false} BinOrder(a: nat, b: nat)
    requires a < b < BINS
    ensures BinSize(a) < BinSize(b)
    decreases b - a
  {
    hide BinSize;
    BinStep(a);
    if a + 1 < b {
      BinOrder(a + 1, b);
    }
  }

  /** Position, counted from 1, of the highest set bit of a 16-bit value. */
  function SizeToBit(size: nat): nat
    requires size < 0x1_0000
  {
    var n8 := if size <= 0x00ff then 8 else 16;
    var s8 := if size <= 0x00ff then size * 256 else size;
    var n4 := if s8 <= 0x0fff then n8 - 4 else n8;
    var s4 := if s8 <= 0x0fff then s8 * 16 else s8;
    var n2 := if s4 <= 0x3fff then n4 - 2 else n4;
    var s2 := if s4 <= 0x3fff then s4 * 4 else s4;
    if s2 <= 0x7fff then n2 - 1 else n2
  }

  function ShiftRight(x: nat, n: nat): nat {
    if n == 0 then x else ShiftRight(x / 2, n - 1)
  }

  /** The class that serves a request of `size` bytes. */
  function SizeToBin(size: nat): nat
    requires size <= MAX_SMALL
  {
    if size <= 64 then
      (if size == 0 then 0 else size - 1) / 8
    else
      HighBits(size);
      var t1 := size - 1;
      var t2 := SizeToBit(t1) - 3;
      ShiftRight(t1, t2) + (t2 - 3) * 4
  }

  lemma HighBits(size: nat)
    requires 64 < size <= MAX_SMALL
    ensures 7 <= SizeToBit(size - 1) <= 12
    ensures var t := SizeToBit(size - 1);
      (t == 7 ==> 64 < size <= 128) && (t == 8 ==> 128 < size <= 256) && (t == 9 ==> 256 < size <= 512) &&
      (t == 10 ==> 512 < size <= 1024) && (t == 11 ==> 1024 < size <= 2048) && (t == 12 ==> 2048 < size <= 4096)
  {
  }

  lemma Shifts(x: nat)
    ensures ShiftRight(x, 4) == x / 16 && ShiftRight(x, 5) == x / 32 && ShiftRight(x, 6) == x / 64
    ensures ShiftRight(x, 7) == x / 128 && ShiftRight(x, 8) == x / 256 && ShiftRight(x, 9) == x / 512
  {
    ShiftHalf(x, 3); ShiftHalf(x, 4); ShiftHalf(x, 5); ShiftHalf(x, 6); ShiftHalf(x, 7); ShiftHalf(x, 8);
    assert ShiftRight(x, 3) == x / 8;
  }

  /** Shifting once more halves the result. */
  lemma {:induction false} ShiftHalf(x: nat, n: nat)
    ensures ShiftRight(x, n + 1) == ShiftRight(x, n) / 2
  {
    if n > 0 {
      ShiftHalf(x / 2, n - 1);
    }
  }

  /** Which formula applies in which range of sizes. */
  lemma SizeToBinCases(size: nat)
    requires size <= MAX_SMALL
    ensures size <= 64 ==> SizeToBin(size) == (if size == 0 then 0 else size - 1) / 8
    ensures 64 < size <= 128 ==> SizeToBin(size) == (size - 1) / 16 + 4
    ensures 128 < size <= 256 ==> SizeToBin(size) == (size - 1) / 32 + 8
    ensures 256 < size <= 512 ==> SizeToBin(size) == (size - 1) / 64 + 12
    ensures 512 < size <= 1024 ==> SizeToBin(size) == (size - 1) / 128 + 16
    ensures 1024 < size <= 2048 ==> SizeToBin(size) == (size - 1) / 256 + 20
    ensures 2048 < size ==> SizeToBin(size) == (size - 1) / 512 + 24
  {
    hide SizeToBit;
    if 64 < size {
      HighBits(size);
      Shifts(size - 1);
    }
  }

  lemma BinSizeFormula(b: nat)
    requires b < BINS
    ensures b < 8 ==> BinSize(b) == 8 * (b + 1)
    ensures 8 <= b < 12 ==> BinSize(b) == 16 * (b - 3)
    ensures 12 <= b < 16 ==> BinSize(b) == 32 * (b - 7)
    ensures 16 <= b < 20 ==> BinSize(b) == 64 * (b - 11)
    ensures 20 <= b < 24 ==> BinSize(b) == 128 * (b - 15)
    ensures 24 <= b < 28 ==> BinSize(b) == 256 * (b - 19)
    ensures 28 <= b ==> BinSize(b) == 512 * (b - 23)
  {
  }

  /** The chosen class is the smallest one that holds the request. */
  lemma SizeToBinFits(size: nat)
    requires size <= MAX_SMALL
    ensures SizeToBin(size) < BINS
    ensures size <= BinSize(SizeToBin(size))
    ensures forall b :: 0 <= b < SizeToBin(size) ==> BinSize(b) < size
  {
    hide BinSize, SizeToBin;
    SizeToBinCases(size);
    var c := SizeToBin(size);
    BinSizeFormula(c);
    if c > 0 {
      BinSizeFormula(c - 1);
      forall b | 0 <= b < c ensures BinSize(b) < size {
        if b < c - 1 { BinOrder(b, c - 1); }
      }
    }
  }
}
