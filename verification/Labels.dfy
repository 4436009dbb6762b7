/** The 32-bit page labels of `Zend/zend_alloc.c`.

    The heap model keeps the label of a page as a value with fields. The code packs it into
    one word; here the code's tests and extractions are shown to read back the run kind and
    the fields that were packed, for every label a 512-page chunk can hold. */
module Labels {
  import opened Sizes

  const IS_LRUN: bv32 := 0x40000000
  const IS_SRUN: bv32 := 0x80000000

  function LrunPages(info: bv32): bv32 { info & 0x000003ff }

  function SrunBin(info: bv32): bv32 { info & 0x0000001f }

  function SrunCounter(info: bv32): bv32 { (info & 0x03ff0000) >> 16 }

  function NrunOffset(info: bv32): bv32 { (info & 0x01ff0000) >> 16 }

  function Lrun(count: bv32): bv32 { IS_LRUN | count }

  function SrunEx(bin: bv32, count: bv32): bv32 { IS_SRUN | bin | (count << 16) }

  function Nrun(bin: bv32, offset: bv32): bv32 { IS_SRUN | IS_LRUN | bin | (offset << 16) }

  /** The fields come back, and the two kind bits tell the three kinds apart. */
  lemma FieldsBack(n: bv32, bin: bv32, counter: bv32, offset: bv32)
    requires n < 0x400 && bin < 0x20 && counter < 0x400 && offset < 0x200
    ensures LrunPages(Lrun(n)) == n && Lrun(n) & IS_LRUN != 0 && Lrun(n) & IS_SRUN == 0
    ensures SrunBin(SrunEx(bin, counter)) == bin && SrunCounter(SrunEx(bin, counter)) == counter
    ensures SrunEx(bin, counter) & IS_SRUN != 0 && SrunEx(bin, counter) & IS_LRUN == 0
    ensures SrunBin(Nrun(bin, offset)) == bin && NrunOffset(Nrun(bin, offset)) == offset
    ensures Nrun(bin, offset) & IS_SRUN != 0 && Nrun(bin, offset) & IS_LRUN != 0
  {}

  /** The layout: kind in the two top bits, bin or page count in the low ones, counter or offset
      from bit 16 on. */
  lemma Layout(n: bv32, bin: bv32, counter: bv32, offset: bv32)
    requires n < 0x400 && bin < 0x20 && counter < 0x400 && offset < 0x200
    ensures Lrun(n) == 0x40000000 + n
    ensures SrunEx(bin, counter) == 0x80000000 + bin + counter * 0x10000
    ensures Nrun(bin, offset) == 0xC0000000 + bin + offset * 0x10000
  {}

  /** Every number a label can carry fits its field: a run has at most the pages of a chunk,
      a bin number, an element count and a continuation offset come from the size table. */
  lemma FieldsFit(b: nat)
    requires b < BINS
    ensures PAGES < 0x400 && b < 0x20 && BinElements(b) < 0x400 && BinPages(b) < 0x200
  {}
}
