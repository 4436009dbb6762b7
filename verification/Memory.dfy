/** Byte memory, pointer-sized words in it, and the encoding of shadow links. */
module Memory {
  type Mem = map<int, bv8>

  /** A pointer-sized word as it lies in memory, least significant byte first. */
  type Word8 = w: seq<bv8> | |w| == 8 witness [0, 0, 0, 0, 0, 0, 0, 0]

  const ADDRESS_LIMIT: int := 0x1_0000_0000_0000_0000

  // ----- words and numbers -----

  function Power(n: nat): nat {
    if n == 0 then 1 else 256 * Power(n - 1)
  }

  /** The byte with the given hexadecimal digits. */
  function Digits(hi: bv4, lo: bv4): bv8 {
    (hi as bv8) * 16 + (lo as bv8)
  }

  function ByteOf(a: int): bv8
    requires 0 <= a < 256
  {
    Digits((a / 16) as bv4, (a % 16) as bv4)
  }

  function Num(x: bv8): (r: nat)
    ensures r < 256
  {
    x as int
  }

  function ToBytes(p: int, n: nat): (r: seq<bv8>)
    requires 0 <= p
    ensures |r| == n
  {
    if n == 0 then [] else [ByteOf(p % 256)] + ToBytes(p / 256, n - 1)
  }

  function Value(w: seq<bv8>): (r: nat) {
    if w == [] then 0 else Num(w[0]) + 256 * Value(w[1..])
  }

  lemma DigitsValue(hi: bv4, lo: bv4)
    ensures Num(Digits(hi, lo)) == 16 * (hi as int) + (lo as int)
  {
    assert ((hi as bv8) * 16 + (lo as bv8)) as int == (hi as int) * 16 + (lo as int);
  }

  lemma DigitValue(a: int)
    requires 0 <= a < 16
    ensures (a as bv4) as int == a
  {}

  lemma ByteValue(a: int)
    requires 0 <= a < 256
    ensures Num(ByteOf(a)) == a
  {
    hide Digits, Num;
    DigitsValue((a / 16) as bv4, (a % 16) as bv4);
    DigitValue(a / 16);
    DigitValue(a % 16);
  }

  lemma {:induction false} ValueOfBytes(p: int, n: nat)
    requires 0 <= p < Power(n)
    ensures Value(ToBytes(p, n)) == p
  {
    hide ByteOf, Num;
    if n > 0 {
      ByteValue(p % 256);
      ValueOfBytes(p / 256, n - 1);
      assert ToBytes(p, n)[1..] == ToBytes(p / 256, n - 1);
    }
  }

  lemma PowerLimit()
    ensures Power(8) == ADDRESS_LIMIT
  {
    assert Power(4) == 0x1_0000_0000;
  }

  function Word(p: int): Word8
    requires 0 <= p
  {
    ToBytes(p, 8)
  }

  predicate IsAddress(p: int) {
    0 <= p < ADDRESS_LIMIT
  }

  lemma ValueOfWord(p: int)
    requires IsAddress(p)
    ensures Value(Word(p)) == p
  {
    PowerLimit();
    ValueOfBytes(p, 8);
  }

  // ----- shadow links -----

  function Flip(a: bv8, b: bv8): bv8 { a ^ b }

  function Xor(a: Word8, b: Word8): (r: Word8) {
    seq(8, i requires 0 <= i < 8 => Flip(a[i], b[i]))
  }

  /** Byte swap. */
  function Swap(a: Word8): (r: Word8) {
    seq(8, i requires 0 <= i < 8 => a[7 - i])
  }

  /** The shadow of link `next`, kept at address `holder` under `key`. */
  function Encode(key: Word8, holder: int, next: int): Word8
    requires 0 <= holder && 0 <= next
  {
    Xor(Xor(Swap(Word(next)), key), Word(holder))
  }

  function Decode(key: Word8, holder: int, shadow: Word8): nat
    requires 0 <= holder
  {
    Value(Swap(Xor(Xor(shadow, key), Word(holder))))
  }

  lemma XorTwice(a: Word8, k: Word8, h: Word8)
    ensures Xor(Xor(Xor(Xor(a, k), h), k), h) == a
  {
    hide Flip;
    forall i | 0 <= i < 8 ensures Xor(Xor(Xor(Xor(a, k), h), k), h)[i] == a[i] {
      XorByte(a[i], k[i], h[i]);
    }
  }

  lemma XorByte(a: bv8, k: bv8, h: bv8)
    ensures Flip(Flip(Flip(Flip(a, k), h), k), h) == a
  {}

  lemma SwapTwice(a: Word8)
    ensures Swap(Swap(a)) == a
  {}

  /** A shadow decodes to its link under the key and at the address it was made for. */
  lemma DecodeEncode(key: Word8, holder: int, next: int)
    requires 0 <= holder && IsAddress(next)
    ensures Decode(key, holder, Encode(key, holder, next)) == next
  {
    hide Xor, Swap, Word, Value;
    XorTwice(Swap(Word(next)), key, Word(holder));
    SwapTwice(Word(next));
    ValueOfWord(next);
  }

  lemma SplitByte(x: bv8)
    ensures x == Digits((x >> 4) as bv4, (x & 15) as bv4)
  {}

  lemma DigitBack(d: bv4)
    ensures (d as int) as bv4 == d && d as int < 16
  {}

  lemma ByteBack(x: bv8)
    ensures ByteOf(Num(x)) == x
  {
    hide Digits, Num;
    var hi, lo := (x >> 4) as bv4, (x & 15) as bv4;
    SplitByte(x);
    BackFromDigits(hi, lo);
  }

  lemma BackFromDigits(hi: bv4, lo: bv4)
    ensures ByteOf(Num(Digits(hi, lo))) == Digits(hi, lo)
  {
    hide Digits, Num;
    DigitsValue(hi, lo);
    DigitBack(hi);
    DigitBack(lo);
    assert Num(Digits(hi, lo)) / 16 == hi as int && Num(Digits(hi, lo)) % 16 == lo as int;
  }

  lemma {:induction false} BytesOfValue(w: seq<bv8>)
    ensures ToBytes(Value(w), |w|) == w
  {
    hide ByteOf, Num;
    if w != [] {
      ByteBack(w[0]);
      assert Value(w) % 256 == Num(w[0]) && Value(w) / 256 == Value(w[1..]);
      BytesOfValue(w[1..]);
    }
  }

  lemma XorCancel(a: bv8, k: bv8, h: bv8, k2: bv8, h2: bv8)
    ensures Flip(Flip(Flip(Flip(a, k), h), k2), h2) == a <==> Flip(k, h) == Flip(k2, h2)
  {
    if a ^ k ^ h ^ k2 ^ h2 == a { FlipCancel(a, k, h, k2, h2); }
    if k ^ h == k2 ^ h2 { FlipRestore(a, k, h, k2, h2); }
  }

  lemma FlipCancel(a: bv8, k: bv8, h: bv8, k2: bv8, h2: bv8)
    requires a ^ k ^ h ^ k2 ^ h2 == a
    ensures k ^ h == k2 ^ h2
  {}

  lemma FlipRestore(a: bv8, k: bv8, h: bv8, k2: bv8, h2: bv8)
    requires k ^ h == k2 ^ h2
    ensures a ^ k ^ h ^ k2 ^ h2 == a
  {}

  lemma XorInjective(k: bv8, h: bv8, h2: bv8)
    requires Flip(k, h) == Flip(k, h2)
    ensures h == h2
  {}

  /** The one shadow that decodes to `next`. */
  lemma OnlyShadow(key: Word8, holder: int, next: int, shadow: Word8)
    requires 0 <= holder && 0 <= next && Decode(key, holder, shadow) == next
    ensures shadow == Encode(key, holder, next)
  {
    hide Xor, Swap, Value, ToBytes;
    var x := Xor(Xor(shadow, key), Word(holder));
    BytesOfValue(Swap(x));
    SwapTwice(x);
    XorTwice(shadow, key, Word(holder));
  }

  lemma FlipSame(a: bv8, b: bv8, k: bv8, h: bv8)
    requires Flip(Flip(a, k), h) == Flip(Flip(b, k), h)
    ensures a == b
  {
    assert a ^ k ^ h ^ h ^ k == a && b ^ k ^ h ^ h ^ k == b;
  }

  lemma EncodeByte(key: Word8, holder: int, next: int, i: nat)
    requires 0 <= holder && 0 <= next && i < 8
    ensures Encode(key, holder, next)[i] == Flip(Flip(Word(next)[7 - i], key[i]), Word(holder)[i])
  {
    hide Flip, ToBytes;
  }

  /** Because the shadow holds the bytes of the link in the opposite order, overwriting up to
      four low bytes of both at once is always detected, whatever is written. */
  lemma LowBytesCaught(key: Word8, holder: int, next: int, next2: int, shadow2: Word8, n: nat)
    requires 0 <= holder && IsAddress(next) && IsAddress(next2) && n <= 4
    requires forall i :: n <= i < 8 ==> Word(next2)[i] == Word(next)[i]
    requires forall i :: n <= i < 8 ==> shadow2[i] == Encode(key, holder, next)[i]
    ensures Decode(key, holder, shadow2) == next2 ==> next2 == next && shadow2 == Encode(key, holder, next)
  {
    hide Flip, Xor, Swap, Value, ToBytes, Encode, Decode;
    if Decode(key, holder, shadow2) == next2 {
      OnlyShadow(key, holder, next2, shadow2);
      forall j | 0 <= j < 8 ensures Word(next2)[j] == Word(next)[j] {
        if j < n {
          EncodeByte(key, holder, next, 7 - j);
          EncodeByte(key, holder, next2, 7 - j);
          FlipSame(Word(next2)[j], Word(next)[j], key[7 - j], Word(holder)[7 - j]);
        }
      }
      assert Word(next2) == Word(next);
      ValueOfWord(next);
      ValueOfWord(next2);
    }
  }

  /** Shadows cannot be replayed: a shadow made at one address or under one key decodes to
      its link at another address, or under another key, only if the two differences cancel.
      In particular, with the key unchanged the address must be the same, and with the
      address unchanged the key must be the same. */
  lemma NoReplay(key: Word8, holder: int, next: int, key2: Word8, holder2: int)
    requires IsAddress(holder) && IsAddress(holder2) && IsAddress(next)
    ensures Decode(key2, holder2, Encode(key, holder, next)) == next <==>
      Xor(key, Word(holder)) == Xor(key2, Word(holder2))
    ensures key == key2 ==> (Decode(key2, holder2, Encode(key, holder, next)) == next <==> holder == holder2)
    ensures holder == holder2 ==> (Decode(key2, holder2, Encode(key, holder, next)) == next <==> key == key2)
  {
    hide Value, Word;
    var e := Encode(key, holder, next);
    var x := Xor(Xor(e, key2), Word(holder2));
    assert Value(Swap(x)) == next <==> Swap(x) == Word(next) by {
      BytesOfWord(Swap(x));
      ValueOfWord(next);
    }
    assert Swap(x) == Word(next) <==> x == Swap(Word(next)) by {
      SwapTwice(x);
      SwapTwice(Word(next));
    }
    XorBoth(Swap(Word(next)), key, Word(holder), key2, Word(holder2));
    if key == key2 && Xor(key, Word(holder)) == Xor(key2, Word(holder2)) {
      XorWords(key, Word(holder), Word(holder2));
      ValueOfWord(holder);
      ValueOfWord(holder2);
    }
    if holder == holder2 && Xor(key, Word(holder)) == Xor(key2, Word(holder2)) {
      XorCommutes(key, Word(holder));
      XorCommutes(key2, Word(holder));
      XorWords(Word(holder), key, key2);
    }
  }

  lemma BytesOfWord(w: Word8)
    ensures Word(Value(w)) == w
  {
    BytesOfValue(w);
  }

  lemma XorBoth(a: Word8, k: Word8, h: Word8, k2: Word8, h2: Word8)
    ensures Xor(Xor(Xor(Xor(a, k), h), k2), h2) == a <==> Xor(k, h) == Xor(k2, h2)
  {
    hide Flip;
    var x := Xor(Xor(Xor(Xor(a, k), h), k2), h2);
    if x == a {
      forall i | 0 <= i < 8 ensures Xor(k, h)[i] == Xor(k2, h2)[i] {
        assert x[i] == a[i];
        XorCancel(a[i], k[i], h[i], k2[i], h2[i]);
      }
    }
    if Xor(k, h) == Xor(k2, h2) {
      forall i | 0 <= i < 8 ensures x[i] == a[i] {
        assert Xor(k, h)[i] == Xor(k2, h2)[i];
        XorCancel(a[i], k[i], h[i], k2[i], h2[i]);
      }
    }
  }

  lemma XorWords(k: Word8, h: Word8, h2: Word8)
    requires Xor(k, h) == Xor(k, h2)
    ensures h == h2
  {
    hide Flip;
    forall i | 0 <= i < 8 ensures h[i] == h2[i] {
      assert Xor(k, h)[i] == Xor(k, h2)[i];
      XorInjective(k[i], h[i], h2[i]);
    }
  }

  lemma XorCommutes(a: Word8, b: Word8)
    ensures Xor(a, b) == Xor(b, a)
  {
    assert forall i :: 0 <= i < 8 ==> Xor(a, b)[i] == Xor(b, a)[i];
  }

  // ----- loads and stores -----

  ghost predicate Mapped(m: Mem, a: int, n: int) {
    forall x :: a <= x < a + n ==> x in m
  }

  /** The `n` bytes from `a` are the same in both memories. */
  ghost predicate SameBytes(m: Mem, m2: Mem, a: int, n: int) {
    forall x :: a <= x < a + n && x in m ==> x in m2 && m2[x] == m[x]
  }

  function Load(m: Mem, a: int): Word8
    requires Mapped(m, a, 8)
  {
    seq(8, i requires 0 <= i < 8 && Mapped(m, a, 8) => m[a + i])
  }

  function Store(m: Mem, a: int, w: Word8): (r: Mem)
    ensures r.Keys == m.Keys
  {
    map x | x in m :: if a <= x < a + 8 then w[x - a] else m[x]
  }

  function LoadPtr(m: Mem, a: int): nat
    requires Mapped(m, a, 8)
  {
    Value(Load(m, a))
  }

  function StorePtr(m: Mem, a: int, p: int): (r: Mem)
    requires 0 <= p
    ensures r.Keys == m.Keys
  {
    Store(m, a, Word(p))
  }

  /** memcpy between disjoint ranges. */
  function Copy(m: Mem, dst: int, src: int, n: int): (r: Mem)
    requires Mapped(m, src, n)
    ensures r.Keys == m.Keys
  {
    map x | x in m :: if dst <= x < dst + n then m[src + (x - dst)] else m[x]
  }

  /** A region returned by the operating system, zeroed, is added; a region given back is removed. */
  function AddRegion(m: Mem, a: int, n: int): (r: Mem)
    ensures forall x :: x in r <==> x in m || a <= x < a + n
  {
    map x | x in m.Keys + Span(a, n) :: if x in m then m[x] else 0
  }

  function RemoveRegion(m: Mem, a: int, n: int): (r: Mem)
    ensures forall x :: x in r <==> x in m && !(a <= x < a + n)
  {
    map x | x in m && !(a <= x < a + n) :: m[x]
  }

  function Span(a: int, n: int): (r: set<int>)
    ensures forall x :: x in r <==> a <= x < a + n
    decreases if n < 0 then 0 else n
  {
    if n <= 0 then {} else Span(a, n - 1) + {a + n - 1}
  }

  /** None of these addresses is mapped. */
  ghost predicate Clear(r: set<int>, m: Mem) {
    r !! m.Keys
  }

  lemma ClearSame(r: set<int>, m: Mem, m2: Mem)
    requires Clear(r, m) && m2.Keys <= m.Keys
    ensures Clear(r, m2)
  {}

  lemma ClearAdd(r: set<int>, m: Mem, a: int, n: int)
    requires Clear(r, m) && forall x :: a <= x < a + n ==> x !in r
    ensures Clear(r, AddRegion(m, a, n))
  {}

  lemma ClearRemove(r: set<int>, m: Mem, a: int, n: int)
    requires Clear(r, m)
    ensures Clear(r, RemoveRegion(m, a, n))
  {}

  lemma StoreLoad(m: Mem, a: int, w: Word8)
    requires Mapped(m, a, 8)
    ensures Mapped(Store(m, a, w), a, 8) && Load(Store(m, a, w), a) == w
  {
    var r := Store(m, a, w);
    forall i | 0 <= i < 8 ensures r[a + i] == w[i] {}
  }

  lemma LoadSame(m: Mem, m2: Mem, a: int)
    requires Mapped(m, a, 8) && SameBytes(m, m2, a, 8)
    ensures Mapped(m2, a, 8) && Load(m2, a) == Load(m, a)
  {
  }

  lemma StoreElsewhere(m: Mem, a: int, w: Word8, b: int, n: int)
    requires b + n <= a || a + 8 <= b
    ensures SameBytes(m, Store(m, a, w), b, n)
  {}

  lemma SameBytesChain(m: Mem, m2: Mem, m3: Mem, a: int, n: int)
    requires SameBytes(m, m2, a, n) && SameBytes(m2, m3, a, n)
    ensures SameBytes(m, m3, a, n)
  {}
}
