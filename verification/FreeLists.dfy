/** Free lists as they lie in memory: the first word of a free element links to the next
    one, the last word holds the shadow of that link. */
module FreeLists {
  import opened Sizes
  import opened Memory

  function First(s: seq<int>): int {
    if s == [] then 0 else s[0]
  }

  function NextOf(s: seq<int>, i: int): int
    requires 0 <= i < |s|
  {
    if i + 1 < |s| then s[i + 1] else 0
  }

  /** Slot `a` of `sz` bytes links to `next`; a link that is followed carries its shadow. */
  ghost predicate LinkOK(m: Mem, key: Word8, a: int, sz: int, next: int) {
    && 0 < a && 16 <= sz && Mapped(m, a, sz) && a + sz <= ADDRESS_LIMIT && IsAddress(next)
    && LoadPtr(m, a) == next
    && (next != 0 ==> Load(m, a + sz - 8) == Encode(key, a + sz - 8, next))
  }

  ghost predicate Chain(m: Mem, key: Word8, sz: int, s: seq<int>) {
    forall i :: 0 <= i < |s| ==> LinkOK(m, key, s[i], sz, NextOf(s, i))
  }

  /** zend_mm_set_next_free_slot */
  function SetNext(m: Mem, key: Word8, a: int, sz: int, next: int): (r: Mem)
    requires 0 <= a && 8 <= sz && 0 <= next
    ensures r.Keys == m.Keys
  {
    Store(StorePtr(m, a, next), a + sz - 8, Encode(key, a + sz - 8, next))
  }

  /** Nothing but bytes of `a..a+n` differs. */
  ghost predicate OnlyInside(m: Mem, m2: Mem, a: int, n: int) {
    && m2.Keys == m.Keys
    && (forall x :: x in m && !(a <= x < a + n) ==> m2[x] == m[x])
  }

  lemma InsideSameKeys(m: Mem, m2: Mem, a: int, n: int)
    requires OnlyInside(m, m2, a, n)
    ensures m2.Keys == m.Keys
  {}

  lemma OnlyInsideTwice(m: Mem, m2: Mem, m3: Mem, a: int, n: int)
    requires OnlyInside(m, m2, a, n) && OnlyInside(m2, m3, a, n)
    ensures OnlyInside(m, m3, a, n)
  {}

  lemma OnlyInsideWider(m: Mem, m2: Mem, a: int, n: int, b: int, k: int)
    requires OnlyInside(m, m2, a, n) && b <= a && a + n <= b + k
    ensures OnlyInside(m, m2, b, k)
  {}

  lemma InsideElsewhere(m: Mem, m2: Mem, a: int, n: int, b: int, k: int)
    requires OnlyInside(m, m2, a, n) && (b + k <= a || a + n <= b)
    ensures SameBytes(m, m2, b, k)
  {}

  lemma StoreInside(m: Mem, a: int, w: Word8, b: int, n: int)
    requires b <= a && a + 8 <= b + n
    ensures OnlyInside(m, Store(m, a, w), b, n)
  {}

  lemma SetNextOK(m: Mem, key: Word8, a: int, sz: int, next: int)
    requires 0 < a && 16 <= sz && Mapped(m, a, sz) && a + sz <= ADDRESS_LIMIT && IsAddress(next)
    ensures LinkOK(SetNext(m, key, a, sz, next), key, a, sz, next)
    ensures OnlyInside(m, SetNext(m, key, a, sz, next), a, sz)
  {
    hide Load, Store, Encode, Word, Value, OnlyInside, SameBytes;
    var m1 := StorePtr(m, a, next);
    var w := Encode(key, a + sz - 8, next);
    var m2 := Store(m1, a + sz - 8, w);
    StoreLoad(m, a, Word(next));
    StoreLoad(m1, a + sz - 8, w);
    StoreElsewhere(m1, a + sz - 8, w, a, 8);
    LoadSame(m1, m2, a);
    ValueOfWord(next);
    StoreInside(m, a, Word(next), a, sz);
    StoreInside(m1, a + sz - 8, w, a, sz);
    OnlyInsideTwice(m, m1, m2, a, sz);
  }

  /** Terminating a list writes the link only. */
  lemma SetNullOK(m: Mem, key: Word8, a: int, sz: int)
    requires 0 < a && 16 <= sz && Mapped(m, a, sz) && a + sz <= ADDRESS_LIMIT
    ensures LinkOK(StorePtr(m, a, 0), key, a, sz, 0)
    ensures OnlyInside(m, StorePtr(m, a, 0), a, sz)
  {
    hide Load, Store, Encode, Word, Value, OnlyInside;
    StoreLoad(m, a, Word(0));
    ValueOfWord(0);
    StoreInside(m, a, Word(0), a, sz);
  }

  lemma LinkSame(m: Mem, m2: Mem, key: Word8, a: int, sz: int, next: int)
    requires LinkOK(m, key, a, sz, next) && SameBytes(m, m2, a, sz)
    ensures LinkOK(m2, key, a, sz, next)
  {
    hide Load, Encode, Value;
    LoadSame(m, m2, a);
    LoadSame(m, m2, a + sz - 8);
  }

  lemma ChainSame(m: Mem, m2: Mem, key: Word8, sz: int, s: seq<int>)
    requires Chain(m, key, sz, s)
    requires forall i :: 0 <= i < |s| ==> SameBytes(m, m2, s[i], sz)
    ensures Chain(m2, key, sz, s)
  {
    hide LinkOK, SameBytes;
    forall i | 0 <= i < |s| ensures LinkOK(m2, key, s[i], sz, NextOf(s, i)) {
      LinkSame(m, m2, key, s[i], sz, NextOf(s, i));
    }
  }

  lemma ChainPush(m: Mem, m2: Mem, key: Word8, sz: int, s: seq<int>, a: int)
    requires Chain(m, key, sz, s)
    requires forall i :: 0 <= i < |s| ==> SameBytes(m, m2, s[i], sz)
    requires LinkOK(m2, key, a, sz, First(s))
    ensures Chain(m2, key, sz, [a] + s)
  {
    hide LinkOK, SameBytes;
    ChainSame(m, m2, key, sz, s);
    var t := [a] + s;
    forall i | 0 <= i < |t| ensures LinkOK(m2, key, t[i], sz, NextOf(t, i)) {
      if i > 0 { assert NextOf(t, i) == NextOf(s, i - 1); }
    }
  }

  lemma ChainTail(m: Mem, key: Word8, sz: int, s: seq<int>)
    requires Chain(m, key, sz, s) && s != []
    ensures Chain(m, key, sz, s[1..])
    ensures LinkOK(m, key, s[0], sz, First(s[1..]))
  {
    hide LinkOK;
    var t := s[1..];
    assert NextOf(s, 0) == First(t);
    forall i | 0 <= i < |t| ensures LinkOK(m, key, t[i], sz, NextOf(t, i)) {
      assert NextOf(t, i) == NextOf(s, i + 1);
    }
  }

  /** The check made before a link is followed succeeds on every well-formed slot. */
  lemma CheckPasses(m: Mem, key: Word8, a: int, sz: int, next: int)
    requires LinkOK(m, key, a, sz, next) && next != 0
    ensures Decode(key, a + sz - 8, Load(m, a + sz - 8)) == next
  {
    hide Load, Encode, Decode;
    DecodeEncode(key, a + sz - 8, next);
  }

  /** Unlinking `p`, which follows the kept elements `k`. */
  lemma ChainUnlink(m: Mem, m2: Mem, key: Word8, sz: int, k: seq<int>, p: int, r: seq<int>)
    requires Chain(m, key, sz, k + [p] + r) && k != []
    requires LinkOK(m2, key, k[|k| - 1], sz, First(r))
    requires forall i :: 0 <= i < |k| - 1 ==> SameBytes(m, m2, k[i], sz)
    requires forall i :: 0 <= i < |r| ==> SameBytes(m, m2, r[i], sz)
    ensures Chain(m2, key, sz, k + r)
  {
    hide LinkOK, SameBytes;
    var s, t := k + [p] + r, k + r;
    forall i | 0 <= i < |t| ensures LinkOK(m2, key, t[i], sz, NextOf(t, i)) {
      if i < |k| - 1 {
        assert s[i] == k[i] == t[i] && NextOf(s, i) == NextOf(t, i);
        LinkSame(m, m2, key, k[i], sz, NextOf(s, i));
      } else if i == |k| - 1 {
        assert NextOf(t, i) == First(r);
      } else {
        assert s[i + 1] == r[i - |k|] == t[i] && NextOf(s, i + 1) == NextOf(t, i);
        LinkSame(m, m2, key, r[i - |k|], sz, NextOf(s, i + 1));
      }
    }
  }
}
