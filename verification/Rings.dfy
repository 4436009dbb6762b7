/** The ring of active chunks and the list of cached ones, as the header links spell them. */
module Rings {
  import opened Sizes
  import opened Memory
  import opened FreeLists
  import opened Blocks
  import opened Chunks

  function After(r: seq<int>, i: int): int
    requires 0 <= i < |r|
  {
    if i + 1 < |r| then r[i + 1] else r[0]
  }

  function Before(r: seq<int>, i: int): int
    requires 0 <= i < |r|
  {
    if i == 0 then r[|r| - 1] else r[i - 1]
  }

  ghost predicate Linked(ln: map<int, Links>, r: seq<int>, i: int)
    requires 0 <= i < |r|
  {
    r[i] in ln && ln[r[i]].next == After(r, i) && ln[r[i]].prev == Before(r, i)
  }

  /** `r` is one doubly linked ring. */
  ghost predicate RingOK(ln: map<int, Links>, r: seq<int>) {
    |r| >= 1 && NoDup(r) && forall i :: 0 <= i < |r| ==> Linked(ln, r, i)
  }

  function SetLinkNext(ln: map<int, Links>, c: int, v: int): map<int, Links> {
    if c in ln then ln[c := ln[c].(next := v)] else ln
  }

  function SetLinkPrev(ln: map<int, Links>, c: int, v: int): map<int, Links> {
    if c in ln then ln[c := ln[c].(prev := v)] else ln
  }

  /** Linking `c` between `a` and `b`, in the order of the four assignments of the code. */
  function Insert(ln: map<int, Links>, c: int, a: int, b: int): map<int, Links> {
    SetLinkPrev(SetLinkNext(SetLinkPrev(SetLinkNext(ln, c, b), c, a), a, c), b, c)
  }

  /** Unlinking `c`. */
  function Unlink(ln: map<int, Links>, c: int): map<int, Links> {
    if c in ln then SetLinkNext(SetLinkPrev(ln, ln[c].next, ln[c].prev), ln[c].prev, ln[c].next) else ln
  }

  lemma UnlinkKeys(ln: map<int, Links>, c: int)
    ensures Unlink(ln, c).Keys == ln.Keys
  {}

  /** The two halves of unlinking may be done in either order. */
  lemma UnlinkOrder(ln: map<int, Links>, c: int)
    requires c in ln && ln[c].next in ln && ln[c].prev in ln
    ensures SetLinkPrev(SetLinkNext(ln, ln[c].prev, ln[c].next), ln[c].next, ln[c].prev) == Unlink(ln, c)
  {}

  function WithoutAt<T>(r: seq<T>, k: int): (q: seq<T>)
    requires 0 <= k < |r|
    ensures |q| == |r| - 1
  {
    r[..k] + r[k + 1..]
  }

  /** A new chunk goes to the end of the ring, before the main chunk. */
  lemma InsertLast(ln: map<int, Links>, r: seq<int>, c: int)
    requires RingOK(ln, r) && c in ln && c !in r
    ensures r[|r| - 1] in ln && r[0] in ln && ln[r[0]].prev == r[|r| - 1]
    ensures RingOK(Insert(ln, c, r[|r| - 1], r[0]), r + [c])
  {
    var a, b := r[|r| - 1], r[0];
    assert Linked(ln, r, 0) && Linked(ln, r, |r| - 1);
    var l2, r2 := Insert(ln, c, a, b), r + [c];
    forall i | 0 <= i < |r2| ensures Linked(l2, r2, i) {
      if i < |r| { assert Linked(ln, r, i); }
    }
  }

  /** Any chunk but the main one can leave the ring. */
  lemma UnlinkAt(ln: map<int, Links>, r: seq<int>, k: int)
    requires RingOK(ln, r) && 1 <= k < |r|
    ensures r[k] in ln && ln[r[k]].next in ln && ln[r[k]].prev in ln
    ensures ln[ln[r[k]].next].prev == r[k] && ln[ln[r[k]].prev].next == r[k]
    ensures RingOK(Unlink(ln, r[k]), WithoutAt(r, k)) && r[k] !in WithoutAt(r, k)
  {
    assert Linked(ln, r, k) && Linked(ln, r, k - 1) && Linked(ln, r, 0);
    if k + 1 < |r| { assert Linked(ln, r, k + 1); }
    var l2, r2 := Unlink(ln, r[k]), WithoutAt(r, k);
    forall i | 0 <= i < |r2| ensures Linked(l2, r2, i) {
      assert Linked(ln, r, if i < k then i else i + 1);
    }
  }

  /** A chunk off the ring is linked right after the main chunk. */
  lemma InsertSecond(ln: map<int, Links>, r: seq<int>, c: int)
    requires RingOK(ln, r) && c in ln && c !in r
    ensures r[0] in ln && After(r, 0) in ln && ln[r[0]].next == After(r, 0)
    ensures RingOK(Insert(ln, c, r[0], After(r, 0)), [r[0], c] + r[1..])
  {
    assert Linked(ln, r, 0);
    if 1 < |r| { assert Linked(ln, r, 1); }
    var l2, r2 := Insert(ln, c, r[0], After(r, 0)), [r[0], c] + r[1..];
    forall i | 0 <= i < |r2| ensures Linked(l2, r2, i) {
      if i == 0 { assert Linked(ln, r, 0); }
      if i > 1 { assert Linked(ln, r, i - 1); }
    }
  }

  /** Only the links of ring members matter. */
  lemma RingSame(ln: map<int, Links>, ln2: map<int, Links>, r: seq<int>)
    requires RingOK(ln, r)
    requires forall i :: 0 <= i < |r| ==> r[i] in ln && r[i] in ln2 && ln2[r[i]].next == ln[r[i]].next && ln2[r[i]].prev == ln[r[i]].prev
    ensures RingOK(ln2, r)
  {
    forall i | 0 <= i < |r| ensures Linked(ln2, r, i) { assert Linked(ln, r, i); }
  }

  // ----- cached chunks -----

  /** What is left of a list when its first members have gone. */
  ghost predicate TailOf(t: seq<int>, s: seq<int>) {
    |t| <= |s| && t == s[|s| - |t|..]
  }

  const SHADOW_OFFSET: int := 24

  ghost predicate CachedAt(ln: map<int, Links>, s: seq<int>, key: Word8, i: int)
    requires 0 <= i < |s|
  {
    && s[i] in ln && 0 < s[i] && IsAddress(NextOf(s, i))
    && ln[s[i]].next == NextOf(s, i)
    && ln[s[i]].shadow == Encode(key, s[i] + SHADOW_OFFSET, NextOf(s, i))
  }

  /** Every cached chunk links to the next one and mirrors that link under the key. */
  ghost predicate CachedOK(ln: map<int, Links>, s: seq<int>, key: Word8) {
    NoDup(s) && forall i :: 0 <= i < |s| ==> CachedAt(ln, s, key, i)
  }

  lemma CachedTail(ln: map<int, Links>, s: seq<int>, key: Word8)
    requires CachedOK(ln, s, key) && s != []
    ensures CachedOK(ln, s[1..], key)
    ensures CachedAt(ln, s, key, 0) && ln[s[0]].next == First(s[1..])
    ensures Decode(key, s[0] + SHADOW_OFFSET, ln[s[0]].shadow) == First(s[1..])
  {
    hide Encode, Decode;
    assert CachedAt(ln, s, key, 0);
    DecodeEncode(key, s[0] + SHADOW_OFFSET, NextOf(s, 0));
    var t := s[1..];
    forall i | 0 <= i < |t| ensures CachedAt(ln, t, key, i) {
      assert CachedAt(ln, s, key, i + 1);
    }
  }

  lemma CachedPush(ln: map<int, Links>, ln2: map<int, Links>, s: seq<int>, key: Word8, c: int)
    requires CachedOK(ln, s, key) && c !in s
    requires forall i :: 0 <= i < |s| ==> s[i] in ln && s[i] in ln2 && ln2[s[i]] == ln[s[i]]
    requires c in ln2 && 0 < c && IsAddress(First(s))
    requires ln2[c].next == First(s) && ln2[c].shadow == Encode(key, c + SHADOW_OFFSET, First(s))
    ensures CachedOK(ln2, [c] + s, key)
  {
    hide Encode;
    var t := [c] + s;
    forall i | 0 <= i < |t| ensures CachedAt(ln2, t, key, i) {
      if i > 0 { assert CachedAt(ln, s, key, i - 1); }
    }
  }

  lemma CachedSame(ln: map<int, Links>, ln2: map<int, Links>, s: seq<int>, key: Word8)
    requires CachedOK(ln, s, key)
    requires forall i :: 0 <= i < |s| ==> s[i] in ln && s[i] in ln2 && ln2[s[i]].next == ln[s[i]].next && ln2[s[i]].shadow == ln[s[i]].shadow
    ensures CachedOK(ln2, s, key)
  {
    hide Encode;
    forall i | 0 <= i < |s| ensures CachedAt(ln2, s, key, i) { assert CachedAt(ln, s, key, i); }
  }
}
