/** Whole runs: whatever calls a program makes on blocks that it holds, the allocator behaves
    like a set of independent buffers. */
module Clients {
  import opened Sizes
  import opened Pages
  import opened Memory
  import opened Blocks
  import opened FreeLists
  import opened Rings
  import opened HeapModel
  import opened HeapState
  import opened HugeSteps
  import opened HeaderTable
  import opened GcSpec
  import opened GcResult
  import opened Collectors
  import opened Heaps
  import opened PageAllocs
  import opened SmallRuns
  import opened HeapCalls
  import opened FreeCalls
  import opened Writes
  import opened ReallocCalls
  import opened Rekeying
  import opened Lifecycle
  import opened Shutdowns

  // ----- the specification: named buffers -----

  type Text = map<nat, seq<bv8>>

  datatype Op =
    | Malloc(id: nat, size: Size)          // emalloc
    | Release(id: nat)                     // efree
    | Resize(id: nat, size: Size)          // erealloc
    | ResizeCopy(id: nat, size: Size, copy: Size)   // erealloc2
    | Put(id: nat, at: nat, byte: bv8)     // a store into a block
    | Collect                              // zend_mm_gc
    | Limit(bytes: Size)                   // zend_set_memory_limit
    | Fork(key: Word8)                     // zend_mm_refresh_key_child
    | EndRequest(key: Word8)               // zend_mm_shutdown

  /** Which contents an operation may leave. Contents of a new buffer, and of the part that a
      buffer gains, are arbitrary. An operation on a name that is not in use, and a second
      allocation under a name in use, are skipped. */
  ghost predicate Step(t: Text, op: Op, u: Text) {
    match op
    case Malloc(id, size) => if id in t then u == t else id in u && u == t[id := u[id]] && |u[id]| == size
    case Release(id) => u == t - {id}
    case Resize(id, size) =>
      if id !in t then u == t
      else id in u && u == t[id := u[id]] && |u[id]| == size && SameStart(t[id], u[id], Smaller(|t[id]|, size))
    case ResizeCopy(id, size, copy) =>
      if id !in t then u == t
      else id in u && u == t[id := u[id]] && |u[id]| == size && SameStart(t[id], u[id], Smaller(Smaller(|t[id]|, size), copy))
    case Put(id, at, byte) => if id in t && at < |t[id]| then u == t[id := t[id][at := byte]] else u == t
    case Collect => u == t
    case Limit(_) => u == t
    case Fork(_) => u == t
    case EndRequest(_) => u == map[]
  }

  ghost predicate SameStart(a: seq<bv8>, b: seq<bv8>, n: nat) {
    n <= |a| && n <= |b| && a[..n] == b[..n]
  }

  /** A run of the specification. */
  ghost predicate Trace(ts: seq<Text>, ops: seq<Op>) {
    |ts| == |ops| + 1 && ts[0] == map[] && forall i :: 0 <= i < |ops| ==> StepAt(ts, ops, i)
  }

  ghost predicate StepAt(ts: seq<Text>, ops: seq<Op>, i: nat)
    requires i < |ops| && |ts| == |ops| + 1
  {
    Step(ts[i], ops[i], ts[i + 1])
  }

  // ----- the program's buffers in the heap -----

  /** A pointer and the size that was asked for. */
  datatype Buf = Buf(ptr: int, len: nat)

  ghost predicate HoldsOne(s: State, p: int, t: seq<bv8>) {
    Held(s, p) && |t| <= Usable(s.live[p]) && Mapped(s.mem, p, |t|) && Bytes(s.mem, p, |t|) == t
  }

  /** The program's blocks are the callers' blocks of the heap, each with its contents. */
  ghost predicate Holds(s: State, held: map<nat, Buf>, t: Text) {
    && held.Keys == t.Keys
    && (forall id :: id in held ==> HoldsOne(s, held[id].ptr, t[id]) && held[id].len == |t[id]|)
    && (forall i, j :: i in held && j in held && i != j ==> held[i].ptr != held[j].ptr)
    && (forall a :: a in User(s) ==> InUse(held, a))
  }

  ghost predicate InUse(held: map<nat, Buf>, a: int) {
    exists id :: id in held && held[id].ptr == a
  }

  lemma HoldsEmpty(s: State)
    requires s.live == map[]
    ensures Holds(s, map[], map[])
  {}

  /** Blocks held by the program never overlap. */
  lemma BuffersApart(s: State, held: map<nat, Buf>, t: Text, i: nat, j: nat)
    requires Sound(s) && Holds(s, held, t) && i in held && j in held && i != j
    ensures Apart(held[i].ptr, |t[i]|, held[j].ptr, |t[j]|)
  {
    hide Sound, Usable, IsNode, Mapped, Bytes;
    assert HoldsOne(s, held[i].ptr, t[i]) && HoldsOne(s, held[j].ptr, t[j]);
    LiveApart(s, held[i].ptr, held[j].ptr);
  }

  lemma OneKept(s: State, u: State, p: int, q: int, t: seq<bv8>)
    requires HoldsOne(s, p, t) && Held(u, p) && u.live[p] == s.live[p] && SameBytes(s.mem, u.mem, p, Usable(s.live[p]))
    ensures HoldsOne(u, p, t)
  {
    hide Usable, IsNode, Mapped, SameBytes, Bytes;
    PartSame(s.mem, u.mem, p, Usable(s.live[p]), |t|);
    BytesSame(s.mem, u.mem, p, |t|);
  }

  lemma UserHeld(s: State, p: int)
    ensures p in User(s) <==> Held(s, p)
    ensures Held(s, p) ==> User(s)[p] == s.live[p]
  {}

  /** The callers' blocks and their bytes are the same. */
  lemma HoldsKept(s: State, u: State, held: map<nat, Buf>, t: Text)
    requires Holds(s, held, t) && User(u) == User(s) && UserKept(s, u, 0) && 0 !in s.live
    ensures Holds(u, held, t)
  {
    hide HoldsOne, User, SameBytes, Usable, InUse;
    forall id | id in held ensures HoldsOne(u, held[id].ptr, t[id]) {
      OneHeld(s, held[id].ptr, t[id]);
      UserHeld(s, held[id].ptr);
      UserHeld(u, held[id].ptr);
      OneKept(s, u, held[id].ptr, 0, t[id]);
    }
  }

  lemma OneHeld(s: State, p: int, t: seq<bv8>)
    requires HoldsOne(s, p, t)
    ensures Held(s, p) && p in s.live
  {}

  /** A new block joins. */
  lemma HoldsAlloc(s: State, u: State, held: map<nat, Buf>, t: Text, id: nat, p: int, size: nat)
    requires Sound(s) && Sound(u) && Holds(s, held, t) && id !in held && Allocated(s, u, p) && size <= Usable(u.live[p])
    ensures Mapped(u.mem, p, size) && Holds(u, held[id := Buf(p, size)], t[id := Bytes(u.mem, p, size)])
  {
    hide Sound, HoldsOne, User, SameBytes, Usable, IsNode, Bytes, Mapped;
    ZeroNotLive(s);
    LiveMapped(u, p);
    MappedPart(u.mem, p, Usable(u.live[p]), p, size);
    var held2, t2 := held[id := Buf(p, size)], t[id := Bytes(u.mem, p, size)];
    assert held2.Keys == t2.Keys;
    NewHolds(u, p, size);
    forall i | i in held ensures HoldsOne(u, held[i].ptr, t[i]) && held[i].ptr != p {
      OneHeld(s, held[i].ptr, t[i]);
      UserHeld(s, held[i].ptr);
      UserHeld(u, held[i].ptr);
      AllocatedSame(s, u, p, held[i].ptr);
      OneKept(s, u, held[i].ptr, 0, t[i]);
    }
    forall a | a in User(u) ensures InUse(held2, a) {
      if a == p {
        assert held2[id].ptr == a;
      } else {
        assert a in User(s);
        var i :| i in held && held[i].ptr == a;
        assert held2[i].ptr == a;
      }
    }
  }

  lemma NewHolds(u: State, p: int, size: nat)
    requires Held(u, p) && size <= Usable(u.live[p]) && Mapped(u.mem, p, size)
    ensures HoldsOne(u, p, Bytes(u.mem, p, size))
  {
    hide Usable, IsNode, Mapped;
  }

  lemma AllocatedSame(s: State, u: State, p: int, a: int)
    requires Allocated(s, u, p) && a in User(s) && 0 !in s.live
    ensures a != p && Held(u, a) && u.live[a] == s.live[a] && SameBytes(s.mem, u.mem, a, Usable(s.live[a]))
  {
    hide SameBytes, Usable, IsNode;
    assert a in User(u) && User(u)[a] == User(s)[a];
  }

  /** A block is given back. */
  lemma HoldsFree(s: State, u: State, held: map<nat, Buf>, t: Text, id: nat)
    requires Holds(s, held, t) && id in held && GivenBack(s, u, held[id].ptr)
    ensures Holds(u, held - {id}, t - {id})
  {
    hide HoldsOne, User, SameBytes, Usable, IsNode;
    var p, held2, t2 := held[id].ptr, held - {id}, t - {id};
    assert held2.Keys == t2.Keys;
    forall i | i in held2 ensures HoldsOne(u, held2[i].ptr, t2[i]) {
      OneHeld(s, held[i].ptr, t[i]);
      UserHeld(s, held[i].ptr);
      UserHeld(u, held[i].ptr);
      assert held[i].ptr != p && held[i].ptr in User(u) && User(u)[held[i].ptr] == User(s)[held[i].ptr];
      OneKept(s, u, held[i].ptr, 0, t[i]);
    }
    forall a | a in User(u) ensures InUse(held2, a) {
      assert a in User(s) && a != p;
      var i :| i in held && held[i].ptr == a;
      assert held2[i].ptr == a;
    }
  }

  /** A block has moved. */
  lemma HoldsMove(s: State, u: State, held: map<nat, Buf>, t: Text, id: nat, r: int, size: nat, n: nat)
    requires Sound(s) && Sound(u) && Holds(s, held, t) && id in held && Moved(s, u, held[id].ptr, r, n)
    requires size <= Usable(u.live[r]) && n <= size && n <= |t[id]|
    ensures Mapped(u.mem, r, size) && Holds(u, held[id := Buf(r, size)], t[id := Bytes(u.mem, r, size)])
    ensures SameStart(t[id], Bytes(u.mem, r, size), n)
  {
    hide Sound, HoldsOne, User, SameBytes, Usable, IsNode, Bytes, Mapped;
    LiveMapped(u, r);
    MappedPart(u.mem, r, Usable(u.live[r]), r, size);
    var p := held[id].ptr;
    var held2, t2 := held[id := Buf(r, size)], t[id := Bytes(u.mem, r, size)];
    assert held2.Keys == t2.Keys;
    UserHeld(u, r);
    NewHolds(u, r, size);
    forall i | i in held && i != id ensures HoldsOne(u, held[i].ptr, t[i]) && held[i].ptr != r {
      OneHeld(s, held[i].ptr, t[i]);
      UserHeld(s, held[i].ptr);
      UserHeld(u, held[i].ptr);
      MovedOther(s, u, p, r, n, held[i].ptr);
      OneKept(s, u, held[i].ptr, 0, t[i]);
    }
    forall a | a in User(u) ensures InUse(held2, a) {
      if a == r {
        assert held2[id].ptr == a;
      } else {
        assert a in User(s) && a != p;
        var i :| i in held && held[i].ptr == a;
        assert held2[i].ptr == a;
      }
    }
    MovedStart(s, u, p, r, n, t[id], size);
  }

  lemma MovedOther(s: State, u: State, p: int, r: int, n: nat, a: int)
    requires Moved(s, u, p, r, n) && a in User(s) && a != p
    ensures a in User(u) && User(u)[a] == User(s)[a] && SameBytes(s.mem, u.mem, a, Usable(s.live[a])) && a != r
  {
    hide SameBytes, Usable, IsNode, SamePrefix;
  }

  lemma MovedStart(s: State, u: State, p: int, r: int, n: nat, t: seq<bv8>, size: nat)
    requires HoldsOne(s, p, t) && Moved(s, u, p, r, n) && n <= |t| && n <= size && Mapped(u.mem, r, size)
    ensures SameStart(t, Bytes(u.mem, r, size), n)
  {
    hide UserKept, User, Usable, Mapped, Bytes;
    BytesPart(s.mem, p, |t|, n);
    BytesPart(u.mem, r, size, n);
  }

  /** One byte of a block is written. */
  lemma HoldsPut(s: State, u: State, held: map<nat, Buf>, t: Text, id: nat, at: nat, byte: bv8)
    requires Sound(s) && Holds(s, held, t) && id in held && at < |t[id]|
    requires held[id].ptr + at in s.mem && u == s.(mem := s.mem[held[id].ptr + at := byte]) && SameLive(s.mem, u.mem, s.live, held[id].ptr)
    ensures Holds(u, held, t[id := t[id][at := byte]])
  {
    hide Sound, HoldsOne, User, SameBytes, Usable, IsNode, Mapped;
    ZeroNotLive(s);
    var t2 := t[id := t[id][at := byte]];
    assert held.Keys == t2.Keys;
    assert User(u) == User(s) by { PutUser(s, u); }
    forall i | i in held ensures HoldsOne(u, held[i].ptr, t2[i]) {
      OneHeld(s, held[i].ptr, t[i]);
      if i == id {
        PutOne(s, u, held[id].ptr, t[id], at, byte);
      } else {
        OneKept(s, u, held[i].ptr, 0, t[i]);
      }
    }
  }

  lemma PutUser(s: State, u: State)
    requires u.live == s.live && u.huge == s.huge
    ensures User(u) == User(s)
  {
    hide IsNode;
  }

  lemma PutOne(s: State, u: State, p: int, t: seq<bv8>, at: nat, byte: bv8)
    requires HoldsOne(s, p, t) && at < |t| && p + at in s.mem && u == s.(mem := s.mem[p + at := byte])
    ensures HoldsOne(u, p, t[at := byte])
  {
    hide Usable, IsNode;
    assert forall x :: x in u.mem <==> x in s.mem;
    assert Bytes(u.mem, p, |t|) == t[at := byte];
  }

  // ----- why a run stops -----

  /** Resizing block `p` is refused: it cannot be resized where it is, no free memory of the
      heap serves it, and no more can be had. */
  ghost predicate Denied(s: State, p: int, size: Size, h: Heap, before: nat)
    reads h`s, h`limit, h`overflow, h`realSize, h`refusals
  {
    p in s.live && !InPlace(s, p, size) && Exhausted(s, size) && OutOfMemory(h, size, before)
  }

  /** The operation fails in state `s`: a block is asked for and there is no memory for it, or
      more bytes are to be copied than the new block holds. */
  ghost predicate Fails(s: State, held: map<nat, Buf>, op: Op, h: Heap, before: nat)
    reads h`s, h`limit, h`overflow, h`realSize, h`refusals
  {
    match op
    case Malloc(id, size) => id !in held && Exhausted(s, size) && OutOfMemory(h, size, before)
    case Resize(id, size) => id in held && Denied(s, held[id].ptr, size, h, before)
    case ResizeCopy(id, size, copy) =>
      id in held && (Denied(s, held[id].ptr, size, h, before) || Overruns(s, held[id].ptr, size, copy))
    case _ => false
  }

  ghost predicate Overruns(s: State, p: int, size: Size, copy: Size) {
    p in s.live && !CopyFits(s.live[p], size, copy)
  }

  /** The operation is one that copies too much. */
  ghost predicate Overran(s: State, held: map<nat, Buf>, op: Op) {
    op.ResizeCopy? && op.id in held && Overruns(s, held[op.id].ptr, op.size, op.copy)
  }

  /** A refusal loses nothing. */
  lemma HoldsRefused(s: State, u: State, held: map<nat, Buf>, t: Text)
    requires Sound(s) && Refused(s, u) && Holds(s, held, t)
    ensures Holds(u, held, t)
  {
    hide Sound, Holds, SameLive, IsNode, Usable;
    KeptByLive(s, u);
    HoldsKept(s, u, held, t);
  }

  /** A plain resize never copies too much. */
  lemma PlainFits(k: Block, size: Size)
    requires size <= Usable(BlockFor(size))
    ensures CopyFits(k, size, size)
  {
    hide BinSize, BlockFor;
  }

  // ----- running the operations -----

  lemma DriftZero(size: int, s: State)
    ensures Drift(size, s) == 0 <==> size == SumUsable(s.live)
  {
    hide SumUsable;
  }

  method DoMalloc(h: Heap, held: map<nat, Buf>, ghost t: Text, id: nat, size: Size) returns (ok: bool, held2: map<nat, Buf>, ghost t2: Text)
    requires h.Valid() && Holds(h.s, held, t) && id !in held
    modifies h, h.hm, h.hm.objs, h.freeSlot
    ensures fresh(h.hm.objs - old(h.hm.objs)) && h.Consistent()
    ensures ok ==> h.Valid() && Holds(h.s, held2, t2) && Step(t, Malloc(id, size), t2)
    ensures !ok ==> held2 == held && t2 == t && Fails(old(h.s), held, Malloc(id, size), h, old(h.refusals))
    ensures !ok ==> Holds(h.s, held, t)
  {
    hide Sound, Heap.Steady, Settled, Holds, Allocated, Refused, Drift, SumUsable, Bytes, LiveKept, ClassFor, Mapped, Usable, IsNode,
      Exhausted, OutOfMemory, BlockFor;
    ghost var s := h.s;
    held2, t2 := held, t;
    HoldsKeys(s, held, t);
    DriftZero(h.size, h.s);
    SoundOf(h);
    var p := AllocHeap(h, size);
    ok := p != 0;
    if ok {
      SoundOf(h);
      HoldsAlloc(s, h.s, held, t, id, p, size);
      held2, t2 := held[id := Buf(p, size)], t[id := Bytes(h.s.mem, p, size)];
      DriftZero(h.size, h.s);
    } else {
      HoldsRefused(s, h.s, held, t);
    }
  }

  lemma HoldsKeys(s: State, held: map<nat, Buf>, t: Text)
    requires Holds(s, held, t)
    ensures forall id :: id in held <==> id in t
  {
    hide HoldsOne, InUse;
    assert forall id :: id in held.Keys <==> id in t.Keys;
  }

  lemma SoundOf(h: Heap)
    requires h.Ready()
    ensures Sound(h.s) && h !in h.hm.objs && h.freeSlot !in h.hm.objs
  {
    hide Sound;
  }

  method DoRelease(h: Heap, held: map<nat, Buf>, ghost t: Text, id: nat) returns (held2: map<nat, Buf>, ghost t2: Text)
    requires h.Valid() && Holds(h.s, held, t) && id in held
    modifies h, h.hm, h.hm.objs, h.freeSlot
    ensures h.hm.objs == old(h.hm.objs) && h.Valid() && Holds(h.s, held2, t2) && Step(t, Release(id), t2)
  {
    hide Sound, Heap.Steady, Settled, Holds, HoldsOne, GivenBack, Drift, SumUsable, IsNode;
    ghost var s := h.s;
    DriftZero(h.size, h.s);
    SoundOf(h);
    HeldOf(s, held, t, id);
    FreeHeap(h, held[id].ptr);
    DriftZero(h.size, h.s);
    HoldsFree(s, h.s, held, t, id);
    held2, t2 := held - {id}, t - {id};
  }

  lemma HeldOf(s: State, held: map<nat, Buf>, t: Text, id: nat)
    requires Holds(s, held, t) && id in held && Sound(s)
    ensures Held(s, held[id].ptr) && held[id].ptr != 0 && id in t && |t[id]| <= Usable(s.live[held[id].ptr])
    ensures HoldsOne(s, held[id].ptr, t[id])
  {
    hide Sound, IsNode, Usable, Mapped, Bytes;
    assert id in held.Keys;
    assert HoldsOne(s, held[id].ptr, t[id]);
    HeldNotNull(s, held[id].ptr);
  }

  lemma HeldLength(s: State, held: map<nat, Buf>, t: Text, id: nat)
    requires Holds(s, held, t) && id in held
    ensures id in t && held[id].len == |t[id]|
  {
    hide HoldsOne;
    assert id in held.Keys;
  }

  /** erealloc, and erealloc2 when `useCopy`. */
  method DoResize(h: Heap, held: map<nat, Buf>, ghost t: Text, id: nat, size: Size, useCopy: bool, copy: Size)
    returns (ok: bool, held2: map<nat, Buf>, ghost t2: Text)
    requires h.Valid() && Holds(h.s, held, t) && id in held && (!useCopy ==> copy == size)
    modifies h, h.hm, h.hm.objs, h.freeSlot
    ensures fresh(h.hm.objs - old(h.hm.objs)) && h.Consistent()
    ensures !ok ==> held2 == held && t2 == t
    ensures !ok ==> Holds(h.s, held, t) || (useCopy && Overruns(old(h.s), held[id].ptr, size, copy))
    ensures !ok ==>
      Fails(old(h.s), held, if useCopy then ResizeCopy(id, size, copy) else Resize(id, size), h, old(h.refusals))
    ensures ok ==> h.Valid() && Holds(h.s, held2, t2) && Step(t, if useCopy then ResizeCopy(id, size, copy) else Resize(id, size), t2)
  {
    hide Sound, Heap.Steady, Settled, Holds, HoldsOne, Moved, Allocated, Refused, Drift, SumUsable, IsNode, Usable, Bytes, Mapped, SameStart,
      Exhausted, OutOfMemory, BlockFor, CopyFits;
    ghost var s := h.s;
    held2, t2 := held, t;
    DriftZero(h.size, h.s);
    SoundOf(h);
    HeldOf(s, held, t, id);
    var p := held[id].ptr;
    ghost var mid;
    var r, overrun;
    r, overrun, mid := ReallocHeap(h, p, size, useCopy, copy);
    ok := r != 0 && !overrun;
    if overrun && !useCopy { PlainFits(s.live[p], size); }
    if r == 0 { HoldsRefused(s, h.s, held, t); }
    if ok {
      SoundOf(h);
      DriftZero(h.size, h.s);
      ghost var n := Smaller(Smaller(|t[id]|, size), copy);
      MovedShorter(s, h.s, p, r, Kept(Usable(s.live[p]), size, copy), n);
      HoldsMove(s, h.s, held, t, id, r, size, n);
      held2, t2 := held[id := Buf(r, size)], t[id := Bytes(h.s.mem, r, size)];
    }
  }

  /** A store of the program into one of its blocks. */
  method DoPut(h: Heap, held: map<nat, Buf>, ghost t: Text, id: nat, at: nat, byte: bv8) returns (ghost t2: Text)
    requires h.Valid() && Holds(h.s, held, t) && id in held && id in t && at < |t[id]|
    modifies h`s, h`mem
    ensures h.Valid() && Holds(h.s, held, t2) && Step(t, Put(id, at, byte), t2)
  {
    hide Sound, Headers.Valid, Clear, Heap.Heads, Heap.Account, Settled, SumHuge, SumUsable, Holds, HoldsOne, IsNode, Usable, OnlyInside, SameLive;
    ghost var s := h.s;
    HeldOf(s, held, t, id);
    var p := held[id].ptr;
    LiveMapped(s, p);
    ByteInside(s.mem, p, Usable(s.live[p]), at, byte);
    ghost var m2 := s.mem[p + at := byte];
    WriteSound(s, m2, p);
    ClearSame(h.reserved, s.mem, m2);
    h.mem := h.mem[p + at := byte];
    h.s := s.(mem := m2);
    SettledSame(s, h.s);
    HoldsPut(s, h.s, held, t, id, at, byte);
    t2 := t[id := t[id][at := byte]];
  }

  lemma ByteInside(m: Mem, p: int, n: int, at: nat, byte: bv8)
    requires Mapped(m, p, n) && at < n
    ensures p + at in m && OnlyInside(m, m[p + at := byte], p, n)
  {}

  method DoCollect(h: Heap, held: map<nat, Buf>, ghost t: Text)
    requires h.Valid() && Holds(h.s, held, t)
    modifies h, h.hm, h.hm.objs, h.freeSlot
    ensures h.hm.objs == old(h.hm.objs) && h.Valid() && Holds(h.s, held, t)
  {
    hide Sound, Heap.Steady, Settled, Holds, SumUsable, IsNode, Collected, SameLive, NoIdle, GcPages;
    ghost var s := h.s;
    SoundOf(h);
    var r := Gc(h);
    KeptByLive(s, h.s);
    HoldsKept(s, h.s, held, t);
  }

  /** When live blocks, huge list and bytes are the same, so is all that callers see. */
  lemma KeptByLive(s: State, u: State)
    requires Sound(s) && u.live == s.live && u.huge == s.huge && SameLive(s.mem, u.mem, s.live, 0)
    ensures User(u) == User(s) && UserKept(s, u, 0) && 0 !in s.live
  {
    hide Sound, SameBytes, IsNode, Usable;
    ZeroNotLive(s);
  }

  method DoLimit(h: Heap, held: map<nat, Buf>, ghost t: Text, bytes: Size)
    requires h.Valid() && Holds(h.s, held, t)
    modifies h, h.hm, h.hm.objs, h.freeSlot
    ensures h.hm.objs == old(h.hm.objs) && h.Valid() && Holds(h.s, held, t)
  {
    hide Sound, TailOf, Heap.Ready, Settled, Holds, SumUsable, IsNode, SameLive;
    ghost var s := h.s;
    SoundOf(h);
    var ok := SetMemoryLimit(h, bytes);
    KeptByLive(s, h.s);
    HoldsKept(s, h.s, held, t);
  }

  method DoFork(h: Heap, held: map<nat, Buf>, ghost t: Text, key: Word8)
    requires h.Valid() && Holds(h.s, held, t)
    modifies h, h.hm, h.hm.objs, h.freeSlot
    ensures h.hm.objs == old(h.hm.objs) && h.Valid() && Holds(h.s, held, t)
  {
    hide Sound, Heap.Steady, Settled, Holds, SumUsable, IsNode, SameLive;
    ghost var s := h.s;
    SoundOf(h);
    RefreshKey(h, key);
    KeptByLive(s, h.s);
    HoldsKept(s, h.s, held, t);
  }

  /** One operation. Only allocation and resizing can fail, and only for lack of memory, which
      loses nothing, or for a copy size that is too large. */
  method Execute(h: Heap, held: map<nat, Buf>, ghost t: Text, op: Op) returns (ok: bool, held2: map<nat, Buf>, ghost t2: Text)
    requires h.Valid() && Holds(h.s, held, t)
    modifies h, h.hm, h.hm.objs, h.freeSlot
    ensures fresh(h.hm.objs - old(h.hm.objs)) && h.Consistent()
    ensures ok ==> h.Valid() && Holds(h.s, held2, t2) && Step(t, op, t2)
    ensures !ok ==> held2 == held && Fails(old(h.s), held, op, h, old(h.refusals))
    ensures !ok ==> Holds(h.s, held, t) || Overran(old(h.s), held, op)
  {
    hide Heap.Ready, Holds, SumUsable, EmptyHeap, Denied, Overruns, Exhausted, OutOfMemory, Trimmed;
    ok, held2, t2 := true, held, t;
    HoldsKeys(h.s, held, t);
    match op {
      case Malloc(id, size) =>
        if id !in held { ok, held2, t2 := DoMalloc(h, held, t, id, size); }
      case Release(id) =>
        if id in held { held2, t2 := DoRelease(h, held, t, id); }
      case Resize(id, size) =>
        if id in held { ok, held2, t2 := DoResize(h, held, t, id, size, false, size); }
      case ResizeCopy(id, size, copy) =>
        if id in held { ok, held2, t2 := DoResize(h, held, t, id, size, true, copy); }
      case Put(id, at, byte) =>
        if id in held {
          HeldLength(h.s, held, t, id);
          if at < held[id].len { t2 := DoPut(h, held, t, id, at, byte); }
        }
      case Collect => DoCollect(h, held, t);
      case Limit(bytes) => DoLimit(h, held, t, bytes);
      case Fork(key) => DoFork(h, held, t, key);
      case EndRequest(key) =>
        Shutdown(h, key);
        EmptyParts(h.s);
        HoldsEmpty(h.s);
        held2, t2 := map[], map[];
    }
  }

  // ----- whole runs -----

  lemma TraceStart(ops: seq<Op>)
    ensures Trace([map[]], ops[..0])
  {}

  lemma TraceNext(ts: seq<Text>, ops: seq<Op>, k: nat, u: Text)
    requires k < |ops| && Trace(ts, ops[..k]) && Step(ts[k], ops[k], u)
    ensures Trace(ts + [u], ops[..k + 1])
  {
    hide Step;
    var us, os := ts + [u], ops[..k + 1];
    forall i | 0 <= i < |os| ensures StepAt(us, os, i) {
      if i < k { assert StepAt(ts, ops[..k], i); }
    }
  }

  /** Any sequence of operations on a new heap, up to its end or to the first one that fails:
      the heap stays valid, and the contents of the program's blocks are those of a run of
      the specification. `last` is the state in which the operation that failed was called,
      with `before` refusals by the operating system until then. */
  method Run(base: int, key: Word8, ops: seq<Op>)
    returns (h: Heap, done: nat, held: map<nat, Buf>, ghost ts: seq<Text>, ghost last: State, ghost before: nat)
    requires ChunkBase(base)
    ensures done <= |ops| && Trace(ts, ops[..done]) && |ts| == done + 1 && h.Consistent()
    ensures done == |ops| ==> h.Valid() && Holds(h.s, held, ts[done])
    ensures done < |ops| ==> Sound(last) && Holds(last, held, ts[done]) && Fails(last, held, ops[done], h, before)
    ensures done < |ops| ==> Holds(h.s, held, ts[done]) || Overran(last, held, ops[done])
  {
    hide Heap.Ready, Holds, SumUsable, Trace, Step, ChunkBase, Fails, Overran, Sound;
    h := new Heap(base, key);
    HoldsEmpty(h.s);
    TraceStart(ops);
    TraceLength([map[]], ops[..0]);
    held, ts, done := map[], [map[]], 0;
    ghost var t: Text := map[];
    last, before := h.s, h.refusals;
    while done < |ops|
      invariant fresh(h) && fresh(h.hm) && fresh(h.hm.objs) && fresh(h.freeSlot)
      invariant 0 <= done <= |ops| && h.Valid() && Trace(ts, ops[..done]) && |ts| == done + 1 && ts[done] == t && Holds(h.s, held, t)
    {
      ghost var u;
      var ok;
      SoundOf(h);
      last, before := h.s, h.refusals;
      ok, held, u := Execute(h, held, t, ops[done]);
      if !ok { return; }
      TraceNext(ts, ops, done, u);
      ts, t, done := ts + [u], u, done + 1;
    }
  }

  lemma TraceLength(ts: seq<Text>, ops: seq<Op>)
    requires Trace(ts, ops)
    ensures |ts| == |ops| + 1
  {}
}
