/** Arenas: `Zend/zend_arena.h` (the variant that does not track single allocations).

    An arena is one block of the memory manager with a header, a bump pointer and a link
    to the arena it was created after. A checkpoint is a bare address; releasing it must
    find the arena it came from among blocks that may touch each other in memory.

    `Pool` is the value of a whole chain together with the blocks handed out and not
    released; `Extends` says what may have happened since a checkpoint. */
module Arenas {

  /** Size of the address space, of the arena header and of the allocation unit. */
  const SPACE: nat := 0x1_0000_0000_0000_0000
  const HEADER: nat := 24
  const UNIT: nat := 8

  /** One arena: its block is `base..end`, the bytes from `ptr` are unused. */
  datatype Area = Area(base: nat, ptr: nat, end: nat)

  /** Bytes `at..at+len` handed to a caller. */
  datatype Block = Block(at: nat, len: nat)

  /** The arenas, newest first, and the blocks handed out, oldest first. */
  datatype Pool = Pool(areas: seq<Area>, used: seq<Block>)

  // ----- sizes -----

  /** Rounding up to the allocation unit in 64-bit arithmetic. */
  function Aligned(size: nat): (r: nat)
    requires size < SPACE
    ensures r % UNIT == 0
    ensures size <= SPACE - UNIT ==> size <= r < size + UNIT
    ensures size > SPACE - UNIT ==> r == 0
  {
    (size + 7) % SPACE / 8 * 8
  }

  /** Size of the block for a new arena, given the size of the current one. */
  function GrowSize(size: nat, total: nat): (r: nat)
    requires size < SPACE && total < SPACE
  {
    var need := (Aligned(size) + HEADER) % SPACE;
    if need > total then need else total
  }

  /** A new arena is as large as the current one, and larger only as far as the request needs. */
  lemma GrowLeast(size: nat, total: nat, n: nat)
    requires size <= SPACE - HEADER - UNIT && total < SPACE
    ensures total <= n && HEADER + size <= n && n % UNIT == 0 ==> GrowSize(size, total) <= n
    ensures total <= GrowSize(size, total) && HEADER + size <= GrowSize(size, total)
    ensures HEADER + size <= total && total % UNIT == 0 ==> GrowSize(size, total) == total
  {}

  /** Where the next block starts and how much room there is up to the end of its arena. */
  function NextRoom(a: Area, size: nat): (r: int)
    requires Sane(a) && size < SPACE
  {
    if Aligned(size) <= a.end - a.ptr then a.end - a.ptr
    else GrowSize(size, a.end - a.base) - HEADER
  }

  ghost predicate Sane(a: Area) {
    && UNIT <= a.base && a.base % UNIT == 0
    && a.base + HEADER <= a.ptr <= a.end < SPACE
    && a.ptr % UNIT == 0
  }

  /** The bytes returned hold the request exactly when rounding it up and adding a header
      stays inside 64 bits. Larger requests get a block that is too small. */
  lemma RoomExactly(a: Area, size: nat)
    requires Sane(a) && size < SPACE
    ensures size <= NextRoom(a, size) <==> size <= SPACE - HEADER - UNIT
    ensures size <= SPACE - HEADER - UNIT ==> Aligned(size) <= NextRoom(a, size)
  {}

  /** The smallest such request: 31 bytes below the top of the address space, from which
      the header sum wraps to 0 and the new arena is as small as the last. */
  lemma TooLarge(a: Area)
    requires Sane(a)
    ensures NextRoom(a, SPACE - HEADER - UNIT + 1) == a.end - a.base - HEADER
  {}

  // ----- well-formed pools -----

  ghost predicate Disjoint(lo1: int, hi1: int, lo2: int, hi2: int) {
    hi1 <= lo2 || hi2 <= lo1
  }

  ghost predicate AreasApart(areas: seq<Area>) {
    forall i, j :: 0 <= i < j < |areas| ==> Disjoint(areas[i].base, areas[i].end, areas[j].base, areas[j].end)
  }

  /** The block lies in the used part of one of the arenas. */
  ghost predicate Inside(areas: seq<Area>, b: Block) {
    exists i :: 0 <= i < |areas| && areas[i].base + HEADER <= b.at && b.at + b.len <= areas[i].ptr
  }

  ghost predicate BlocksApart(used: seq<Block>) {
    forall i, j :: 0 <= i < j < |used| ==> Disjoint(used[i].at, used[i].at + used[i].len, used[j].at, used[j].at + used[j].len)
  }

  ghost predicate Good(p: Pool) {
    && p.areas != []
    && (forall a <- p.areas :: Sane(a))
    && AreasApart(p.areas)
    && (forall b <- p.used :: b.at % UNIT == 0 && Inside(p.areas, b))
    && BlocksApart(p.used)
  }

  // ----- allocation -----

  /** `at..at+size` meets no arena. */
  ghost predicate Fresh(areas: seq<Area>, at: nat, size: nat) {
    && UNIT <= at && at % UNIT == 0 && at + size < SPACE
    && forall a <- areas :: Disjoint(at, at + size, a.base, a.end)
  }

  /** The arena allocated from. */
  ghost function Newest(p: Pool): (a: Area)
    requires Good(p)
    ensures Sane(a)
  {
    p.areas[0]
  }

  ghost predicate Fits(p: Pool, size: nat)
    requires Good(p) && size < SPACE
  {
    Aligned(size) <= Newest(p).end - Newest(p).ptr
  }

  /** The memory manager's answer, where it is asked, is a block that meets no arena. */
  ghost predicate Answered(p: Pool, size: nat, at: nat)
    requires Good(p) && size < SPACE
  {
    !Fits(p, size) ==> Fresh(p.areas, at, GrowSize(size, Newest(p).end - Newest(p).base))
  }

  /** Allocation of a size that does not wrap; `at` is the memory manager's answer. */
  ghost function Allocated(p: Pool, size: nat, at: nat): Pool
    requires Good(p) && size <= SPACE - HEADER - UNIT
  {
    var a, n := Newest(p), Aligned(size);
    if Fits(p, size) then
      Pool([a.(ptr := a.ptr + n)] + p.areas[1..], p.used + [Block(a.ptr, size)])
    else
      Pool([Area(at, at + HEADER + n, at + GrowSize(size, a.end - a.base))] + p.areas,
           p.used + [Block(at + HEADER, size)])
  }

  /** The block is the next aligned one of its arena, and no byte is left out behind it but for
      the alignment. */
  lemma AllocatedTight(p: Pool, size: nat, at: nat)
    requires Good(p) && size <= SPACE - HEADER - UNIT
    ensures var q := Allocated(p, size, at); var b := q.used[|q.used| - 1];
      && q.areas != [] && |q.used| == |p.used| + 1 && b.len == size
      && b.at + size <= q.areas[0].ptr < b.at + size + UNIT && q.areas[0].ptr % UNIT == b.at % UNIT
      && (Fits(p, size) ==> b.at == p.areas[0].ptr && |q.areas| == |p.areas|)
      && (!Fits(p, size) ==> b.at == q.areas[0].base + HEADER && q.areas[0].base == at && q.areas[1..] == p.areas)
  {}

  lemma InsideGrows(p: Pool, q: Pool, b: Block)
    requires Inside(p.areas, b)
    requires |p.areas| <= |q.areas|
    requires forall i :: 0 <= i < |p.areas| ==>
      var c := q.areas[|q.areas| - |p.areas| + i];
      p.areas[i].base == c.base && p.areas[i].ptr <= c.ptr
    ensures Inside(q.areas, b)
  {
    var i :| 0 <= i < |p.areas| && p.areas[i].base + HEADER <= b.at && b.at + b.len <= p.areas[i].ptr;
    var k := |q.areas| - |p.areas| + i;
    assert q.areas[k].base == p.areas[i].base;
  }

  /** A block inside the arenas keeps clear of a block beyond them. */
  lemma InsideApart(areas: seq<Area>, b: Block, x: Block)
    requires Inside(areas, b)
    requires forall a <- areas :: Disjoint(a.base, a.ptr, x.at, x.at + x.len)
    ensures Disjoint(b.at, b.at + b.len, x.at, x.at + x.len)
  {
    var i :| 0 <= i < |areas| && areas[i].base + HEADER <= b.at && b.at + b.len <= areas[i].ptr;
    assert areas[i] in areas;
  }

  /** Allocation keeps the pool well formed: the new block is aligned, inside an arena,
      and apart from every block handed out before. */
  lemma AllocatedGood(p: Pool, size: nat, at: nat)
    requires Good(p) && size <= SPACE - HEADER - UNIT && Answered(p, size, at)
    ensures Good(Allocated(p, size, at))
    ensures Extends(Allocated(p, size, at), p)
  {
    hide Sane, AreasApart, Inside, BlocksApart, Disjoint, Beyond, Fresh, Fits, Aligned, GrowSize;
    var q := Allocated(p, size, at);
    AreasGood(p, size, at);
    var b := NewBlock(p, size, at);
    AreasGrow(p, size, at);
    BeyondApart(b, p);
    forall c <- p.used ensures Inside(q.areas, c) && Disjoint(c.at, c.at + c.len, b.at, b.at + b.len) {
      InsideGrows(p, q, c);
      InsideApart(p.areas, c, b);
    }
    OneMore(p.used, b);
    assert q.used[..|p.used|] == p.used;
  }

  /** The new block: aligned, inside the new pool, beyond the old one. */
  lemma NewBlock(p: Pool, size: nat, at: nat) returns (b: Block)
    requires Good(p) && size <= SPACE - HEADER - UNIT && Answered(p, size, at)
    ensures var q := Allocated(p, size, at);
      b.at % UNIT == 0 && b.len == size && q.used == p.used + [b] && Inside(q.areas, b) && Beyond(b, p)
  {
    hide Inside, BlocksApart, GrowSize;
    var q, a := Allocated(p, size, at), Newest(p);
    RoomExactly(a, size);
    b := q.used[|p.used|];
    assert Inside(q.areas, b) by { InTop(q.areas, b); }
  }

  lemma InTop(areas: seq<Area>, b: Block)
    requires areas != [] && areas[0].base + HEADER <= b.at && b.at + b.len <= areas[0].ptr
    ensures Inside(areas, b)
  {}

  /** Allocation leaves the older arenas alone and moves the newest pointer up, if anything. */
  lemma AreasGrow(p: Pool, size: nat, at: nat)
    requires Good(p) && size <= SPACE - HEADER - UNIT
    ensures var (q, d) := (Allocated(p, size, at), |Allocated(p, size, at).areas| - |p.areas|);
      && 0 <= d <= 1
      && q.areas[d].base == p.areas[0].base && q.areas[d].end == p.areas[0].end
      && p.areas[0].ptr <= q.areas[d].ptr
      && q.areas[d + 1..] == p.areas[1..]
      && forall i :: 0 <= i < |p.areas| ==> p.areas[i].base == q.areas[d + i].base && p.areas[i].ptr <= q.areas[d + i].ptr
  {
    hide Inside, BlocksApart, AreasApart, GrowSize;
  }

  lemma BeyondApart(b: Block, p: Pool)
    requires Beyond(b, p)
    ensures forall a <- p.areas :: Disjoint(a.base, a.ptr, b.at, b.at + b.len)
  {}

  lemma OneMore(used: seq<Block>, b: Block)
    requires BlocksApart(used)
    requires forall c <- used :: Disjoint(c.at, c.at + c.len, b.at, b.at + b.len)
    ensures BlocksApart(used + [b])
  {
    hide Disjoint;
    var more := used + [b];
    forall i, j | 0 <= i < j < |more|
      ensures Disjoint(more[i].at, more[i].at + more[i].len, more[j].at, more[j].at + more[j].len)
    {
      assert more[i] in used;
    }
  }

  lemma AllSane(p: Pool, size: nat, at: nat)
    requires Good(p) && size <= SPACE - HEADER - UNIT && Answered(p, size, at)
    ensures forall a <- Allocated(p, size, at).areas :: Sane(a)
  {
    hide Inside, BlocksApart, AreasApart, Disjoint, GrowSize;
    RoomExactly(p.areas[0], size);
    var q := Allocated(p, size, at).areas;
    assert Sane(q[0]);
    forall a <- q ensures Sane(a) {
      assert a == q[0] || a in p.areas;
    }
  }

  lemma StillApart(p: Pool, size: nat, at: nat)
    requires Good(p) && size <= SPACE - HEADER - UNIT && Answered(p, size, at)
    ensures AreasApart(Allocated(p, size, at).areas)
  {
    hide Inside, BlocksApart, Aligned, GrowSize, Disjoint;
    var a, q := p.areas[0], Allocated(p, size, at).areas;
    if Fits(p, size) {
      assert forall i :: 0 <= i < |q| ==> q[i].base == p.areas[i].base && q[i].end == p.areas[i].end;
    } else {
      forall i, j | 0 <= i < j < |q| ensures Disjoint(q[i].base, q[i].end, q[j].base, q[j].end) {
        assert q[j] == p.areas[j - 1];
        if i > 0 { assert q[i] == p.areas[i - 1]; }
      }
    }
  }

  lemma AreasGood(p: Pool, size: nat, at: nat)
    requires Good(p) && size <= SPACE - HEADER - UNIT && Answered(p, size, at)
    ensures var q := Allocated(p, size, at); AreasApart(q.areas) && forall a <- q.areas :: Sane(a)
  {
    AllSane(p, size, at);
    StillApart(p, size, at);
  }

  // ----- checkpoints -----

  /** `now` arises from `then0` by allocations, and by releases of later checkpoints: the
      old arenas are the oldest ones of `now`, the newest of them may have been used
      further, and every block handed out since lies beyond the old ones. */
  ghost predicate Extends(now: Pool, then0: Pool) {
    var d := |now.areas| - |then0.areas|;
    && 0 <= d < |now.areas|
    && now.areas[d].base == then0.areas[0].base
    && now.areas[d].end == then0.areas[0].end
    && then0.areas[0].ptr <= now.areas[d].ptr
    && now.areas[d + 1..] == then0.areas[1..]
    && then0.used <= now.used
    && forall i :: |then0.used| <= i < |now.used| ==> Beyond(now.used[i], then0)
  }

  /** The block shares no byte with the used parts of the arenas of `p`. */
  ghost predicate Beyond(b: Block, p: Pool) {
    forall a <- p.areas :: Disjoint(a.base, a.ptr, b.at, b.at + b.len)
  }

  lemma ExtendsTransitive(a: Pool, b: Pool, c: Pool)
    requires Extends(a, b) && Extends(b, c)
    ensures Extends(a, c)
  {
    hide Beyond;
    var d, e := |a.areas| - |b.areas|, |b.areas| - |c.areas|;
    forall k | d < k < |a.areas| ensures a.areas[k] == b.areas[k - d] {
      assert a.areas[d + 1..][k - d - 1] == b.areas[1..][k - d - 1];
    }
    assert a.areas[d + e + 1..] == c.areas[1..] by {
      var x, y := a.areas[d + e + 1..], c.areas[1..];
      forall i | 0 <= i < |y| ensures x[i] == y[i] {
        assert b.areas[e + 1..][i] == c.areas[1..][i];
      }
    }
    forall i | |c.used| <= i < |a.used| ensures Beyond(a.used[i], c) {
      if i < |b.used| {
        assert a.used[i] == b.used[i];
      } else {
        BeyondBack(a.used[i], b, c);
      }
    }
  }

  lemma BeyondBack(x: Block, b: Pool, c: Pool)
    requires Extends(b, c) && Beyond(x, b)
    ensures Beyond(x, c)
  {
    var e := |b.areas| - |c.areas|;
    forall k | 0 <= k < |c.areas| ensures Disjoint(c.areas[k].base, c.areas[k].ptr, x.at, x.at + x.len) {
      assert b.areas[e + k] in b.areas;
      if k > 0 { assert b.areas[e + 1..][k - 1] == c.areas[1..][k - 1]; }
    }
  }

  /** Popping arenas until one holds the address, whose bump pointer becomes that address. */
  ghost function Dropped(areas: seq<Area>, cp: nat): seq<Area> {
    if areas == [] then []
    else if Holds(areas[0], cp) then [areas[0].(ptr := cp)] + areas[1..]
    else Dropped(areas[1..], cp)
  }

  /** The test of the release loop: past the start of the block, up to and with its end. */
  predicate Holds(a: Area, cp: nat) {
    a.base < cp <= a.end
  }

  /** However much was allocated since, and even where blocks touch or the checkpoint is the
      end of its arena, popping restores the arenas as they were at the checkpoint. */
  lemma {:induction false} DroppedRestores(now: seq<Area>, then0: seq<Area>)
    requires then0 != [] && |then0| <= |now|
    requires (forall a <- now :: Sane(a)) && AreasApart(now)
    requires var a := now[|now| - |then0|];
      a.base == then0[0].base && a.end == then0[0].end && Holds(a, then0[0].ptr)
    requires now[|now| - |then0| + 1..] == then0[1..]
    ensures Dropped(now, then0[0].ptr) == then0
    decreases |now|
  {
    if |now| == |then0| {
      assert now[0].(ptr := then0[0].ptr) == then0[0];
    } else {
      var d := |now| - |then0|;
      assert Disjoint(now[0].base, now[0].end, now[d].base, now[d].end);
      assert !Holds(now[0], then0[0].ptr);
      assert now[1..][d - 1] == now[d] && now[1..][d..] == now[d + 1..];
      DroppedRestores(now[1..], then0);
    }
  }

  /** At most one arena holds an address, so the checkpoint alone identifies its arena. */
  lemma HoldsOnce(areas: seq<Area>, i: nat, j: nat, cp: nat)
    requires i < |areas| && j < |areas| && i != j && AreasApart(areas)
    requires Holds(areas[i], cp)
    ensures !Holds(areas[j], cp)
  {
    var lo, hi := if i < j then i else j, if i < j then j else i;
    assert Disjoint(areas[lo].base, areas[lo].end, areas[hi].base, areas[hi].end);
  }

  lemma ReleasedIs(now: Pool, then0: Pool)
    requires Good(now) && Good(then0) && Extends(now, then0)
    ensures Dropped(now.areas, then0.areas[0].ptr) == then0.areas
  {
    hide Inside, BlocksApart, Beyond;
    assert then0.areas[0] in then0.areas;
    DroppedRestores(now.areas, then0.areas);
  }

  // ----- runs -----

  /** A client keeps a stack of checkpoints; releasing one forgets the later ones. */
  datatype Event = Alloc(size: nat, at: nat) | Check | Release(depth: nat)

  ghost predicate Allowed(p: Pool, marks: seq<Pool>, e: Event)
    requires Good(p)
  {
    match e
    case Alloc(size, at) => size <= SPACE - HEADER - UNIT && Answered(p, size, at)
    case Check => true
    case Release(depth) => depth < |marks|
  }

  /** One event on the arenas. A release knows the address of its checkpoint only. */
  ghost function After(p: Pool, marks: seq<Pool>, e: Event): (Pool, seq<Pool>)
    requires Good(p) && Allowed(p, marks, e)
    requires forall m <- marks :: Good(m)
  {
    match e
    case Alloc(size, at) => (Allocated(p, size, at), marks)
    case Check => (p, marks + [p])
    case Release(depth) =>
      var m := marks[depth];
      (Pool(Dropped(p.areas, Newest(m).ptr), m.used), marks[..depth + 1])
  }

  /** Every checkpoint on the stack is extended by the later ones and by the present. */
  ghost predicate Nested(p: Pool, marks: seq<Pool>) {
    && Good(p)
    && (forall m <- marks :: Good(m) && Extends(p, m))
    && (forall i, j :: 0 <= i < j < |marks| ==> Extends(marks[j], marks[i]))
  }

  /** Kept by every event; and a release brings back the pool of its checkpoint whole. */
  lemma EventKeeps(p: Pool, marks: seq<Pool>, e: Event)
    requires Nested(p, marks) && Allowed(p, marks, e)
    ensures var (q, rest) := After(p, marks, e); Nested(q, rest)
    ensures e.Release? ==> After(p, marks, e).0 == marks[e.depth]
  {
    hide Good, Extends, Allocated, Dropped, Fits, Fresh;
    match e
    case Alloc(size, at) =>
      AllocatedGood(p, size, at);
      forall m <- marks ensures Extends(Allocated(p, size, at), m) {
        ExtendsTransitive(Allocated(p, size, at), p, m);
      }
    case Check =>
      ExtendsSelf(p);
    case Release(depth) =>
      var m := marks[depth];
      ReleasedIs(p, m);
      assert Pool(m.areas, m.used) == m;
      ExtendsSelf(m);
      forall k | 0 <= k <= depth ensures Extends(m, marks[k]) {
        if k < depth { assert Extends(marks[depth], marks[k]); }
      }
  }

  lemma ExtendsSelf(p: Pool)
    requires Good(p)
    ensures Extends(p, p)
  {
    hide Inside, BlocksApart, AreasApart;
  }

  ghost predicate AllAllowed(p: Pool, marks: seq<Pool>, events: seq<Event>)
    requires Nested(p, marks)
    decreases |events|
  {
    events == [] ||
    (Allowed(p, marks, events[0]) &&
     (EventKeeps(p, marks, events[0]);
      var (q, rest) := After(p, marks, events[0]);
      AllAllowed(q, rest, events[1..])))
  }

  ghost function AfterAll(p: Pool, marks: seq<Pool>, events: seq<Event>): (Pool, seq<Pool>)
    requires Nested(p, marks) && AllAllowed(p, marks, events)
    decreases |events|
  {
    if events == [] then (p, marks) else
    EventKeeps(p, marks, events[0]);
    var (q, rest) := After(p, marks, events[0]);
    AfterAll(q, rest, events[1..])
  }

  /** Whatever the run, blocks handed out and not released are aligned and pairwise apart,
      and releasing the checkpoint at any depth brings back exactly its pool. */
  lemma {:induction false} RunKeeps(p: Pool, marks: seq<Pool>, events: seq<Event>)
    requires Nested(p, marks) && AllAllowed(p, marks, events)
    ensures var (q, rest) := AfterAll(p, marks, events);
      && Nested(q, rest)
      && (forall b <- q.used :: b.at % UNIT == 0) && BlocksApart(q.used)
      && forall depth :: 0 <= depth < |rest| ==> After(q, rest, Release(depth)).0 == rest[depth]
    decreases |events|
  {
    hide Extends, Allocated, Dropped, After, Allowed;
    if events == [] {
      forall depth | 0 <= depth < |marks| ensures Nested(p, marks) && Allowed(p, marks, Release(depth)) {
        AllowedRelease(p, marks, depth);
      }
      forall depth | 0 <= depth < |marks| ensures After(p, marks, Release(depth)).0 == marks[depth] {
        EventKeeps(p, marks, Release(depth));
      }
    } else {
      EventKeeps(p, marks, events[0]);
      var (q, rest) := After(p, marks, events[0]);
      RunKeeps(q, rest, events[1..]);
    }
  }

  lemma AllowedRelease(p: Pool, marks: seq<Pool>, depth: nat)
    requires Good(p) && depth < |marks|
    ensures Allowed(p, marks, Release(depth))
  {}

  // ----- the code -----

  class Arena {
    const base: nat
    const end: nat
    const prev: Arena?
    var ptr: nat

    constructor (base: nat, ptr: nat, end: nat, prev: Arena?)
      ensures this.base == base && this.ptr == ptr && this.end == end && this.prev == prev
    {
      this.base, this.ptr, this.end, this.prev := base, ptr, end, prev;
    }

    ghost function Value(): Area
      reads this
    {
      Area(base, ptr, end)
    }
  }

  ghost function Values(chain: seq<Arena>): (r: seq<Area>)
    reads chain
    ensures |r| == |chain| && forall i :: 0 <= i < |chain| ==> r[i] == chain[i].Value()
  {
    if chain == [] then [] else [chain[0].Value()] + Values(chain[1..])
  }

  /** `chain` lists the arenas from `top` along the links, each once. */
  ghost predicate ChainFrom(top: Arena?, chain: seq<Arena>) {
    if chain == [] then top == null
    else top == chain[0] && chain[0] !in chain[1..] && ChainFrom(chain[0].prev, chain[1..])
  }

  /** The variable that holds the newest arena, with the blocks handed out and the arenas
      given back to the memory manager so far. */
  class Holder {
    var arena: Arena
    ghost var chain: seq<Arena>
    ghost var used: seq<Block>
    ghost var freed: seq<nat>

    ghost function Now(): Pool
      reads this, chain
    {
      Pool(Values(chain), used)
    }

    ghost predicate Valid()
      reads this, chain
    {
      ChainFrom(arena, chain) && Good(Now())
    }

    /** One arena in a block of `size` bytes at `at`. */
    constructor (size: nat, at: nat)
      requires HEADER <= size && Fresh([], at, size)
      ensures Valid() && fresh(chain) && freed == []
      ensures Now() == Pool([Area(at, at + HEADER, at + size)], [])
    {
      var a := new Arena(at, at + HEADER, at + size, null);
      arena, chain, used, freed := a, [a], [], [];
    }

    /** `at` is the memory manager's answer, should a new arena be needed. */
    method Alloc(size: nat, at: nat) returns (p: nat)
      requires Valid() && size < SPACE && Answered(Now(), size, at)
      modifies this, chain
      ensures size <= SPACE - HEADER - UNIT ==>
        Valid() && Now() == Allocated(old(Now()), size, at) && used == old(used) + [Block(p, size)]
      ensures freed == old(freed) && fresh(set a <- chain | a !in old(chain))
      ensures used == old(used) + [Block(p, size)] && ChainFrom(arena, chain)
      ensures old(Now()).areas != [] && AllocatedFrom(old(Now()), size, at, Values(chain), p)
      ensures p + size <= arena.end <==> size <= SPACE - HEADER - UNIT
    {
      hide Good, Fresh, Aligned, GrowSize, ChainFrom, Values, Allocated, NextRoom, Sane, Answered;
      ghost var was := Now();
      GoodHead(was);
      HeadApart(arena, chain);
      HeadValues(chain);
      RoomExactly(was.areas[0], size);
      RoomMeans(was.areas[0], size);
      AnswerMeans(was, size, at);
      var n := Aligned(size);
      p := arena.ptr;
      if n <= arena.end - arena.ptr {
        MovePointer(p + n);
      } else {
        var arenaSize := GrowSize(size, arena.end - arena.base);
        p := at + HEADER;
        Push(at, (at + HEADER + n) % SPACE, at + arenaSize);
      }
      used := used + [Block(p, size)];
      assert AllocatedFrom(was, size, at, Values(chain), p);
      if size <= SPACE - HEADER - UNIT {
        hide AllocatedFrom;
        AllocatedIs(was, size, at, Values(chain), p);
      }
    }

    method MovePointer(ptr: nat)
      requires ChainFrom(arena, chain)
      modifies arena
      ensures Values(chain) == [Area(arena.base, ptr, arena.end)] + old(Values(chain))[1..]
    {
      hide ChainFrom, Values;
      HeadApart(arena, chain);
      HeadValues(chain);
      arena.ptr := ptr;
      HeadValues(chain);
    }

    method Push(base: nat, ptr: nat, end: nat)
      requires ChainFrom(arena, chain)
      modifies this`arena, this`chain
      ensures fresh(arena) && chain == [arena] + old(chain) && ChainFrom(arena, chain) && arena.end == end
      ensures Values(chain) == [Area(base, ptr, end)] + old(Values(chain))
    {
      hide ChainFrom, Values;
      var a := new Arena(base, ptr, end, arena);
      LinkNew(a, chain);
      arena := a;
      chain := [a] + chain;
      HeadValues(chain);
      assert chain[1..] == old(chain);
    }

    method Pop()
      requires ChainFrom(arena, chain) && |chain| > 1
      modifies this`arena, this`chain, this`freed
      ensures chain == old(chain)[1..] && ChainFrom(arena, chain)
      ensures Values(chain) == old(Values(chain))[1..]
      ensures freed == old(freed) + [old(arena).base]
    {
      hide ChainFrom, Values;
      HeadApart(arena, chain);
      ValuesTail(chain);
      freed := freed + [arena.base];
      chain := chain[1..];
      LinkHead(arena.prev, chain);
      arena := arena.prev;
    }

    method Checkpoint() returns (cp: nat)
      requires Valid()
      ensures cp == Newest(Now()).ptr
    {
      cp := arena.ptr;
    }

    /** Releases the checkpoint `cp` taken when the pool was `then0`. */
    method Release(cp: nat, ghost then0: Pool)
      requires Valid() && Good(then0) && Extends(Now(), then0) && cp == Newest(then0).ptr
      modifies this, chain
      ensures Valid() && Now() == then0
      ensures chain == old(chain)[|old(chain)| - |then0.areas|..]
      ensures freed == old(freed) + Bases(old(chain)[..|old(chain)| - |then0.areas|])
    {
      hide Good, Extends, Dropped, Holds, ChainFrom, Values, Bases;
      ghost var was, all := Now(), chain;
      ghost var d := ReleaseFacts(was, then0);
      ghost var k := 0;
      assert all[0..] == all && all[..0] == [];
      while !Holds(Area(arena.base, arena.ptr, arena.end), cp)
        invariant 0 <= k <= d == |all| - |then0.areas| < |all|
        invariant chain == all[k..] && ChainFrom(arena, chain)
        invariant Values(chain) == was.areas[k..]
        invariant Dropped(was.areas[k..], cp) == then0.areas
        invariant freed == old(freed) + Bases(all[..k])
        decreases d - k
      {
        DropStep(was.areas, k, cp);
        HeadApart(arena, chain);
        BasesNext(all, k);
        Pop();
        k := k + 1;
      }
      DropStep(was.areas, k, cp);
      HeadApart(arena, chain);
      assert arena == all[k];
      MovePointer(cp);
      used := then0.used;
    }

    /** Whether some arena's header or used bytes include the address just below `p`. */
    method Contains(p: nat) returns (r: bool)
      requires Valid()
      ensures r <==> exists a <- Now().areas :: a.base < p <= a.ptr
      ensures forall b <- used :: b.at <= p <= b.at + b.len ==> r
    {
      hide Good;
      var a: Arena? := arena;
      ghost var k := 0;
      while a != null
        invariant 0 <= k <= |chain|
        invariant ChainFrom(a, chain[k..])
        invariant forall i :: 0 <= i < k ==> !(chain[i].base < p <= chain[i].ptr)
        decreases |chain| - k
      {
        if a.base < p <= a.ptr {
          assert Now().areas[k] == a.Value();
          return true;
        }
        assert chain[k..][1..] == chain[k + 1..];
        a := a.prev;
        k := k + 1;
      }
      r := false;
      assert forall c <- Now().areas :: !(c.base < p <= c.ptr);
      NotInside(Now(), p);
    }

    /** Gives every arena back, newest first, each once. */
    method Destroy()
      requires Valid()
      modifies this
      ensures chain == [] && freed == old(freed) + Bases(old(chain))
    {
      hide Good;
      var a: Arena? := arena;
      ghost var k := 0;
      while a != null
        invariant 0 <= k <= |old(chain)|
        invariant chain == old(chain)[k..] && ChainFrom(a, chain)
        invariant freed == old(freed) + Bases(old(chain)[..k])
        decreases |old(chain)| - k
      {
        freed := freed + [a.base];
        assert old(chain)[..k + 1] == old(chain)[..k] + [a];
        BasesAdd(old(chain)[..k], a);
        chain := chain[1..];
        a := a.prev;
        k := k + 1;
      }
      assert old(chain)[..k] == old(chain);
    }
  }

  ghost function Bases(chain: seq<Arena>): (r: seq<nat>)
    ensures |r| == |chain| && forall i :: 0 <= i < |chain| ==> r[i] == chain[i].base
  {
    if chain == [] then [] else Bases(chain[..|chain| - 1]) + [chain[|chain| - 1].base]
  }

  lemma BasesAdd(chain: seq<Arena>, a: Arena)
    ensures Bases(chain + [a]) == Bases(chain) + [a.base]
  {}

  lemma LinkHead(top: Arena?, chain: seq<Arena>)
    requires ChainFrom(top, chain) && chain != []
    ensures top == chain[0]
  {}

  lemma AnswerMeans(p: Pool, size: nat, at: nat)
    requires Good(p) && size < SPACE && Answered(p, size, at)
    ensures var a := p.areas[0]; Sane(a) && (Aligned(size) > a.end - a.ptr ==>
      at + GrowSize(size, a.end - a.base) < SPACE)
  {}

  lemma LinkNew(a: Arena, chain: seq<Arena>)
    requires ChainFrom(a.prev, chain) && a !in chain
    ensures ChainFrom(a, [a] + chain)
  {
    assert ([a] + chain)[1..] == chain;
  }

  lemma AllocatedIs(was: Pool, size: nat, at: nat, areas: seq<Area>, p: nat)
    requires Good(was) && size <= SPACE - HEADER - UNIT && Answered(was, size, at)
    requires AllocatedFrom(was, size, at, areas, p)
    ensures Pool(areas, was.used + [Block(p, size)]) == Allocated(was, size, at)
    ensures Good(Allocated(was, size, at))
  {
    hide Inside, BlocksApart, AreasApart;
    RoomExactly(was.areas[0], size);
    AllocatedGood(was, size, at);
    hide Good;
  }

  /** What the two branches of the code leave behind. */
  ghost predicate AllocatedFrom(was: Pool, size: nat, at: nat, areas: seq<Area>, p: nat)
    requires was.areas != [] && size < SPACE
  {
    var a, n := was.areas[0], Aligned(size);
    if n <= a.end - a.ptr then
      p == a.ptr && areas == [Area(a.base, a.ptr + n, a.end)] + was.areas[1..]
    else
      && a.base <= a.end && a.end - a.base < SPACE
      && p == at + HEADER
      && areas == [Area(at, (at + HEADER + n) % SPACE, at + GrowSize(size, a.end - a.base))] + was.areas
  }

  lemma ValuesTail(chain: seq<Arena>)
    requires chain != []
    ensures Values(chain[1..]) == Values(chain)[1..] && Values(chain)[0] == chain[0].Value()
  {}

  lemma HeadValues(chain: seq<Arena>)
    requires chain != []
    ensures Values(chain) == [chain[0].Value()] + Values(chain[1..])
  {}

  /** The arena of the checkpoint is found, `d` arenas down. */
  lemma ReleaseFacts(was: Pool, then0: Pool) returns (d: nat)
    requires Good(was) && Good(then0) && Extends(was, then0)
    ensures d == |was.areas| - |then0.areas| < |was.areas|
    ensures Holds(was.areas[d], then0.areas[0].ptr)
    ensures was.areas[0..] == was.areas
    ensures Dropped(was.areas, then0.areas[0].ptr) == then0.areas
  {
    hide Inside, BlocksApart, Beyond, AreasApart;
    d := |was.areas| - |then0.areas|;
    ReleasedIs(was, then0);
    assert then0.areas[0] in then0.areas && was.areas[d] in was.areas;
  }

  lemma DropStep(areas: seq<Area>, k: nat, cp: nat)
    requires k < |areas|
    ensures areas[k..][0] == areas[k] && areas[k..][1..] == areas[k + 1..]
    ensures Dropped(areas[k..], cp) ==
      if Holds(areas[k], cp) then [areas[k].(ptr := cp)] + areas[k + 1..] else Dropped(areas[k + 1..], cp)
  {
    TailNext(areas, k);
  }

  lemma TailNext<T>(s: seq<T>, k: nat)
    requires k < |s|
    ensures s[k..] != [] && s[k..][0] == s[k] && s[k..][1..] == s[k + 1..]
  {}

  lemma BasesNext(chain: seq<Arena>, k: nat)
    requires k < |chain|
    ensures Bases(chain[..k + 1]) == Bases(chain[..k]) + [chain[k].base]
    ensures chain[k..] != [] && chain[k..][0] == chain[k] && chain[k..][1..] == chain[k + 1..]
  {
    assert chain[..k + 1][..k] == chain[..k];
    TailNext(chain, k);
  }

  lemma HeadApart(top: Arena, chain: seq<Arena>)
    requires ChainFrom(top, chain)
    ensures chain != [] && chain[0] == top && top !in chain[1..] && ChainFrom(top.prev, chain[1..])
  {}

  lemma GoodHead(p: Pool)
    requires Good(p)
    ensures p.areas != [] && Sane(p.areas[0])
  {}

  /** In either case the room is what lies between the block and the end of its arena. */
  lemma RoomMeans(a: Area, size: nat)
    requires Sane(a) && size < SPACE
    ensures Aligned(size) <= a.end - a.ptr ==> NextRoom(a, size) == a.end - a.ptr
    ensures Aligned(size) > a.end - a.ptr ==> NextRoom(a, size) == GrowSize(size, a.end - a.base) - HEADER
  {}

  lemma NotInside(p: Pool, x: nat)
    requires Good(p) && forall c <- p.areas :: !(c.base < x <= c.ptr)
    ensures forall b <- p.used :: !(b.at <= x <= b.at + b.len)
  {
    hide Sane, AreasApart, BlocksApart;
    forall b <- p.used ensures !(b.at <= x <= b.at + b.len) {
      var i :| 0 <= i < |p.areas| && p.areas[i].base + HEADER <= b.at && b.at + b.len <= p.areas[i].ptr;
      assert p.areas[i] in p.areas;
    }
  }
}
