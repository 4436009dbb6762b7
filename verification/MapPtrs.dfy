/** The table behind compile-time handles: `zend_map_ptr_*` in `Zend/zend.c` and
    `Zend/zend_map_ptr.h`.

    A handle is an odd byte offset from a biased base in the middle of one block: dynamic
    slots lie above it, static slots below it in chunks that are prepended, so that chunk
    `c` ends up `c + 1` chunks below the base. Growth moves the block; handles stay.

    The table is proved against a finite map from handles to values. */
module MapPtrs {

  const CHUNK: nat := 4096
  const WORD: nat := 8

  /** A stored pointer; 0 is the null pointer. */
  type Value = nat

  const NULL: Value := 0

  /** Rounding up to whole chunks. */
  function ChunkAligned(n: nat): (r: nat)
    ensures r % CHUNK == 0 && n <= r < n + CHUNK
  {
    (n + CHUNK - 1) / CHUNK * CHUNK
  }

  // ----- positions relative to the dynamic base -----

  /** Position of static slot `n`: counted inside its chunk, chunks laid out downwards. */
  function StaticPosition(n: nat): (r: int)
    ensures r < 0
  {
    n % CHUNK - (n / CHUNK + 1) * CHUNK
  }

  /** The static slot at a negative position. */
  function StaticNumber(position: int): nat
    requires position < 0
  {
    var chunk: nat := -(position / CHUNK) - 1;
    chunk * CHUNK + position % CHUNK
  }

  /** Numbers and positions of static slots determine each other. */
  lemma StaticInverse(n: nat, position: int)
    requires position < 0
    ensures StaticNumber(StaticPosition(n)) == n
    ensures StaticPosition(StaticNumber(position)) == position
    ensures StaticNumber(position) / CHUNK == -(position / CHUNK) - 1
    ensures StaticNumber(position) % CHUNK == position % CHUNK
  {
    var c, r := n / CHUNK, n % CHUNK;
    assert n == CHUNK * c + r;
    assert StaticPosition(n) == r - (c + 1) * CHUNK == CHUNK * (-(c + 1)) + r;
    assert StaticPosition(n) / CHUNK == -(c + 1) && StaticPosition(n) % CHUNK == r;
    var d, s := position / CHUNK, position % CHUNK;
    assert position == CHUNK * d + s && d < 0;
    assert StaticNumber(position) == CHUNK * (-d - 1) + s;
    assert StaticNumber(position) / CHUNK == -d - 1 && StaticNumber(position) % CHUNK == s;
  }

  /** A static slot in use lies within the static part of the block, and the slots of the
      chunk in use are the first of the block. */
  lemma StaticWithin(n: nat, staticSize: nat)
    requires staticSize % CHUNK == 0 && n < staticSize
    ensures 0 <= staticSize + StaticPosition(n)
    ensures staticSize - CHUNK <= n ==> staticSize + StaticPosition(n) == n % CHUNK
  {
    var c, r := n / CHUNK, n % CHUNK;
    assert n == CHUNK * c + r && staticSize == CHUNK * (staticSize / CHUNK);
    assert c < staticSize / CHUNK;
  }

  // ----- handles -----

  /** The handle of the slot at `position`. */
  function Handle(position: int): int {
    WORD * position + 1
  }

  /** The slot at `position` is in use. */
  predicate LivePosition(position: int, last: nat, staticLast: nat) {
    if position >= 0 then position < last else StaticNumber(position) < staticLast
  }

  ghost predicate Live(h: int, last: nat, staticLast: nat) {
    h % WORD == 1 && LivePosition((h - 1) / WORD, last, staticLast)
  }

  /** Handles are odd, which tells them from direct pointers, and no two positions share one. */
  lemma HandleInverse(position: int)
    ensures Handle(position) % 2 == 1 && Handle(position) % WORD == 1
    ensures (Handle(position) - 1) / WORD == position
  {}

  /** Slot in the block for a handle. */
  function Index(h: int, staticSize: nat): int {
    (h - 1) / WORD + staticSize
  }

  /** The block has all the slots that the counters speak of. */
  predicate Fits(slots: seq<Value>, staticSize: nat, last: nat, staticLast: nat) {
    staticLast <= staticSize && staticSize % CHUNK == 0 && staticSize + last <= |slots|
  }

  lemma LiveIndex(h: int, slots: seq<Value>, staticSize: nat, last: nat, staticLast: nat)
    requires Fits(slots, staticSize, last, staticLast) && Live(h, last, staticLast)
    ensures 0 <= Index(h, staticSize) < staticSize + last && -8 * staticSize <= h <= 8 * last
  {
    var position := (h - 1) / WORD;
    if position < 0 {
      StaticInverse(0, position);
      StaticWithin(StaticNumber(position), staticSize);
    }
  }

  /** The live handles and the values stored under them. */
  ghost function View(slots: seq<Value>, staticSize: nat, last: nat, staticLast: nat): (m: map<int, Value>)
    requires Fits(slots, staticSize, last, staticLast)
    ensures forall h :: h in m <==> Live(h, last, staticLast)
    ensures forall h <- m :: 0 <= Index(h, staticSize) < |slots| && m[h] == slots[Index(h, staticSize)]
  {
    assert forall h :: Live(h, last, staticLast) ==>
      -8 * staticSize <= h <= 8 * last && 0 <= Index(h, staticSize) < |slots| by {
      forall h | Live(h, last, staticLast)
        ensures -8 * staticSize <= h <= 8 * last && 0 <= Index(h, staticSize) < |slots|
      {
        LiveIndex(h, slots, staticSize, last, staticLast);
      }
    }
    map h: int | -8 * staticSize <= h <= 8 * last && Live(h, last, staticLast) :: slots[Index(h, staticSize)]
  }

  // ----- what each change of the block does to the view -----

  /** Moving to a block that keeps the slots in use. */
  lemma Moved(s0: seq<Value>, s1: seq<Value>, staticSize: nat, last: nat, staticLast: nat)
    requires Fits(s0, staticSize, last, staticLast) && |s0| <= |s1| && s1[..|s0|] == s0
    ensures View(s1, staticSize, last, staticLast) == View(s0, staticSize, last, staticLast)
  {
    hide Live, Index;
    var v0, v1 := View(s0, staticSize, last, staticLast), View(s1, staticSize, last, staticLast);
    forall h <- v0 ensures v1[h] == v0[h] {
      assert s1[..|s0|][Index(h, staticSize)] == s0[Index(h, staticSize)];
    }
    assert v0.Keys == v1.Keys;
  }

  /** Prepending a chunk moves every slot up and leaves every handle alone. */
  lemma Prepended(s0: seq<Value>, s1: seq<Value>, staticSize: nat, last: nat, staticLast: nat)
    requires Fits(s0, staticSize, last, staticLast)
    requires |s1| >= CHUNK + staticSize + last
    requires s1[CHUNK..CHUNK + staticSize + last] == s0[..staticSize + last]
    ensures View(s1, staticSize + CHUNK, last, staticLast) == View(s0, staticSize, last, staticLast)
  {
    hide Live;
    var v0, v1 := View(s0, staticSize, last, staticLast), View(s1, staticSize + CHUNK, last, staticLast);
    forall h <- v0 ensures v1[h] == v0[h] {
      LiveIndex(h, s0, staticSize, last, staticLast);
      var i := Index(h, staticSize);
      assert s1[CHUNK..CHUNK + staticSize + last][i] == s0[..staticSize + last][i];
    }
    assert v0.Keys == v1.Keys;
  }

  /** Handles of one table name different slots. */
  lemma IndexInjective(h: int, k: int, staticSize: nat)
    requires h % WORD == 1 && k % WORD == 1 && h != k
    ensures Index(h, staticSize) != Index(k, staticSize)
  {}

  /** Storing under a live handle changes that entry only. */
  lemma Stored(slots: seq<Value>, staticSize: nat, last: nat, staticLast: nat, h: int, v: Value)
    requires Fits(slots, staticSize, last, staticLast) && Live(h, last, staticLast)
    requires 0 <= Index(h, staticSize) < |slots|
    ensures View(slots[Index(h, staticSize) := v], staticSize, last, staticLast)
         == View(slots, staticSize, last, staticLast)[h := v]
  {
    hide LivePosition;
    var s1 := slots[Index(h, staticSize) := v];
    var v0, v1 := View(slots, staticSize, last, staticLast), View(s1, staticSize, last, staticLast);
    forall k <- v0 ensures v1[k] == v0[h := v][k] {
      if k != h { IndexInjective(k, h, staticSize); }
    }
    assert h in v0 && v0[h := v].Keys == v0.Keys;
    assert v1.Keys == v0.Keys;
  }

  /** One more dynamic slot: one new handle, everything else as it was. */
  lemma Issued(slots: seq<Value>, staticSize: nat, last: nat, staticLast: nat, v: Value)
    requires Fits(slots, staticSize, last + 1, staticLast)
    ensures Handle(last) !in View(slots, staticSize, last, staticLast)
    ensures View(slots[staticSize + last := v], staticSize, last + 1, staticLast)
         == View(slots, staticSize, last, staticLast)[Handle(last) := v]
  {
    HandleInverse(last);
    var s1 := slots[staticSize + last := v];
    var v0, v1 := View(slots, staticSize, last, staticLast), View(s1, staticSize, last + 1, staticLast);
    forall k ensures Live(k, last + 1, staticLast) <==> Live(k, last, staticLast) || k == Handle(last) {}
    assert v1.Keys == v0.Keys + {Handle(last)};
  }

  lemma OneMoreStatic(k: int, last: nat, n: nat)
    ensures Live(k, last, n + 1) <==> Live(k, last, n) || k == Handle(StaticPosition(n))
    ensures Live(Handle(StaticPosition(n)), last, n + 1) && !Live(Handle(StaticPosition(n)), last, n)
  {
    hide StaticNumber, StaticPosition;
    HandleInverse(StaticPosition(n));
    StaticInverse(n, StaticPosition(n));
    if k % WORD == 1 && (k - 1) / WORD < 0 { StaticInverse(n, (k - 1) / WORD); }
  }

  /** One more static slot. */
  lemma IssuedStatic(slots: seq<Value>, staticSize: nat, last: nat, staticLast: nat, v: Value)
    requires Fits(slots, staticSize, last, staticLast + 1) && staticSize - CHUNK <= staticLast
    ensures Handle(StaticPosition(staticLast)) !in View(slots, staticSize, last, staticLast)
    ensures View(slots[staticLast % CHUNK := v], staticSize, last, staticLast + 1)
         == View(slots, staticSize, last, staticLast)[Handle(StaticPosition(staticLast)) := v]
  {
    hide StaticNumber, StaticPosition;
    var p := StaticPosition(staticLast);
    HandleInverse(p);
    StaticInverse(staticLast, p);
    StaticWithin(staticLast, staticSize);
    var s1 := slots[staticLast % CHUNK := v];
    var v0, v1 := View(slots, staticSize, last, staticLast), View(s1, staticSize, last, staticLast + 1);
    forall k ensures Live(k, last, staticLast + 1) <==> Live(k, last, staticLast) || k == Handle(p) {
      OneMoreStatic(k, last, staticLast);
    }
    assert Index(Handle(p), staticSize) == staticLast % CHUNK;
    forall k <- v0 ensures k in v1 && v1[k] == v0[k] {
      IndexInjective(k, Handle(p), staticSize);
    }
    hide Live, Index, Handle, LivePosition;
    assert v1.Keys == v0.Keys + {Handle(p)};
  }

  /** The entries whose handle stays live with `last` dynamic slots. */
  ghost function Below(m: map<int, Value>, last: nat): map<int, Value> {
    map h | h in m && h < Handle(last) :: m[h]
  }

  /** Fewer dynamic slots: the handles from `n` on end. */
  lemma Cut(slots: seq<Value>, staticSize: nat, last: nat, staticLast: nat, n: nat)
    requires Fits(slots, staticSize, last, staticLast) && n <= last
    ensures View(slots, staticSize, n, staticLast) == Below(View(slots, staticSize, last, staticLast), n)
  {
    hide StaticNumber;
    var v0, v1 := View(slots, staticSize, last, staticLast), View(slots, staticSize, n, staticLast);
    assert v1.Keys == Below(v0, n).Keys;
  }

  /** The handles of dynamic slots `from..to` are live and null. */
  ghost predicate AllNull(m: map<int, Value>, from: nat, to: nat) {
    forall i :: from <= i < to ==> Handle(i) in m && m[Handle(i)] == NULL
  }

  /** More dynamic slots, all null. */
  lemma Extended(s0: seq<Value>, s1: seq<Value>, staticSize: nat, last: nat, staticLast: nat, n: nat)
    requires Fits(s0, staticSize, n, staticLast) && last <= n && |s1| == |s0|
    requires forall i :: 0 <= i < staticSize + last ==> s1[i] == s0[i]
    requires forall i :: staticSize + last <= i < staticSize + n ==> s1[i] == NULL
    ensures Below(View(s1, staticSize, n, staticLast), last) == View(s0, staticSize, last, staticLast)
    ensures AllNull(View(s1, staticSize, n, staticLast), last, n)
  {
    hide StaticNumber;
    Cut(s1, staticSize, n, staticLast, last);
    var v0, v1 := View(s0, staticSize, last, staticLast), View(s1, staticSize, last, staticLast);
    forall h <- v0 ensures v1[h] == v0[h] { LiveIndex(h, s0, staticSize, last, staticLast); }
    assert v0.Keys == v1.Keys;
    forall i | last <= i < n ensures Live(Handle(i), n, staticLast) && Index(Handle(i), staticSize) == staticSize + i {
      HandleInverse(i);
    }
  }

  lemma SameKeys(s0: seq<Value>, s1: seq<Value>, staticSize: nat, last: nat, staticLast: nat)
    requires Fits(s0, staticSize, last, staticLast) && Fits(s1, staticSize, last, staticLast)
    ensures View(s0, staticSize, last, staticLast).Keys == View(s1, staticSize, last, staticLast).Keys
  {
    hide Live;
  }

  // ----- the table -----

  class Table {
    var realBase: array?<Value>
    var staticSize: nat
    var staticLast: nat
    var size: nat
    var last: nat
    /** Number of dynamic slots at the end of engine startup. */
    var globalLast: nat

    ghost predicate Valid()
      reads this
    {
      && (if realBase == null then staticSize == 0 && size == 0 else realBase.Length == staticSize + size)
      && staticSize == ChunkAligned(staticLast)
      && globalLast <= last <= size
    }

    ghost function Slots(): seq<Value>
      reads this, realBase
    {
      if realBase == null then [] else realBase[..]
    }

    ghost function Contents(): map<int, Value>
      requires Valid()
      reads this, realBase
    {
      View(Slots(), staticSize, last, staticLast)
    }

    constructor ()
      ensures Valid() && Contents() == map[] && realBase == null && last == globalLast == 0
    {
      realBase, staticSize, staticLast, size, last, globalLast := null, 0, 0, 0, 0, 0;
      new;
      forall h ensures !Live(h, 0, 0) {}
      assert Contents() == map[];
    }

    /** Moves the block: the new one starts with the old slots, the rest is arbitrary. */
    method Reallocate(slots: nat)
      requires |Slots()| <= slots
      modifies this`realBase
      ensures realBase != null && fresh(realBase) && realBase.Length == slots
      ensures realBase[..|old(Slots())|] == old(Slots())
    {
      var block := new Value[slots];
      if realBase != null {
        var from := realBase;
        forall i | 0 <= i < from.Length { block[i] := from[i]; }
        assert block[..from.Length] == from[..];
      }
      realBase := block;
    }

    /** A new dynamic slot: null, whatever its memory or an earlier owner left there. */
    method New() returns (h: int)
      requires Valid()
      modifies this, realBase
      ensures Valid() && fresh({realBase} - {old(realBase)})
      ensures h == Handle(old(last)) && h !in old(Contents())
      ensures Contents() == old(Contents())[h := NULL]
      ensures last == old(last) + 1 && staticLast == old(staticLast) && globalLast == old(globalLast)
    {
      hide View, ChunkAligned;
      ghost var s0 := Slots();
      if last >= size {
        size := ChunkAligned(last + 1);
        Reallocate(staticSize + size);
        Moved(s0, Slots(), staticSize, last, staticLast);
      }
      Issued(Slots(), staticSize, last, staticLast, NULL);
      ghost var s1 := Slots();
      realBase[staticSize + last] := NULL;
      assert Slots() == s1[staticSize + last := NULL];
      h := Handle(last);
      last := last + 1;
    }

    /** A block with one more static chunk in front. The chunk is arbitrary memory. */
    method GrowStatic()
      requires Valid() && staticLast == staticSize
      modifies this`realBase, this`staticSize
      ensures realBase != null && fresh(realBase) && realBase.Length == staticSize + size
      ensures staticSize == old(staticSize) + CHUNK
      ensures Fits(Slots(), staticSize, last, staticLast)
      ensures View(Slots(), staticSize, last, staticLast) == old(Contents())
    {
      hide View;
      ghost var s0 := Slots();
      staticSize := staticSize + CHUNK;
      var block := new Value[staticSize + size];
      var from := realBase;
      if from != null {
        forall i | 0 <= i < last + staticSize - CHUNK { block[CHUNK + i] := from[i]; }
      }
      realBase := block;
      assert block[CHUNK..staticSize + last] == s0[..staticSize - CHUNK + last];
      Prepended(s0, block[..], staticSize - CHUNK, last, staticLast);
    }

    /** A new static slot. A full static part grows by a chunk in front of the block. */
    method NewStatic() returns (h: int)
      requires Valid()
      modifies this, realBase
      ensures Valid() && fresh({realBase} - {old(realBase)})
      ensures h == Handle(StaticPosition(old(staticLast))) && h !in old(Contents())
      ensures Contents() == old(Contents())[h := NULL]
      ensures staticLast == old(staticLast) + 1 && last == old(last) && globalLast == old(globalLast)
    {
      hide View, StaticPosition, StaticNumber;
      ghost var s0 := Slots();
      if staticLast >= staticSize {
        GrowStatic();
      }
      IssuedStatic(Slots(), staticSize, last, staticLast, NULL);
      StaticWithin(staticLast, staticSize);
      HandleInverse(StaticPosition(staticLast));
      ghost var s1 := Slots();
      h := Handle(staticLast % CHUNK - staticSize);
      realBase[staticLast % CHUNK] := NULL;
      assert Slots() == s1[staticLast % CHUNK := NULL];
      staticLast := staticLast + 1;
    }

    /** At least `n` dynamic slots; the added ones are null. */
    method Extend(n: nat)
      requires Valid()
      modifies this, realBase
      ensures Valid() && fresh({realBase} - {old(realBase)})
      ensures last == (if n > old(last) then n else old(last))
      ensures Below(Contents(), old(last)) == old(Contents())
      ensures AllNull(Contents(), old(last), last)
      ensures staticLast == old(staticLast) && globalLast == old(globalLast)
    {
      hide View, ChunkAligned;
      ghost var s0 := Slots();
      if n > last {
        if n >= size {
          size := ChunkAligned(n);
          Reallocate(staticSize + size);
          Moved(s0, Slots(), staticSize, last, staticLast);
        }
        ghost var s1 := Slots();
        forall i | staticSize + last <= i < staticSize + n { realBase[i] := NULL; }
        Extended(s1, Slots(), staticSize, last, staticLast, n);
        last := n;
      } else {
        Cut(s0, staticSize, last, staticLast, last);
      }
    }

    /** End of engine startup. */
    method Remember()
      requires Valid()
      modifies this`globalLast
      ensures Valid() && globalLast == last && Contents() == old(Contents())
    {
      globalLast := last;
    }

    /** Drops the dynamic slots issued since engine startup. */
    method Reset()
      requires Valid()
      modifies this`last
      ensures Valid() && last == globalLast
      ensures Contents() == Below(old(Contents()), globalLast)
    {
      hide View;
      Cut(Slots(), staticSize, last, staticLast, globalLast);
      last := globalLast;
    }

    /** Start of a request: every dynamic slot becomes null, static slots stay. */
    method Activate()
      requires Valid()
      modifies realBase
      ensures Valid() && AllNull(Contents(), 0, last)
      ensures Contents().Keys == old(Contents()).Keys && Below(Contents(), 0) == Below(old(Contents()), 0)
    {
      hide View;
      ghost var s0 := Slots();
      Cut(s0, staticSize, last, staticLast, 0);
      SameKeys(s0, Slots(), staticSize, last, staticLast);
      if last > 0 {
        forall i | staticSize <= i < staticSize + last { realBase[i] := NULL; }
      }
      SameKeys(s0, Slots(), staticSize, last, staticLast);
      Extended(s0, Slots(), staticSize, 0, staticLast, last);
    }

    ghost function Now(): Abstract
      requires Valid()
      reads this, realBase
    {
      Abstract(Contents(), last, staticLast, globalLast)
    }

    /** The table goes through a run of its abstraction, stopping at a store under a handle
        that is not live. */
    method Execute(events: seq<Event>) returns (done: nat, ghost states: seq<Abstract>)
      requires Valid()
      modifies this, realBase
      ensures Valid() && done <= |events| && Trace(states, events[..done])
      ensures states[0] == old(Now()) && states[done] == Now()
      ensures done < |events| ==> events[done].Set? && events[done].h !in states[done].contents
    {
      hide View, Steps;
      done, states := 0, [Now()];
      while done < |events|
        invariant Valid() && fresh({realBase} - {old(realBase)})
        invariant done <= |events| && Trace(states, events[..done])
        invariant states[0] == old(Now()) && states[done] == Now()
      {
        ghost var a := Now();
        var e := events[done];
        var ok := Perform(e);
        if !ok { return; }
        assert events[..done + 1] == events[..done] + [e];
        states := states + [Now()];
        done := done + 1;
      }
    }

    method Perform(e: Event) returns (ok: bool)
      requires Valid()
      modifies this, realBase
      ensures Valid() && fresh({realBase} - {old(realBase)})
      ensures ok ==> Steps(old(Now()), e, Now())
      ensures !ok ==> e.Set? && e.h !in old(Contents()) && Now() == old(Now())
    {
      hide View, Below, AllNull, StaticPosition;
      ok := true;
      match e {
        case New => var h := New();
        case NewStatic => var h := NewStatic();
        case Extend(n) => Extend(n);
        case Remember => Remember();
        case Reset => Reset();
        case Activate => Activate();
        case Set(h, v) =>
          ok := LiveNow(h);
          if ok { Set(h, v); }
      }
    }

    method LiveNow(h: int) returns (r: bool)
      requires Valid()
      ensures r <==> h in Contents()
    {
      r := h % WORD == 1 && LivePosition((h - 1) / WORD, last, staticLast);
    }

    method Get(h: int) returns (v: Value)
      requires Valid() && h in Contents()
      ensures v == Contents()[h]
    {
      v := realBase[Index(h, staticSize)];
    }

    method Set(h: int, v: Value)
      requires Valid() && h in Contents()
      modifies realBase
      ensures Valid() && Contents() == old(Contents())[h := v]
    {
      hide View;
      ghost var s0 := Slots();
      Stored(s0, staticSize, last, staticLast, h, v);
      realBase[Index(h, staticSize)] := v;
      assert Slots() == s0[Index(h, staticSize) := v];
    }
  }

  // ----- whole runs -----

  datatype Event = New | NewStatic | Extend(n: nat) | Remember | Reset | Activate | Set(h: int, v: Value)

  /** What a table is to its users: which handles are live, and what they hold. */
  datatype Abstract = Abstract(contents: map<int, Value>, last: nat, staticLast: nat, globalLast: nat)

  ghost predicate Steps(a: Abstract, e: Event, b: Abstract) {
    && b.globalLast == (if e.Remember? then a.last else a.globalLast)
    && match e
       case New =>
         && Handle(a.last) !in a.contents && b.contents == a.contents[Handle(a.last) := NULL]
         && b.last == a.last + 1 && b.staticLast == a.staticLast
       case NewStatic =>
         var h := Handle(StaticPosition(a.staticLast));
         && h !in a.contents && b.contents == a.contents[h := NULL]
         && b.last == a.last && b.staticLast == a.staticLast + 1
       case Extend(n) =>
         && Below(b.contents, a.last) == a.contents && AllNull(b.contents, a.last, b.last)
         && b.last == (if n > a.last then n else a.last) && b.staticLast == a.staticLast
       case Remember =>
         b.contents == a.contents && b.last == a.last && b.staticLast == a.staticLast
       case Reset =>
         && b.contents == Below(a.contents, a.globalLast)
         && b.last == a.globalLast && b.staticLast == a.staticLast
       case Activate =>
         && b.contents.Keys == a.contents.Keys && AllNull(b.contents, 0, b.last)
         && Below(b.contents, 0) == Below(a.contents, 0)
         && b.last == a.last && b.staticLast == a.staticLast
       case Set(h, v) =>
         && h in a.contents && b.contents == a.contents[h := v]
         && b.last == a.last && b.staticLast == a.staticLast
  }

  ghost predicate Trace(states: seq<Abstract>, events: seq<Event>) {
    && |states| == |events| + 1
    && forall i :: 0 <= i < |events| ==> Steps(states[i], events[i], states[i + 1])
  }

  /** The event says nothing about `h`: it does not store under it, clear it or drop it. */
  ghost predicate LeavesAlone(e: Event, h: int, globalLast: nat) {
    match e
    case Reset => h < Handle(globalLast)
    case Activate => h < Handle(0)
    case Set(k, v) => k != h
    case _ => true
  }

  /** Whatever grows in between, a handle keeps its value until someone touches it. */
  lemma {:induction false} ValueKept(states: seq<Abstract>, events: seq<Event>, h: int)
    requires Trace(states, events) && h in states[0].contents
    requires forall k :: 0 <= k < |events| ==> LeavesAlone(events[k], h, states[k].globalLast)
    ensures h in states[|events|].contents && states[|events|].contents[h] == states[0].contents[h]
    decreases |events|
  {
    if events != [] {
      var n := |events| - 1;
      ValueKept(states[..n + 1], events[..n], h);
      assert Steps(states[n], events[n], states[n + 1]);
      KeptOnce(states[n], events[n], states[n + 1], h);
    }
  }

  lemma KeptOnce(a: Abstract, e: Event, b: Abstract, h: int)
    requires Steps(a, e, b) && h in a.contents && LeavesAlone(e, h, a.globalLast)
    ensures h in b.contents && b.contents[h] == a.contents[h]
  {
    match e
    case Extend(n) => assert h in Below(b.contents, a.last);
    case Activate => assert h in Below(a.contents, 0);
    case _ =>
  }
}
