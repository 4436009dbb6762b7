/** The thread resource table: `TSRM/TSRM.c`.

    Every thread has at most one entry, in the chain of its hash bucket, with one slot per
    resource id. Each operation that holds the mutex is one step here; the thread that makes
    the call is a parameter. Entries are named by a number that is never reused, which the
    code's addresses are only while the entry lives. */
module Tsrm {
  import opened ResourceLog

  /** A thread id as the system gives it; 0 is not a thread. */
  type Thread = nat

  /** A registered resource. Its blocks are native thread memory, or lie at a fixed offset from
      the entry if that is not 0, or are allocated one by one. */
  datatype Resource = Resource(size: nat, fastOffset: int, native: bool, ctor: bool, dtor: bool, done: bool)

  datatype Slot = Null | Heap(entry: nat, id: nat) | Inline(entry: nat, offset: int) | Native(thread: Thread, id: nat)

  /** Size of an entry's own fields, which are four words, and rounding up to 16 bytes. */
  const FIELDS: nat := 4 * 8

  const HEADER: nat := Aligned(FIELDS)

  function Aligned(size: nat): (r: nat)
    ensures size <= r < size + 16 && r % 16 == 0
  {
    (size + 15) / 16 * 16
  }

  datatype Entry = Entry(threadId: Thread, storage: seq<Slot>)

  /** The block that thread `caller` gets for a resource in entry `s`. */
  function Place(r: Resource, s: nat, caller: Thread, id: nat): (p: Slot)
    ensures p != Null
  {
    if r.native then Native(caller, id)
    else if r.fastOffset != 0 then Inline(s, r.fastOffset)
    else Heap(s, id)
  }

  /** Blocks allocated one by one are given back one by one. */
  predicate OwnBlock(r: Resource) {
    r.fastOffset == 0 && !r.native
  }

  // ----- invariants -----

  ghost predicate EachOnce(s: seq<nat>) {
    forall i, j :: 0 <= i < j < |s| ==> s[i] != s[j]
  }

  /** Each entry is in the chain of its own bucket, once, and no two have the same thread. */
  ghost predicate Chained(buckets: seq<seq<nat>>, entries: map<nat, Entry>, next: nat) {
    && |buckets| > 0
    && (forall b :: 0 <= b < |buckets| ==> EachOnce(buckets[b]))
    && (forall b :: 0 <= b < |buckets| ==>
         forall s <- buckets[b] :: s in entries && entries[s].threadId % |buckets| == b)
    && (forall s <- entries :: s < next && entries[s].threadId > 0 &&
         s in buckets[entries[s].threadId % |buckets|])
    && (forall s: nat, u: nat :: s in entries && u in entries && entries[s].threadId == entries[u].threadId ==> s == u)
  }

  /** The entry has `n` slots: null for a freed id, else the entry's own block. */
  ghost predicate Shaped(e: Entry, s: nat, types: seq<Resource>, n: nat) {
    && |e.storage| == n <= |types|
    && forall i :: 0 <= i < n ==>
         e.storage[i] == if types[i].done then Null else Place(types[i], s, e.threadId, i)
  }

  /** All an entry needs to be freed: a slot for each id, null for the freed ones. */
  ghost predicate Matches(e: Entry, types: seq<Resource>) {
    && |e.storage| == |types|
    && forall i :: 0 <= i < |types| ==> (e.storage[i] == Null <==> types[i].done)
  }

  /** Block `p` is what thread `t` is to get for id `i` of type `r` in its entry `s`: the thread's
      own native block, or a block at the type's offset from the entry, or one that was
      allocated for this entry and this id. */
  ghost predicate BlockOf(p: Slot, r: Resource, s: nat, t: Thread, i: nat) {
    match p
    case Null => false
    case Native(u, k) => r.native && u == t && k == i
    case Inline(u, offset) => !r.native && r.fastOffset != 0 && u == s && offset == r.fastOffset
    case Heap(u, k) => !r.native && r.fastOffset == 0 && u == s && k == i
  }

  /** The slots of an entry. Exactly the blocks that were allocated one by one are given back. */
  lemma SlotKinds(e: Entry, s: nat, types: seq<Resource>, i: nat)
    requires Shaped(e, s, types, |types|) && i < |types|
    ensures e.storage[i] == Null <==> types[i].done
    ensures !types[i].done ==> BlockOf(e.storage[i], types[i], s, e.threadId, i)
    ensures !types[i].done ==> (OwnBlock(types[i]) <==> e.storage[i].Heap?)
  {
    assert e.storage[i] == if types[i].done then Null else Place(types[i], s, e.threadId, i);
  }

  /** Blocks `p` of `n` bytes and `q` of `m` bytes share memory. */
  ghost predicate Overlap(p: Slot, n: nat, q: Slot, m: nat) {
    match (p, q)
    case (Heap(_, _), Heap(_, _)) => p == q
    case (Native(_, _), Native(_, _)) => p == q
    case (Inline(s, a), Inline(u, b)) => s == u && a < b + m && b < a + n
    case _ => false
  }

  lemma BlocksApart(p: Slot, q: Slot, a: Resource, b: Resource, s: nat, u: nat, t: Thread, v: Thread, i: nat, j: nat)
    requires BlockOf(p, a, s, t, i) && BlockOf(q, b, u, v, j) && (s != u || i != j) && (t == v ==> s == u)
    requires s == u && p.Inline? && q.Inline? ==> NoOverlap(a, b)
    ensures !Overlap(p, a.size, q, b.size)
  {}

  lemma InlineOffset(p: Slot, r: Resource, s: nat, t: Thread, i: nat)
    requires BlockOf(p, r, s, t, i)
    ensures p.Inline? ==> r.fastOffset != 0
  {}

  ghost predicate Held(entries: map<nat, Entry>, s: nat, i: nat) {
    s in entries && i < |entries[s].storage| && entries[s].storage[i] != Null
  }

  /** The instances alive are those in the slots of the table. What an entry has no slot for
      was never made, and only native blocks are ever passed over. */
  ghost predicate Lives(entries: map<nat, Entry>, types: seq<Resource>, log: seq<Event>, next: nat) {
    && Orderly(log)
    && (forall s: nat, i: nat :: LifeOf(log, s, i) == Alive <==> Held(entries, s, i))
    && (forall s: nat, i: nat :: s >= next || (s in entries && i >= |entries[s].storage|) ==> LifeOf(log, s, i) == Unborn)
    && (forall s: nat, i: nat :: LifeOf(log, s, i) == Lost ==> i < |types| && types[i].native)
  }

  ghost predicate Keyed(tls: map<Thread, nat>, entries: map<nat, Entry>) {
    forall t <- tls :: tls[t] in entries && entries[tls[t]].threadId == t
  }

  /** Two blocks at fixed offsets that share no byte. */
  predicate NoOverlap(a: Resource, b: Resource) {
    a.fastOffset + a.size <= b.fastOffset || b.fastOffset + b.size <= a.fastOffset
  }

  /** A block in the part of the reserved space that is given out. */
  ghost predicate Carved(r: Resource, pos: nat) {
    !r.native && HEADER <= r.fastOffset && r.fastOffset + r.size <= HEADER + pos
  }

  /** The ids of `carved` have their blocks in the reserved space, and no two share a byte. */
  ghost predicate Carving(types: seq<Resource>, carved: set<nat>, pos: nat, size: nat) {
    && pos <= size
    && (forall i <- carved :: i < |types| && Carved(types[i], pos))
    && (forall i: nat, j: nat :: i in carved && j in carved && i != j ==> NoOverlap(types[i], types[j]))
  }

  /** Another id leaves the reserved space as it is. */
  lemma CarvingMore(types: seq<Resource>, carved: set<nat>, pos: nat, size: nat, r: Resource)
    requires Carving(types, carved, pos, size)
    ensures Carving(types + [r], carved, pos, size)
    ensures |types| !in carved
  {}

  /** The next block of the reserved space is apart from all given out before, and from every
      block that ends before the entry begins. */
  lemma CarvingNew(types: seq<Resource>, carved: set<nat>, pos: nat, size: nat, r: Resource)
    requires Carving(types, carved, pos, size)
    requires !r.native && r.fastOffset == HEADER + pos && pos + r.size <= size
    ensures Carving(types + [r], carved + {|types|}, pos + r.size, size)
    ensures forall i <- carved :: i < |types| && NoOverlap(types[i], r)
    ensures forall f: Resource :: f.fastOffset + f.size <= 0 ==> NoOverlap(f, r)
  {}

  lemma CarvingDone(types: seq<Resource>, carved: set<nat>, pos: nat, size: nat, i: nat)
    requires Carving(types, carved, pos, size) && i < |types|
    ensures Carving(types[i := types[i].(done := true)], carved, pos, size)
  {}

  // ----- single slots -----

  ghost function Extended(e: Entry, p: Slot): Entry {
    e.(storage := e.storage + [p])
  }

  lemma NewEntry(entries: map<nat, Entry>, types: seq<Resource>, log: seq<Event>, next: nat, t: Thread)
    requires Lives(entries, types, log, next) && forall s <- entries :: s < next
    ensures Lives(entries[next := Entry(t, [])], types, log, next + 1)
  {
    hide Orderly;
    var e1 := entries[next := Entry(t, [])];
    forall s: nat, i: nat ensures Held(e1, s, i) <==> Held(entries, s, i) {}
  }

  lemma MakeSlot(entries: map<nat, Entry>, types: seq<Resource>, log: seq<Event>, next: nat, s: nat, p: Slot, ctor: bool)
    requires Lives(entries, types, log, next) && s in entries && s < next && p != Null
    ensures Lives(entries[s := Extended(entries[s], p)], types, log + [Make(s, |entries[s].storage|, ctor)], next)
  {
    hide Orderly;
    var e := Make(s, |entries[s].storage|, ctor);
    OrderlyAppended(log, e);
    forall u: nat, i: nat ensures LifeOf(log + [e], u, i) ==
      if u == s && i == |entries[s].storage| then Alive else LifeOf(log, u, i)
    {
      Appended(log, e, u, i);
    }
  }

  lemma NullSlot(entries: map<nat, Entry>, types: seq<Resource>, log: seq<Event>, next: nat, s: nat)
    requires Lives(entries, types, log, next) && s in entries
    ensures Lives(entries[s := Extended(entries[s], Null)], types, log, next)
  {
    hide Orderly;
    var e1 := entries[s := Extended(entries[s], Null)];
    forall u: nat, i: nat ensures Held(e1, u, i) <==> Held(entries, u, i) {}
  }

  lemma EndSlot(entries: map<nat, Entry>, types: seq<Resource>, log: seq<Event>, next: nat, s: nat, i: nat, dtor: bool, freed: bool)
    requires Lives(entries, types, log, next) && Held(entries, s, i)
    ensures var e := entries[s];
      Lives(entries[s := e.(storage := e.storage[i := Null])], types, log + [End(s, i, dtor, freed)], next)
  {
    hide Orderly;
    var e := End(s, i, dtor, freed);
    OrderlyAppended(log, e);
    forall u: nat, j: nat ensures LifeOf(log + [e], u, j) == if u == s && j == i then Ended else LifeOf(log, u, j) {
      Appended(log, e, u, j);
    }
  }

  // ----- freeing a whole entry -----

  /** What the destructor loop does at id `i`. */
  ghost function Visit(s: nat, i: nat, r: Resource, own: bool): seq<Event> {
    if r.done then []
    else if r.native && !own then [Lose(s, i)]
    else [End(s, i, r.dtor, OwnBlock(r))]
  }

  /** Ids `lo..n`, highest first. */
  ghost function EndsFrom(s: nat, types: seq<Resource>, own: bool, lo: nat, n: nat): seq<Event>
    requires n <= |types|
    decreases n - lo
  {
    if lo >= n then [] else EndsFrom(s, types, own, lo + 1, n) + Visit(s, lo, types[lo], own)
  }

  /** Entry `s` is being freed; ids from `n` on are done with. */
  ghost predicate Dying(entries: map<nat, Entry>, types: seq<Resource>, log: seq<Event>, next: nat, s: nat, n: nat) {
    && s in entries && s < next && Orderly(log)
    && (forall u: nat, i: nat :: LifeOf(log, u, i) == Alive <==> Held(entries, u, i) && (u == s ==> i < n))
    && (forall u: nat, i: nat :: u >= next || (u in entries && u != s && i >= |entries[u].storage|) ==> LifeOf(log, u, i) == Unborn)
    && (forall u: nat, i: nat :: LifeOf(log, u, i) == Lost ==> i < |types| && types[i].native)
  }

  lemma DyingStart(entries: map<nat, Entry>, types: seq<Resource>, log: seq<Event>, next: nat, s: nat)
    requires Lives(entries, types, log, next) && s in entries && s < next
    ensures Dying(entries, types, log, next, s, |entries[s].storage|)
  {
    hide Orderly;
  }

  lemma DyingStep(entries: map<nat, Entry>, types: seq<Resource>, log: seq<Event>, next: nat, s: nat, n: nat, own: bool)
    requires Dying(entries, types, log, next, s, n + 1)
    requires Matches(entries[s], types) && n < |types|
    ensures Dying(entries, types, log + Visit(s, n, types[n], own), next, s, n)
  {
    hide Orderly;
    var v := Visit(s, n, types[n], own);
    assert Held(entries, s, n) <==> !types[n].done;
    if v == [] {
      assert log + v == log;
    } else {
      var e := v[0];
      assert LifeOf(log, s, n) == Alive;
      OrderlyAppended(log, e);
      forall u: nat, j: nat ensures LifeOf(log + v, u, j) == if u == s && j == n then After(e) else LifeOf(log, u, j) {
        Appended(log, e, u, j);
      }
    }
  }

  lemma DyingEnd(entries: map<nat, Entry>, types: seq<Resource>, log: seq<Event>, next: nat, s: nat)
    requires Dying(entries, types, log, next, s, 0)
    ensures Lives(entries - {s}, types, log, next)
  {
    hide Orderly;
    var e1 := entries - {s};
    forall u: nat, i: nat ensures Held(e1, u, i) <==> Held(entries, u, i) && u != s {}
  }

  // ----- the order of the table -----

  /** The entries of the first `b` buckets, chain after chain. */
  ghost function Flatten(buckets: seq<seq<nat>>, b: nat): seq<nat>
    requires b <= |buckets|
  {
    if b == 0 then [] else Flatten(buckets, b - 1) + buckets[b - 1]
  }

  /** The entries before position `k` of bucket `b`. */
  ghost function Seen(buckets: seq<seq<nat>>, b: nat, k: nat): seq<nat>
    requires b < |buckets| && k <= |buckets[b]|
  {
    Flatten(buckets, b) + buckets[b][..k]
  }

  lemma {:induction false} FlattenExact(buckets: seq<seq<nat>>, entries: map<nat, Entry>, next: nat, b: nat)
    requires Chained(buckets, entries, next) && b <= |buckets|
    ensures forall s <- Flatten(buckets, b) :: s in entries && entries[s].threadId % |buckets| < b
    ensures forall s <- entries :: entries[s].threadId % |buckets| < b ==> s in Flatten(buckets, b)
  {
    if b > 0 { FlattenExact(buckets, entries, next, b - 1); }
  }

  /** The walk over the table meets every entry, once. */
  lemma SeenSteps(buckets: seq<seq<nat>>, entries: map<nat, Entry>, next: nat, b: nat)
    requires Chained(buckets, entries, next) && b < |buckets|
    ensures Seen(buckets, b, 0) == Flatten(buckets, b)
    ensures Seen(buckets, b, |buckets[b]|) == Flatten(buckets, b + 1)
    ensures forall k :: 0 <= k < |buckets[b]| ==> buckets[b][k] in entries && buckets[b][k] !in Seen(buckets, b, k)
  {
    FlattenExact(buckets, entries, next, b);
    assert buckets[b][..|buckets[b]|] == buckets[b];
    forall k | 0 <= k < |buckets[b]| ensures buckets[b][k] in entries && buckets[b][k] !in Seen(buckets, b, k) {
      assert buckets[b][k] in buckets[b];
    }
  }

  lemma SeenNext(buckets: seq<seq<nat>>, b: nat, k: nat)
    requires b < |buckets| && k < |buckets[b]|
    ensures Seen(buckets, b, k + 1) == Seen(buckets, b, k) + [buckets[b][k]]
  {}

  lemma SeenAll(buckets: seq<seq<nat>>, entries: map<nat, Entry>, next: nat)
    requires Chained(buckets, entries, next)
    ensures forall s <- entries :: s in Flatten(buckets, |buckets|)
    ensures forall s <- Flatten(buckets, |buckets|) :: s in entries
  {
    FlattenExact(buckets, entries, next, |buckets|);
  }

  // ----- chains -----

  lemma ChainedSame(buckets: seq<seq<nat>>, e0: map<nat, Entry>, e1: map<nat, Entry>, next: nat)
    requires Chained(buckets, e0, next) && e0.Keys == e1.Keys
    requires forall s <- e0 :: e1[s].threadId == e0[s].threadId
    ensures Chained(buckets, e1, next)
  {
    hide EachOnce;
  }

  lemma ChainedAppend(buckets: seq<seq<nat>>, entries: map<nat, Entry>, next: nat, e: Entry, b: nat)
    requires Chained(buckets, entries, next) && e.threadId > 0 && b == e.threadId % |buckets|
    requires forall s <- entries :: entries[s].threadId != e.threadId
    ensures Chained(buckets[b := buckets[b] + [next]], entries[next := e], next + 1)
  {
    var b1, e1 := buckets[b := buckets[b] + [next]], entries[next := e];
    forall c | 0 <= c < |b1| ensures EachOnce(b1[c]) {
      if c == b { assert next !in buckets[b]; }
    }
  }

  function Replaced(chain: seq<nat>, k: nat, x: nat): (r: seq<nat>)
    requires k < |chain|
    ensures |r| == |chain| && r[k] == x && forall i :: 0 <= i < |chain| && i != k ==> r[i] == chain[i]
  {
    chain[..k] + [x] + chain[k + 1..]
  }

  lemma ChainedReplace(buckets: seq<seq<nat>>, entries: map<nat, Entry>, next: nat, b: nat, k: nat, e: Entry)
    requires Chained(buckets, entries, next) && b < |buckets| && k < |buckets[b]|
    requires e.threadId == entries[buckets[b][k]].threadId
    ensures Chained(buckets[b := Replaced(buckets[b], k, next)], (entries - {buckets[b][k]})[next := e], next + 1)
  {
    var u, chain := buckets[b][k], buckets[b];
    var b1, e1 := buckets[b := Replaced(chain, k, next)], (entries - {u})[next := e];
    assert u in buckets[b] && next !in chain;
    forall c | 0 <= c < |b1| ensures EachOnce(b1[c]) {}
    forall c | 0 <= c < |b1| ensures forall s <- b1[c] :: s in e1 && e1[s].threadId % |b1| == c {
      forall s <- b1[c] ensures s in e1 && e1[s].threadId % |b1| == c {
        if c == b && s != next { InReplaced(chain, k, next, s); }
      }
    }
    forall s <- e1 ensures s in b1[e1[s].threadId % |b1|] {
      if s == next {
        assert b1[b][k] == next;
      } else if entries[s].threadId % |buckets| == b {
        var i :| 0 <= i < |chain| && chain[i] == s;
        assert b1[b][i] == s;
      }
    }
  }

  lemma InReplaced(chain: seq<nat>, k: nat, x: nat, s: nat)
    requires EachOnce(chain) && k < |chain| && s in Replaced(chain, k, x) && s != x
    ensures s in chain && s != chain[k]
  {
    var i :| 0 <= i < |chain| && Replaced(chain, k, x)[i] == s;
    assert i != k && chain[i] == s;
  }

  lemma ChainedRemove(buckets: seq<seq<nat>>, entries: map<nat, Entry>, next: nat, b: nat, k: nat)
    requires Chained(buckets, entries, next) && b < |buckets| && k < |buckets[b]|
    ensures var chain: seq<nat> := buckets[b];
      Chained(buckets[b := chain[..k] + chain[k + 1..]], entries - {chain[k]}, next)
  {
    var u, chain := buckets[b][k], buckets[b];
    var b1, e1 := buckets[b := chain[..k] + chain[k + 1..]], entries - {u};
    assert u in buckets[b];
    forall c | 0 <= c < |b1| ensures EachOnce(b1[c]) {}
    forall s | s in b1[b] ensures s in chain && s != u {
      var i :| 0 <= i < |b1[b]| && b1[b][i] == s;
      assert s == if i < k then chain[i] else chain[i + 1];
    }
    forall s <- e1 ensures s in b1[e1[s].threadId % |b1|] {
      if entries[s].threadId % |buckets| == b {
        var i :| 0 <= i < |chain| && chain[i] == s;
        assert s == if i < k then b1[b][i] else b1[b][i - 1];
      }
    }
  }

  // ----- what the operations log -----

  /** Making ids `lo..hi` of an entry, lowest first; freed ids are not made. */
  ghost function MakesFrom(s: nat, types: seq<Resource>, lo: nat, hi: nat): seq<Event>
    requires hi <= |types|
  {
    if hi <= lo then [] else
    MakesFrom(s, types, lo, hi - 1) + if types[hi - 1].done then [] else [Make(s, hi - 1, types[hi - 1].ctor)]
  }

  ghost function MakesFor(list: seq<nat>, types: seq<Resource>, lo: nat): seq<Event> {
    if list == [] then [] else
    MakesFor(list[..|list| - 1], types, lo) + MakesFrom(list[|list| - 1], types, lo, |types|)
  }

  /** Ending one id in each entry that has it. */
  ghost function EndsFor(list: seq<nat>, entries: map<nat, Entry>, r: Resource, id: nat): seq<Event> {
    if list == [] then [] else
    var s := list[|list| - 1];
    EndsFor(list[..|list| - 1], entries, r, id) +
      if Held(entries, s, id) then [End(s, id, r.dtor, OwnBlock(r))] else []
  }

  /** Freeing whole entries, one after the other. */
  ghost function EndsAll(list: seq<nat>, entries: map<nat, Entry>, types: seq<Resource>, caller: Thread): seq<Event>
    requires forall s <- list :: s in entries
  {
    if list == [] then [] else
    var s := list[|list| - 1];
    assert s in list;
    EndsAll(list[..|list| - 1], entries, types, caller) +
      EndsFrom(s, types, entries[s].threadId == caller, 0, |types|)
  }

  lemma MakesForStep(list: seq<nat>, s: nat, types: seq<Resource>, lo: nat)
    ensures MakesFor(list + [s], types, lo) == MakesFor(list, types, lo) + MakesFrom(s, types, lo, |types|)
  {
    assert (list + [s])[..|list|] == list;
  }

  lemma EndsForStep(list: seq<nat>, s: nat, entries: map<nat, Entry>, r: Resource, id: nat)
    ensures EndsFor(list + [s], entries, r, id) == EndsFor(list, entries, r, id) +
      if Held(entries, s, id) then [End(s, id, r.dtor, OwnBlock(r))] else []
  {
    assert (list + [s])[..|list|] == list;
  }

  lemma EndsAllStep(list: seq<nat>, s: nat, entries: map<nat, Entry>, types: seq<Resource>, caller: Thread)
    requires s in entries && forall u <- list :: u in entries
    ensures EndsAll(list + [s], entries, types, caller) == EndsAll(list, entries, types, caller) +
      EndsFrom(s, types, entries[s].threadId == caller, 0, |types|)
  {
    assert (list + [s])[..|list|] == list;
  }

  // ----- steps that keep the shape -----

  lemma ShapedMatches(e: Entry, s: nat, types: seq<Resource>)
    requires Shaped(e, s, types, |types|)
    ensures Matches(e, types)
  {}

  lemma ShapedNone(t: Thread, s: nat, types: seq<Resource>)
    ensures Shaped(Entry(t, []), s, types, 0)
  {}

  lemma ShapedMore(e: Entry, s: nat, types: seq<Resource>)
    requires |e.storage| < |types| && Shaped(e, s, types, |e.storage|)
    ensures var i := |e.storage|;
      Shaped(Extended(e, if types[i].done then Null else Place(types[i], s, e.threadId, i)), s, types, i + 1)
  {
    hide Place;
  }

  /** The walk over the table, with the entries of `seen` brought up to date. */
  ghost predicate Updating(e0: map<nat, Entry>, e1: map<nat, Entry>, types: seq<Resource>, seen: seq<nat>, n: nat) {
    && e1.Keys == e0.Keys
    && forall s <- e0 ::
      e1[s].threadId == e0[s].threadId && Shaped(e1[s], s, types, if s in seen then |types| else n)
  }

  lemma UpdatingStep(e0: map<nat, Entry>, e1: map<nat, Entry>, e2: map<nat, Entry>, types: seq<Resource>, seen: seq<nat>, n: nat, s: nat)
    requires Updating(e0, e1, types, seen, n) && s in e1 && s in e2 && e2 == e1[s := e2[s]]
    requires e2[s].threadId == e1[s].threadId && Shaped(e2[s], s, types, |types|)
    ensures Updating(e0, e2, types, seen + [s], n)
  {
    hide Shaped;
  }

  lemma UpdatingAt(e0: map<nat, Entry>, e1: map<nat, Entry>, types: seq<Resource>, seen: seq<nat>, n: nat, s: nat)
    requires Updating(e0, e1, types, seen, n) && s in e0 && s !in seen
    ensures s in e1 && Shaped(e1[s], s, types, n) && e1[s].threadId == e0[s].threadId && |e1[s].storage| == n
  {}

  lemma UpdatingStart(e0: map<nat, Entry>, types: seq<Resource>, n: nat)
    requires forall s <- e0 :: Shaped(e0[s], s, types, n)
    ensures Updating(e0, e0, types, [], n)
  {
    hide Shaped;
  }

  lemma UpdatingEnd(e0: map<nat, Entry>, e1: map<nat, Entry>, types: seq<Resource>, seen: seq<nat>, n: nat)
    requires Updating(e0, e1, types, seen, n) && forall s <- e0 :: s in seen
    ensures forall s <- e1 :: Shaped(e1[s], s, types, |types|)
    ensures e1.Keys == e0.Keys && forall s <- e0 :: e1[s].threadId == e0[s].threadId
  {
    hide Shaped;
  }

  lemma BelowNext(buckets: seq<seq<nat>>, entries: map<nat, Entry>, next: nat)
    requires Chained(buckets, entries, next)
    ensures |buckets| > 0 && forall s <- entries :: s < next && entries[s].threadId > 0
    ensures Flatten(buckets, 0) == []
  {}

  /** A registration changes no earlier slot. */
  lemma Registered(entries: map<nat, Entry>, types: seq<Resource>, log: seq<Event>, next: nat, r: Resource)
    requires Lives(entries, types, log, next) && forall s <- entries :: Shaped(entries[s], s, types, |types|)
    ensures Lives(entries, types + [r], log, next)
    ensures forall s <- entries :: Shaped(entries[s], s, types + [r], |types|)
  {
    hide Orderly, Place;
  }

  // ----- the table -----

  class Table {
    /** The chains, by hash value. */
    const buckets: array<seq<nat>>
    var entries: map<nat, Entry>
    var types: seq<Resource>
    /** Entries allocated so far; also the name of the next one. */
    var next: nat
    /** The thread-local pointer of each running thread that has one. */
    var tls: map<Thread, nat>
    var log: seq<Event>
    /** Space for fast resources before and behind each entry, how much of the latter is given
        out, and to which ids since it was reserved. */
    var reservedFront: nat
    var reservedSize: nat
    var reservedPos: nat
    ghost var carved: set<nat>
    /** Set by the shutdown, after which no call is made. */
    var down: bool

    ghost predicate Valid()
      reads this`entries, this`types, this`next, this`tls, this`log, buckets
      reads this`reservedSize, this`reservedPos, this`carved
    {
      && Carving(types, carved, reservedPos, reservedSize)
      && Chained(buckets[..], entries, next)
      && (forall s <- entries :: Shaped(entries[s], s, types, |types|))
      && Lives(entries, types, log, next)
      && Keyed(tls, entries)
    }

    constructor (expectedThreads: nat)
      requires expectedThreads > 0
      ensures Valid() && entries == map[] && types == [] && tls == map[] && log == [] && next == 0 && !down
      ensures reservedFront == reservedSize == reservedPos == 0 && carved == {}
      ensures fresh(buckets) && buckets.Length == expectedThreads
      ensures forall b :: 0 <= b < buckets.Length ==> buckets[b] == []
    {
      buckets := new seq<nat>[expectedThreads](_ => []);
      entries, types, next, tls, log := map[], [], 0, map[], [];
      reservedFront, reservedSize, reservedPos, carved, down := 0, 0, 0, {}, false;
    }

    /** Sets the size of the space behind each entry and starts giving it out anew; ids that
        got a part of it before lose their claim to it. */
    method Reserve(size: nat)
      requires Valid()
      modifies this`reservedSize, this`reservedPos, this`carved
      ensures Valid() && reservedPos == 0 && reservedSize == Aligned(size) && carved == {}
    {
      hide Chained, Shaped, Lives, Keyed;
      reservedPos, carved := 0, {};
      reservedSize := Aligned(size);
    }

    /** Moves a part of the reserved space that is not given out in front of each entry. */
    method ReserveFront(size: nat)
      requires Valid() && Aligned(size) + reservedPos <= reservedSize
      modifies this`reservedSize, this`reservedFront
      ensures Valid() && reservedFront == Aligned(size)
      ensures reservedFront + reservedSize == old(reservedSize)
    {
      hide Chained, Shaped, Lives, Keyed;
      reservedFront := Aligned(size);
      reservedSize := reservedSize - reservedFront;
    }

    /** One entry catches up with the ids registered since it was last enlarged. */
    method UpdateEntry(s: nat, caller: Thread)
      requires s in entries && s < next && |entries[s].storage| <= |types|
      requires Shaped(entries[s], s, types, |entries[s].storage|) && Lives(entries, types, log, next)
      requires forall j :: |entries[s].storage| <= j < |types| ==>
        !types[j].done && (types[j].native ==> caller == entries[s].threadId)
      modifies this`entries, this`log
      ensures s in entries && entries == old(entries)[s := entries[s]]
      ensures entries[s].threadId == old(entries)[s].threadId
      ensures Shaped(entries[s], s, types, |types|) && Lives(entries, types, log, next)
      ensures log == old(log) + MakesFrom(s, types, |old(entries)[s].storage|, |types|)
    {
      hide Shaped, Lives;
      ghost var n := |entries[s].storage|;
      var j := |entries[s].storage|;
      while j < |types|
        invariant n <= j <= |types|
        invariant s in entries && entries == old(entries)[s := entries[s]]
        invariant entries[s].threadId == old(entries)[s].threadId
        invariant |entries[s].storage| == j && Shaped(entries[s], s, types, j) && Lives(entries, types, log, next)
        invariant log == old(log) + MakesFrom(s, types, n, j)
      {
        var e, p := entries[s], Place(types[j], s, caller, j);
        ShapedMore(e, s, types);
        MakeSlot(entries, types, log, next, s, p, types[j].ctor);
        entries := entries[s := e.(storage := e.storage + [p])];
        log := log + [Make(s, j, types[j].ctor)];
        j := j + 1;
      }
    }

    /** Every entry catches up, in table order. The source asserts that a native resource is
        registered only while no other thread has an entry; otherwise the foreign entries
        would be given the caller's block. */
    method UpdateActiveThreads(caller: Thread, ghost n: nat)
      requires Chained(buckets[..], entries, next) && Lives(entries, types, log, next) && n <= |types|
      requires forall s <- entries :: Shaped(entries[s], s, types, n)
      requires forall j :: n <= j < |types| ==>
        !types[j].done && (types[j].native ==> forall s <- entries :: entries[s].threadId == caller)
      modifies this`entries, this`log
      ensures entries.Keys == old(entries).Keys
      ensures forall s <- entries :: entries[s].threadId == old(entries)[s].threadId
      ensures forall s <- entries :: Shaped(entries[s], s, types, |types|)
      ensures Chained(buckets[..], entries, next) && Lives(entries, types, log, next)
      ensures log == old(log) + MakesFor(Flatten(buckets[..], buckets.Length), types, n)
    {
      hide *;
      ghost var bk, e0 := buckets[..], entries;
      BelowNext(bk, entries, next);
      UpdatingStart(e0, types, n);
      MakesForNone(types, n);
      for b := 0 to buckets.Length
        invariant Updating(e0, entries, types, Flatten(bk, b), n) && Lives(entries, types, log, next)
        invariant log == old(log) + MakesFor(Flatten(bk, b), types, n)
      {
        SeenSteps(bk, e0, next, b);
        var chain: seq<nat> := buckets[b];
        for k := 0 to |chain|
          invariant Updating(e0, entries, types, Seen(bk, b, k), n) && Lives(entries, types, log, next)
          invariant log == old(log) + MakesFor(Seen(bk, b, k), types, n)
        {
          var s := chain[k];
          ghost var e1 := entries;
          UpdatingAt(e0, e1, types, Seen(bk, b, k), n, s);
          UpdateEntry(s, caller);
          UpdatingStep(e0, e1, entries, types, Seen(bk, b, k), n, s);
          SeenNext(bk, b, k);
          MakesForStep(Seen(bk, b, k), s, types, n);
        }
      }
      SeenAll(bk, e0, next);
      UpdatingEnd(e0, entries, types, Flatten(bk, buckets.Length), n);
      ChainedSame(bk, e0, entries, next);
    }

    /** The part common to all three kinds of registration. Ids are given out from 1. */
    method Register(r: Resource, caller: Thread) returns (id: nat)
      requires Valid() && !r.done
      requires r.native ==> forall s <- entries :: entries[s].threadId == caller
      modifies this`entries, this`types, this`log
      ensures Valid() && id == |types| && types == old(types) + [r]
      ensures entries.Keys == old(entries).Keys
      ensures forall s <- entries :: entries[s].threadId == old(entries)[s].threadId
      ensures log == old(log) + MakesFor(Flatten(buckets[..], buckets.Length), types, |old(types)|)
    {
      hide Chained, Shaped, Lives, Flatten, MakesFor, Carving;
      ghost var n := |types|;
      CarvingMore(types, carved, reservedPos, reservedSize, r);
      Registered(entries, types, log, next, r);
      types := types + [r];
      id := |types|;
      UpdateActiveThreads(caller, n);
    }

    /** A resource whose blocks are allocated one by one. */
    method AllocateId(caller: Thread, size: nat, ctor: bool, dtor: bool) returns (id: nat)
      requires Valid()
      modifies this`entries, this`types, this`log
      ensures Valid() && id == |types| && types == old(types) + [Resource(size, 0, false, ctor, dtor, false)]
      ensures entries.Keys == old(entries).Keys
      ensures forall s <- entries :: entries[s].threadId == old(entries)[s].threadId
      ensures log == old(log) + MakesFor(Flatten(buckets[..], buckets.Length), types, |old(types)|)
    {
      hide Valid;
      id := Register(Resource(size, 0, false, ctor, dtor, false), caller);
    }

    /** A resource at a fixed offset from each entry. */
    method AllocateFastIdAt(caller: Thread, offset: int, size: nat, ctor: bool, dtor: bool) returns (id: nat)
      requires Valid()
      modifies this`entries, this`types, this`log
      ensures Valid() && id == |types| && types == old(types) + [Resource(Aligned(size), offset, false, ctor, dtor, false)]
      ensures entries.Keys == old(entries).Keys
      ensures forall s <- entries :: entries[s].threadId == old(entries)[s].threadId
      ensures log == old(log) + MakesFor(Flatten(buckets[..], buckets.Length), types, |old(types)|)
    {
      hide Valid;
      id := Register(Resource(Aligned(size), offset, false, ctor, dtor, false), caller);
    }

    /** A resource in native thread memory. */
    method AllocateTlsId(caller: Thread, size: nat, ctor: bool, dtor: bool) returns (id: nat)
      requires Valid() && forall s <- entries :: entries[s].threadId == caller
      modifies this`entries, this`types, this`log
      ensures Valid() && id == |types| && types == old(types) + [Resource(size, 0, true, ctor, dtor, false)]
      ensures entries.Keys == old(entries).Keys
      ensures forall s <- entries :: entries[s].threadId == old(entries)[s].threadId
      ensures log == old(log) + MakesFor(Flatten(buckets[..], buckets.Length), types, |old(types)|)
    {
      hide Valid;
      id := Register(Resource(size, 0, true, ctor, dtor, false), caller);
    }

    /** A resource in the space reserved behind each entry: refused when it does not fit. */
    method AllocateFastId(caller: Thread, size: nat, ctor: bool, dtor: bool) returns (id: nat, offset: nat)
      requires Valid()
      modifies this`entries, this`types, this`log, this`reservedPos, this`carved
      ensures Valid()
      ensures id == 0 <==> reservedSize - old(reservedPos) < Aligned(size)
      ensures id == 0 ==> offset == 0 && entries == old(entries) && types == old(types) && log == old(log)
      ensures id == 0 ==> reservedPos == old(reservedPos) && carved == old(carved)
      ensures id > 0 ==> offset == HEADER + old(reservedPos) && reservedPos == old(reservedPos) + Aligned(size)
      ensures id > 0 ==> id == |types| && types == old(types) + [Resource(Aligned(size), offset, false, ctor, dtor, false)]
      ensures id > 0 ==> carved == old(carved) + {|old(types)|}
      ensures id > 0 ==> forall i <- old(carved) :: i < |old(types)| && NoOverlap(types[i], types[id - 1])
      ensures id > 0 ==> forall f: Resource :: f.fastOffset + f.size <= 0 ==> NoOverlap(f, types[id - 1])
      ensures id > 0 ==> entries.Keys == old(entries).Keys
      ensures id > 0 ==> forall s <- entries :: entries[s].threadId == old(entries)[s].threadId
      ensures id > 0 ==> log == old(log) + MakesFor(Flatten(buckets[..], buckets.Length), types, |old(types)|)
    {
      hide Chained, Shaped, Lives, Keyed, Carving, Flatten, MakesFor;
      assert Carving(types, carved, reservedPos, reservedSize);
      PosWithin();
      if reservedSize - reservedPos < Aligned(size) { return 0, 0; }
      offset := HEADER + reservedPos;
      ghost var n, r := |types|, Resource(Aligned(size), offset, false, ctor, dtor, false);
      CarvingNew(types, carved, reservedPos, reservedSize, r);
      id := AllocateFastIdAt(caller, offset, size, ctor, dtor);
      reservedPos := reservedPos + Aligned(size);
      carved := carved + {n};
    }

    lemma PosWithin()
      requires Carving(types, carved, reservedPos, reservedSize)
      ensures reservedPos <= reservedSize
      ensures forall i <- carved :: i < |types|
    {}

    /** A new entry for the calling thread, with every id that is not freed constructed in
        ascending order. The caller links it into its chain. */
    method AllocateNewResource(t: Thread) returns (s: nat)
      requires Lives(entries, types, log, next) && forall u <- entries :: u < next
      modifies this`entries, this`next, this`tls, this`log
      ensures s == old(next) && next == s + 1 && tls == old(tls)[t := s]
      ensures s in entries && entries == old(entries)[s := entries[s]] && entries[s].threadId == t
      ensures Shaped(entries[s], s, types, |types|) && Lives(entries, types, log, next)
      ensures log == old(log) + MakesFrom(s, types, 0, |types|)
    {
      hide Lives, Shaped;
      s := next;
      NewEntry(entries, types, log, next, t);
      entries, next := entries[s := Entry(t, [])], next + 1;
      tls := tls[t := s];
      ShapedNone(t, s, types);
      for i := 0 to |types|
        invariant s == old(next) && next == s + 1 && tls == old(tls)[t := s]
        invariant s in entries && entries == old(entries)[s := entries[s]] && entries[s].threadId == t
        invariant |entries[s].storage| == i && Shaped(entries[s], s, types, i) && Lives(entries, types, log, next)
        invariant log == old(log) + MakesFrom(s, types, 0, i)
      {
        var e := entries[s];
        ShapedMore(e, s, types);
        if types[i].done {
          NullSlot(entries, types, log, next, s);
          entries := entries[s := e.(storage := e.storage + [Null])];
        } else {
          var p := Place(types[i], s, t, i);
          MakeSlot(entries, types, log, next, s, p, types[i].ctor);
          entries := entries[s := e.(storage := e.storage + [p])];
          log := log + [Make(s, i, types[i].ctor)];
        }
      }
    }

    /** Ends everything an entry holds, highest id first. */
    method FreeResources(s: nat, caller: Thread)
      requires s in entries && s < next && Matches(entries[s], types) && Lives(entries, types, log, next)
      modifies this`log
      ensures log == old(log) + EndsFrom(s, types, entries[s].threadId == caller, 0, |types|)
      ensures Lives(entries - {s}, types, log, next)
    {
      hide Lives, Dying;
      var own := entries[s].threadId == caller;
      DyingStart(entries, types, log, next, s);
      var i := |types|;
      while i > 0
        invariant 0 <= i <= |types|
        invariant Dying(entries, types, log, next, s, i)
        invariant log == old(log) + EndsFrom(s, types, own, i, |types|)
      {
        i := i - 1;
        DyingStep(entries, types, log, next, s, i, own);
        assert log + Visit(s, i, types[i], own) == old(log) + EndsFrom(s, types, own, i, |types|);
        if !types[i].done {
          if types[i].native && !own {
            log := log + [Lose(s, i)];
          } else {
            log := log + [End(s, i, types[i].dtor, OwnBlock(types[i]))];
          }
        } else {
          assert log + [] == log;
        }
      }
      DyingEnd(entries, types, log, next, s);
    }

    /** Position of the thread's entry in its chain; the end of the chain if it has none. */
    method Find(t: Thread) returns (k: nat)
      requires Chained(buckets[..], entries, next)
      ensures var chain: seq<nat> := buckets[t % buckets.Length];
        && k <= |chain|
        && (k < |chain| ==> chain[k] in entries && chain[k] < next && entries[chain[k]].threadId == t)
        && (k == |chain| ==> NoEntry(entries, t))
    {
      var chain: seq<nat> := buckets[t % buckets.Length];
      assert forall s <- chain :: s in entries;
      hide EachOnce;
      k := 0;
      while k < |chain| && entries[chain[k]].threadId != t
        invariant k <= |chain|
        invariant forall j :: 0 <= j < k ==> entries[chain[j]].threadId != t
      {
        k := k + 1;
      }
      if k == |chain| {
        forall s <- entries ensures entries[s].threadId != t {
          if s in chain {
            var j :| 0 <= j < |chain| && chain[j] == s;
          }
        }
      } else {
        assert chain[k] in chain;
      }
    }

    /** A first entry for the calling thread, at the end of its chain. */
    method Insert(t: Thread)
      requires Valid() && t > 0 && NoEntry(entries, t)
      modifies this`entries, this`next, this`tls, this`log, buckets
      ensures Valid() && next == old(next) + 1 && tls == old(tls)[t := old(next)]
      ensures IsNew(old(entries), entries, old(next), t)
      ensures log == old(log) + MakesFrom(old(next), types, 0, |types|)
    {
      hide Chained, Lives, Shaped, Keyed, Carving, MakesFrom, NoEntry, IsNew;
      ghost var bk, e0, n0, tls0 := buckets[..], entries, next, tls;
      BelowNext(bk, e0, next);
      NoEntryMeans(e0, t);
      var s := AllocateNewResource(t);
      var b := t % buckets.Length;
      ChainedAppend(bk, e0, n0, entries[s], b);
      buckets[b] := buckets[b] + [s];
      assert buckets[..] == bk[b := bk[b] + [s]];
      KeyedInsert(tls0, e0, t, s, entries[s]);
      IsNewMeans(e0, entries, n0, t);
    }

    /** The thread id was used before by a thread that left its entry behind. The old entry is
        freed as a foreign one, and a new one takes its place in the chain. */
    method Recycle(t: Thread, k: nat)
      requires Valid() && t > 0 && t !in tls && k < |buckets[t % buckets.Length]|
      requires var u: nat := buckets[t % buckets.Length][k]; u in entries && entries[u].threadId == t
      modifies this`entries, this`next, this`tls, this`log, buckets
      ensures Valid() && next == old(next) + 1 && tls == old(tls)[t := old(next)]
      ensures k < |buckets[t % buckets.Length]| && buckets[t % buckets.Length][k] == old(next)
      ensures var u: nat := old(buckets[t % buckets.Length][k]);
        && IsNew(old(entries) - {u}, entries, old(next), t)
        && log == old(log) + EndsFrom(u, types, false, 0, |types|) + MakesFrom(old(next), types, 0, |types|)
    {
      hide Chained, Lives, Shaped, Keyed, Carving, MakesFrom, EndsFrom, Matches, IsNew;
      ghost var bk, e0, n0, tls0 := buckets[..], entries, next, tls;
      BelowNext(bk, e0, next);
      var b := t % buckets.Length;
      var u: nat := buckets[b][k];
      tls := tls[t := u];
      ForgetThread(e0, types, log, next, u);
      entries := entries[u := entries[u].(threadId := 0)];
      FreeResources(u, t);
      assert entries - {u} == e0 - {u};
      entries := entries - {u};
      var s := AllocateNewResource(t);
      ChainedReplace(bk, e0, n0, b, k, entries[s]);
      buckets[b] := Replaced(buckets[b], k, s);
      assert buckets[..] == bk[b := Replaced(bk[b], k, s)];
      assert tls == tls0[t := s];
      KeyedReplace(tls0, e0, u, t, s, entries[s]);
      IsNewMeans(e0 - {u}, entries, n0, t);
    }

    lemma Facts(t: Thread)
      requires Valid()
      ensures buckets.Length > 0 && Chained(buckets[..], entries, next)
      ensures t in tls ==> tls[t] in entries && entries[tls[t]].threadId == t
      ensures forall s <- entries :: |entries[s].storage| == |types|
    {
      hide Lives, Carving;
    }

    /** The entry of a thread is the one its thread-local pointer gives, and the only one. */
    lemma OneEntry(t: Thread, s: nat)
      requires Valid() && s in entries && entries[s].threadId == t
      ensures t in tls ==> tls[t] == s
      ensures !NoEntry(entries, t) && forall u <- entries :: entries[u].threadId == t ==> u == s
    {
      hide Lives, Shaped, Carving, EachOnce;
    }

    /** Fetches resource `id`, or the whole entry for 0, for the calling thread. `named` says
        whether the thread id was passed explicitly, which skips the fast path. A call that has
        to make the entry calls itself again, once. */
    method ResourceEx(t: Thread, id: nat, named: bool) returns (r: Answer)
      requires Valid() && t > 0 && id <= |types|
      modifies this`entries, this`next, this`tls, this`log, buckets
      ensures Valid() && t in tls && r == Fetched(entries[tls[t]], tls[t], id)
      ensures t in old(tls) ==> entries == old(entries) && log == old(log) && tls == old(tls) && next == old(next)
      ensures t in old(tls) ==> buckets[..] == old(buckets[..])
      ensures old(log) <= log
      ensures t !in old(tls) ==> next == old(next) + 1 && tls == old(tls)[t := old(next)]
      ensures t !in old(tls) && NoEntry(old(entries), t) ==>
        && IsNew(old(entries), entries, old(next), t)
        && log == old(log) + MakesFrom(old(next), types, 0, |types|)
      ensures t !in old(tls) ==> forall u <- old(entries) :: old(entries)[u].threadId == t ==>
        && IsNew(old(entries) - {u}, entries, old(next), t)
        && log == old(log) + EndsFrom(u, types, false, 0, |types|) + MakesFrom(old(next), types, 0, |types|)
      ensures !StrayEnd(old(tls), old(entries), types, old(log), log, t)
      ensures id == 0 ==> r == Whole(tls[t])
      ensures id > 0 ==> r.One? && (types[id - 1].done <==> r.slot == Null)
      ensures id > 0 && !types[id - 1].done ==> BlockOf(r.slot, types[id - 1], tls[t], t, id - 1)
      decreases NoEntry(entries, t)
    {
      hide *;
      Facts(t);
      ghost var e0, tls0, log0, n0 := entries, tls, log, next;
      NoStray(tls0, e0, types, log0, log0, t);
      if !named && t in tls {
        AnswerIs(t, id);
        return Fetched(entries[tls[t]], tls[t], id);
      }
      var k := Find(t);
      var chain: seq<nat> := buckets[t % buckets.Length];
      if k == |chain| {
        Insert(t);
        HasEntry(e0, entries, old(next), t);
        r := ResourceEx(t, id, true);
        NoStray(tls0, e0, types, log0, log, t);
        return;
      }
      var s := chain[k];
      OneEntry(t, s);
      if t !in tls {
        FreeFacts(s);
        ghost var u := s;
        Recycle(t, k);
        StrayFetched(tls0, e0, types, log0, n0, t, u);
        s := buckets[t % buckets.Length][k];
        Facts(t);
      }
      AnswerIs(t, id);
      r := Fetched(entries[s], s, id);
    }

    /** The answer to a fetch is the thread's own block. */
    lemma AnswerIs(t: Thread, id: nat)
      requires Valid() && t in tls && id <= |types|
      ensures tls[t] in entries && id <= |entries[tls[t]].storage|
      ensures var r := Fetched(entries[tls[t]], tls[t], id);
        && (id == 0 ==> r == Whole(tls[t]))
        && (id > 0 ==> r.One? && (types[id - 1].done <==> r.slot == Null))
        && (id > 0 && !types[id - 1].done ==> BlockOf(r.slot, types[id - 1], tls[t], t, id - 1))
    {
      hide Lives, Carving, EachOnce, BlockOf, Shaped;
      Facts(t);
      var s := tls[t];
      assert Shaped(entries[s], s, types, |types|);
      if id > 0 { SlotKinds(entries[s], s, types, id - 1); }
    }

    /** No two blocks of the table share memory: neither blocks of two threads, nor blocks of two
        ids of one thread, unless both ids were given overlapping fixed offsets, which is never
        the case for ids that got theirs from the reserved space. */
    lemma SlotsApart(s: nat, i: nat, u: nat, j: nat)
      requires Valid() && Held(entries, s, i) && Held(entries, u, j) && (s != u || i != j)
      requires i < |types| && j < |types|
      requires s == u && types[i].fastOffset != 0 && types[j].fastOffset != 0 ==>
        (i in carved && j in carved) || NoOverlap(types[i], types[j])
      ensures !Overlap(entries[s].storage[i], types[i].size, entries[u].storage[j], types[j].size)
    {
      hide Lives, EachOnce, BlockOf, Shaped, Overlap, Carved;
      assert Shaped(entries[s], s, types, |types|) && Shaped(entries[u], u, types, |types|);
      SlotKinds(entries[s], s, types, i);
      SlotKinds(entries[u], u, types, j);
      InlineOffset(entries[s].storage[i], types[i], s, entries[s].threadId, i);
      InlineOffset(entries[u].storage[j], types[j], u, entries[u].threadId, j);
      BlocksApart(entries[s].storage[i], entries[u].storage[j], types[i], types[j], s, u, entries[s].threadId, entries[u].threadId, i, j);
    }

    /** Frees everything the calling thread has, and unlinks its entry. */
    method FreeThread(t: Thread)
      requires Valid() && t > 0
      modifies this`entries, this`tls, this`log, buckets
      ensures Valid() && NoEntry(entries, t) && old(log) <= log
      ensures NoEntry(old(entries), t) ==> entries == old(entries) && log == old(log) && tls == old(tls)
      ensures forall u <- old(entries) :: old(entries)[u].threadId == t ==>
        && entries == old(entries) - {u} && tls == old(tls) - {t}
        && log == old(log) + EndsFrom(u, types, true, 0, |types|)
      ensures NoEntry(old(entries), t) ==> buckets[..] == old(buckets[..])
      ensures StrayEnd(old(tls), old(entries), types, old(log), log, t) <==>
        t !in old(tls) && !NoEntry(old(entries), t) && HasNative(types)
    {
      hide *;
      Facts(t);
      ghost var bk, e0, tls0, log0 := buckets[..], entries, tls, log;
      var k := Find(t);
      var chain: seq<nat> := buckets[t % buckets.Length];
      if k < |chain| {
        var u := chain[k];
        OneEntry(t, u);
        FreeFacts(u);
        FreeResources(u, t);
        ChainedRemove(bk, e0, next, t % buckets.Length, k);
        buckets[t % buckets.Length] := chain[..k] + chain[k + 1..];
        assert buckets[..] == bk[t % buckets.Length := chain[..k] + chain[k + 1..]];
        tls := tls - {t};
        entries := entries - {u};
        FreedOne(tls0, e0, t, u);
        IsValid();
        StrayFreed(tls0, e0, types, log0, next, t, u);
      } else {
        NoStray(tls0, e0, types, log, log, t);
        forall u <- entries ensures entries[u].threadId != t { NoEntryMeans(entries, t); }
      }
    }

    lemma FreeFacts(u: nat)
      requires Valid() && u in entries
      ensures u < next && Matches(entries[u], types) && Lives(entries, types, log, next) && Keyed(tls, entries)
      ensures Carving(types, carved, reservedPos, reservedSize)
      ensures forall s <- entries :: Shaped(entries[s], s, types, |types|)
    {
      hide Lives, Carving, EachOnce;
    }

    lemma IsValid()
      requires Carving(types, carved, reservedPos, reservedSize)
      requires Chained(buckets[..], entries, next) && Lives(entries, types, log, next) && Keyed(tls, entries)
      requires forall s <- entries :: Shaped(entries[s], s, types, |types|)
      ensures Valid()
    {
      hide Chained, Lives, Keyed, Shaped, Carving;
    }

    /** A thread goes away without freeing its entry: its thread-local pointer is gone. */
    method ThreadDies(t: Thread)
      requires Valid()
      modifies this`tls
      ensures Valid() && tls == old(tls) - {t}
    {
      hide Chained, Lives, Shaped, Carving;
      tls := tls - {t};
    }

    /** Ends one resource in every entry that has it. From then on its slots are null. */
    method FreeId(id: nat)
      requires Valid() && 0 < id <= |types|
      modifies this`entries, this`types, this`log
      ensures Valid() && types == old(types)[id - 1 := old(types)[id - 1].(done := true)]
      ensures entries.Keys == old(entries).Keys
      ensures forall s <- entries :: entries[s].threadId == old(entries)[s].threadId
      ensures log == old(log) + EndsFor(Flatten(buckets[..], buckets.Length), old(entries), old(types)[id - 1], id - 1)
      ensures forall s: nat, i: nat ::
        LifeOf(log, s, i) == if i == id - 1 && Held(old(entries), s, i) then Ended else LifeOf(old(log), s, i)
      ensures forall t: Thread :: StrayEnd(old(tls), old(entries), old(types), old(log), log, t) <==>
        t !in old(tls) && !NoEntry(old(entries), t) && old(types)[id - 1].native && !old(types)[id - 1].done
    {
      hide *;
      Facts(0);
      ghost var bk, e0, log0, types0 := buckets[..], entries, log, types;
      var i := id - 1;
      FreeFactsAll();
      NullingStart(i);
      CarvingDone(types, carved, reservedPos, reservedSize, i);
      for b := 0 to buckets.Length
        invariant types == old(types)
        invariant Nulling(e0, entries, types, Flatten(bk, b), i) && Lives(entries, types, log, next)
        invariant log == old(log) + EndsFor(Flatten(bk, b), e0, types[i], i)
      {
        SeenSteps(bk, e0, next, b);
        var chain := buckets[b];
        for k := 0 to |chain|
          invariant types == old(types)
          invariant Nulling(e0, entries, types, Seen(bk, b, k), i) && Lives(entries, types, log, next)
          invariant log == old(log) + EndsFor(Seen(bk, b, k), e0, types[i], i)
        {
          var s := chain[k];
          ghost var seen, e1 := Seen(bk, b, k), entries;
          NullingAt(e0, entries, types, seen, i, s);
          SeenNext(bk, b, k);
          EndsForStep(seen, s, e0, types[i], i);
          var e := entries[s];
          if |e.storage| > i && e.storage[i] != Null {
            EndSlot(entries, types, log, next, s, i, types[i].dtor, OwnBlock(types[i]));
            log := log + [End(s, i, types[i].dtor, OwnBlock(types[i]))];
            entries := entries[s := e.(storage := e.storage[i := Null])];
          } else {
            assert log + [] == log;
          }
          NullingStep(e0, e1, entries, types, seen, i, s);
        }
      }
      SeenAll(bk, e0, next);
      StrayId(tls, e0, types0, log0, next, Flatten(bk, buckets.Length), i);
      NullingEnd(e0, entries, types, log, next, Flatten(bk, buckets.Length), i);
      ChainedSame(bk, e0, entries, next);
      KeyedSame(tls, e0, entries);
      types := types[i := types[i].(done := true)];
      IsValid();
    }

    lemma FreeFactsAll()
      requires Valid()
      ensures Lives(entries, types, log, next) && forall s <- entries :: Matches(entries[s], types)
    {
      hide Lives, Shaped, Carving;
      forall s <- entries ensures Matches(entries[s], types) {
        ShapedMatches(entries[s], s, types);
      }
    }

    lemma NullingStart(i: nat)
      requires Valid() && i < |types|
      ensures Nulling(entries, entries, types, [], i) && Lives(entries, types, log, next) && Keyed(tls, entries)
      ensures Flatten(buckets[..], 0) == [] && log + EndsFor([], entries, types[i], i) == log
      ensures Carving(types, carved, reservedPos, reservedSize)
    {
      hide Lives, Carving;
    }

    /** The main thread frees every entry left in the table. Of native resources only those of
        the caller are ended. */
    method Shutdown(t: Thread)
      requires Valid() && t > 0
      modifies this`entries, this`tls, this`log, buckets
      modifies this`reservedFront, this`reservedSize, this`reservedPos, this`carved, this`down
      ensures Valid() && entries == map[] && tls == map[] && down
      ensures reservedFront == reservedSize == reservedPos == 0 && carved == {}
      ensures forall s <- Flatten(old(buckets[..]), buckets.Length) :: s in old(entries)
      ensures log == old(log) + EndsAll(Flatten(old(buckets[..]), buckets.Length), old(entries), types, t)
      ensures forall s: nat, i: nat :: LifeOf(log, s, i) != Alive
    {
      hide *;
      Facts(t);
      ghost var bk, e0 := buckets[..], entries;
      FreeingStart(t);
      for b := 0 to buckets.Length
        invariant Freeing(e0, entries, types, Flatten(bk, b), next) && Lives(entries, types, log, next)
        invariant forall s <- Flatten(bk, b) :: s in e0
        invariant buckets[..] == bk
        invariant log == old(log) + EndsAll(Flatten(bk, b), e0, types, t)
      {
        SeenSteps(bk, e0, next, b);
        var chain := buckets[b];
        for k := 0 to |chain|
          invariant Freeing(e0, entries, types, Seen(bk, b, k), next) && Lives(entries, types, log, next)
          invariant forall s <- Seen(bk, b, k) :: s in e0
          invariant buckets[..] == bk
          invariant log == old(log) + EndsAll(Seen(bk, b, k), e0, types, t)
        {
          var s := chain[k];
          ghost var seen := Seen(bk, b, k);
          FreeingAt(e0, entries, types, seen, next, s);
          SeenNext(bk, b, k);
          EndsAllStep(seen, s, e0, types, t);
          FreeResources(s, t);
          entries := entries - {s};
        }
      }
      SeenAll(bk, e0, next);
      FreeingEnd(e0, entries, types, log, Flatten(bk, buckets.Length), next);
      forall b | 0 <= b < buckets.Length { buckets[b] := []; }
      tls, down := map[], true;
      reservedFront, reservedSize, reservedPos, carved := 0, 0, 0, {};
      NothingLeft();
    }

    ghost function Now(): Snapshot
      reads this, buckets
    {
      Snapshot(buckets[..], entries, types, next, tls, log, reservedFront, reservedSize, reservedPos, carved, down)
    }

    /** Any sequence of calls, each by any thread, goes step by step as the calls say and keeps
        every invariant; it stops only at a call the source's own assertions rule out. */
    method Execute(calls: seq<Call>) returns (done: nat, ghost states: seq<Snapshot>)
      requires Valid()
      modifies this, buckets
      ensures Valid() && done <= |calls| && Trace(states, calls[..done])
      ensures states[0] == old(Now()) && states[done] == Now()
      ensures done < |calls| ==> !Allowed(calls[done], entries, types, reservedSize, reservedPos, down)
      ensures old(log) <= log
    {
      hide Valid, Effect, Allowed;
      done, states := 0, [Now()];
      while done < |calls|
        invariant Valid() && done <= |calls| && Trace(states, calls[..done])
        invariant states[0] == old(Now()) && states[done] == Now()
        invariant old(log) <= log
      {
        ghost var a := Now();
        var c := calls[done];
        var ok := Perform(c);
        if !ok { return; }
        assert calls[..done + 1] == calls[..done] + [c];
        states := states + [Now()];
        done := done + 1;
      }
    }

    method Perform(c: Call) returns (ok: bool)
      requires Valid()
      modifies this, buckets
      ensures Valid() && old(log) <= log
      ensures ok <==> old(Allowed(c, entries, types, reservedSize, reservedPos, down))
      ensures ok ==> Effect(old(Now()), c, Now())
      ensures !ok ==> Now() == old(Now())
    {
      hide Valid, MakesFor, MakesFrom, EndsFor, EndsAll, EndsFrom, Flatten, NoEntry, IsNew, StrayEnd, HasNative, NewId;
      ok := Allowed(c, entries, types, reservedSize, reservedPos, down);
      if !ok { return; }
      match c {
        case Reserve(size) => Reserve(size);
        case ReserveFront(size) => ReserveFront(size);
        case Fetch(t, id) => var r := ResourceEx(t, id, false);
        case FreeThread(t) => FreeThread(t);
        case ThreadDies(t) => ThreadDies(t);
        case FreeId(id) => FreeId(id);
        case Shutdown(t) => Shutdown(t);
        case _ => PerformRegistration(c);
      }
    }

    /** The calls that register a resource. */
    method PerformRegistration(c: Call)
      requires Valid() && (c.AllocateId? || c.AllocateFastId? || c.AllocateFastIdAt? || c.AllocateTlsId?)
      requires c.AllocateTlsId? ==> forall s <- entries :: entries[s].threadId == c.t
      modifies this`entries, this`types, this`log, this`reservedPos, this`carved
      ensures Valid() && old(log) <= log
      ensures Effect(old(Now()), c, Now())
    {
      hide Valid, MakesFor, MakesFrom, EndsFor, EndsAll, EndsFrom, Flatten, NoEntry, IsNew, FetchEffect, FreeEffect;
      match c {
        case AllocateId(t, size, ctor, dtor) => var id := AllocateId(t, size, ctor, dtor);
        case AllocateFastId(t, size, ctor, dtor) => var id, offset := AllocateFastId(t, size, ctor, dtor);
        case AllocateFastIdAt(t, offset, size, ctor, dtor) => var id := AllocateFastIdAt(t, offset, size, ctor, dtor);
        case AllocateTlsId(t, size, ctor, dtor) => var id := AllocateTlsId(t, size, ctor, dtor);
      }
    }

    lemma FreeingStart(t: Thread)
      requires Valid()
      ensures Freeing(entries, entries, types, [], next) && Lives(entries, types, log, next)
      ensures Flatten(buckets[..], 0) == [] && log + EndsAll([], entries, types, t) == log
    {
      hide Lives, Shaped, Carving;
      forall s <- entries ensures Matches(entries[s], types) {
        ShapedMatches(entries[s], s, types);
      }
    }

    lemma NothingLeft()
      requires entries == map[] && tls == map[] && Lives(entries, types, log, next) && carved == {} && reservedPos == 0
      requires buckets.Length > 0 && forall b :: 0 <= b < buckets.Length ==> buckets[b] == []
      ensures Valid()
    {
      hide Lives;
    }
  }

  /** The walk that frees the whole table, with the entries of `seen` freed. */
  ghost predicate Freeing(e0: map<nat, Entry>, e1: map<nat, Entry>, types: seq<Resource>, seen: seq<nat>, next: nat) {
    && (forall s <- e0 :: s < next && Matches(e0[s], types))
    && (forall s <- e0 :: s in e1 <==> s !in seen)
    && (forall s <- e1 :: s in e0 && e1[s] == e0[s])
  }

  lemma FreeingAt(e0: map<nat, Entry>, e1: map<nat, Entry>, types: seq<Resource>, seen: seq<nat>, next: nat, s: nat)
    requires Freeing(e0, e1, types, seen, next) && s in e0 && s !in seen
    ensures s in e1 && e1[s] == e0[s] && s < next && Matches(e1[s], types)
    ensures Freeing(e0, e1 - {s}, types, seen + [s], next)
  {
    hide Matches;
  }

  lemma FreeingEnd(e0: map<nat, Entry>, e1: map<nat, Entry>, types: seq<Resource>, log: seq<Event>, seen: seq<nat>, next: nat)
    requires Freeing(e0, e1, types, seen, next) && Lives(e1, types, log, next)
    requires forall s <- e0 :: s in seen
    ensures e1 == map[] && forall s: nat, i: nat :: LifeOf(log, s, i) != Alive
  {
    hide Matches, Orderly;
    assert e1.Keys == {};
  }

  // ----- what a freed entry leaves in the log -----

  /** A visit of the destructor loop: the id is not freed, and the instance is ended unless its
      block is native memory of another thread. */
  ghost predicate Visits(e: Event, s: nat, types: seq<Resource>, own: bool, lo: nat, n: nat) {
    && e.entry == s && lo <= e.id < n <= |types| && !types[e.id].done && !e.Make?
    && (e.Lose? <==> types[e.id].native && !own)
    && (e.End? ==> e.dtor == types[e.id].dtor && e.freed == OwnBlock(types[e.id]))
  }

  ghost predicate Descending(es: seq<Event>) {
    forall a, b :: 0 <= a < b < |es| ==> es[a].id > es[b].id
  }

  lemma DescendingMore(es: seq<Event>, v: seq<Event>, lo: nat)
    requires Descending(es) && (forall e <- es :: e.id > lo) && |v| <= 1 && forall e <- v :: e.id == lo
    ensures Descending(es + v)
  {}

  /** Freeing an entry visits ids in descending order, so none twice. */
  lemma {:induction false} EndsOrder(s: nat, types: seq<Resource>, own: bool, lo: nat, n: nat)
    requires n <= |types|
    ensures forall e <- EndsFrom(s, types, own, lo, n) :: Visits(e, s, types, own, lo, n)
    ensures Descending(EndsFrom(s, types, own, lo, n))
    decreases n - lo
  {
    if lo < n {
      EndsOrder(s, types, own, lo + 1, n);
      DescendingMore(EndsFrom(s, types, own, lo + 1, n), Visit(s, lo, types[lo], own), lo);
    }
  }

  /** Freeing an entry visits every id that is not freed. */
  lemma {:induction false} EndsEvery(s: nat, types: seq<Resource>, own: bool, lo: nat, n: nat, i: nat) returns (e: Event)
    requires lo <= i < n <= |types| && !types[i].done
    ensures e in EndsFrom(s, types, own, lo, n) && e.id == i
    decreases n - lo
  {
    if i == lo {
      e := Visit(s, lo, types[lo], own)[0];
    } else {
      e := EndsEvery(s, types, own, lo + 1, n, i);
    }
  }

  ghost predicate Ascending(es: seq<Event>) {
    forall a, b :: 0 <= a < b < |es| ==> es[a].id < es[b].id
  }

  /** An event of making an instance: the id is not freed, and the constructor is called exactly
      if the id has one. */
  ghost predicate Makes(e: Event, s: nat, types: seq<Resource>, lo: nat, hi: nat) {
    e.Make? && e.entry == s && lo <= e.id < hi <= |types| && !types[e.id].done && e.ctor == types[e.id].ctor
  }

  /** Ids are made in ascending order, so none twice. */
  lemma {:induction false} MakesOrder(s: nat, types: seq<Resource>, lo: nat, hi: nat)
    requires hi <= |types|
    ensures forall e <- MakesFrom(s, types, lo, hi) :: Makes(e, s, types, lo, hi)
    ensures Ascending(MakesFrom(s, types, lo, hi))
  {
    if lo < hi {
      MakesOrder(s, types, lo, hi - 1);
      var es := MakesFrom(s, types, lo, hi - 1);
      assert forall k :: 0 <= k < |es| ==> es[k] in es;
      assert es + [] == es;
    }
  }

  /** Every id that is not freed is made. */
  lemma {:induction false} MakesEvery(s: nat, types: seq<Resource>, lo: nat, hi: nat, i: nat) returns (e: Event)
    requires lo <= i < hi <= |types| && !types[i].done
    ensures e in MakesFrom(s, types, lo, hi) && e.id == i
  {
    if i == hi - 1 {
      e := Make(s, i, types[i].ctor);
    } else {
      e := MakesEvery(s, types, lo, hi - 1, i);
    }
  }

  /** `x` may come before `y`: its entry is earlier in the list, or its id is smaller. */
  ghost predicate Before(list: seq<nat>, x: Event, y: Event) {
    (exists k, l :: 0 <= k < l < |list| && list[k] == x.entry && list[l] == y.entry) || x.id < y.id
  }

  /** A registration makes the ids from `lo` on in every entry of the list, one entry after the
      other. */
  lemma {:induction false} MakesForOrder(list: seq<nat>, types: seq<Resource>, lo: nat)
    ensures forall e <- MakesFor(list, types, lo) :: e.entry in list && Makes(e, e.entry, types, lo, |types|)
    ensures forall a, b :: 0 <= a < b < |MakesFor(list, types, lo)| ==>
      Before(list, MakesFor(list, types, lo)[a], MakesFor(list, types, lo)[b])
  {
    if list != [] {
      var less, s := list[..|list| - 1], list[|list| - 1];
      MakesForOrder(less, types, lo);
      MakesOrder(s, types, lo, |types|);
      var before, now := MakesFor(less, types, lo), MakesFrom(s, types, lo, |types|);
      forall a, b | 0 <= a < b < |before + now| ensures Before(list, (before + now)[a], (before + now)[b]) {
        MakesForPair(list, before, now, a, b);
      }
    }
  }

  lemma MakesForPair(list: seq<nat>, before: seq<Event>, now: seq<Event>, a: nat, b: nat)
    requires list != [] && a < b < |before + now|
    requires forall e <- before :: e.entry in list[..|list| - 1]
    requires forall x, y :: 0 <= x < y < |before| ==> Before(list[..|list| - 1], before[x], before[y])
    requires Ascending(now) && forall e <- now :: e.entry == list[|list| - 1]
    ensures Before(list, (before + now)[a], (before + now)[b])
  {
    var es, less := before + now, list[..|list| - 1];
    if b < |before| {
      assert es[a] == before[a] && es[b] == before[b] && Before(less, before[a], before[b]);
      if before[a].id >= before[b].id {
        var k, l :| 0 <= k < l < |less| && less[k] == before[a].entry && less[l] == before[b].entry;
        assert list[k] == less[k] && list[l] == less[l];
      }
    } else if a < |before| {
      assert es[a] == before[a] && before[a] in before && es[b] == now[b - |before|] && now[b - |before|] in now;
      var k :| 0 <= k < |less| && less[k] == before[a].entry;
      assert list[k] == less[k];
    } else {
      assert es[a] == now[a - |before|] && es[b] == now[b - |before|];
    }
  }

  lemma {:induction false} MakesForEvery(list: seq<nat>, types: seq<Resource>, lo: nat, s: nat, i: nat) returns (e: Event)
    requires s in list && lo <= i < |types| && !types[i].done
    ensures e in MakesFor(list, types, lo) && e.entry == s && e.id == i
  {
    var last := list[|list| - 1];
    if s == last {
      e := MakesEvery(s, types, lo, |types|, i);
      MakesOrder(s, types, lo, |types|);
    } else {
      assert s in list[..|list| - 1];
      e := MakesForEvery(list[..|list| - 1], types, lo, s, i);
    }
  }

  /** Ending an id visits exactly the entries that hold it; the destructor is called exactly if
      there is one, and exactly blocks allocated one by one are given back. */
  lemma {:induction false} EndsForOrder(list: seq<nat>, entries: map<nat, Entry>, r: Resource, id: nat)
    ensures forall e <- EndsFor(list, entries, r, id) ::
      e.End? && e.id == id && e.entry in list && Held(entries, e.entry, id) && e.dtor == r.dtor && e.freed == OwnBlock(r)
    ensures forall s <- list :: Held(entries, s, id) ==> End(s, id, r.dtor, OwnBlock(r)) in EndsFor(list, entries, r, id)
  {
    if list != [] {
      EndsForOrder(list[..|list| - 1], entries, r, id);
    }
  }

  /** The shutdown visits every entry of the table, each like a single one. */
  lemma {:induction false} EndsAllOrder(list: seq<nat>, entries: map<nat, Entry>, types: seq<Resource>, caller: Thread)
    requires forall s <- list :: s in entries
    ensures forall e <- EndsAll(list, entries, types, caller) ::
      e.entry in list && e.entry in entries && Visits(e, e.entry, types, entries[e.entry].threadId == caller, 0, |types|)
  {
    if list != [] {
      var s := list[|list| - 1];
      assert s in list;
      EndsAllOrder(list[..|list| - 1], entries, types, caller);
      EndsOrder(s, types, entries[s].threadId == caller, 0, |types|);
    }
  }

  /** The table is walked bucket by bucket, each chain from its head. */
  lemma {:induction false} FlattenAt(buckets: seq<seq<nat>>, b: nat, c: nat, k: nat)
    requires c < b <= |buckets| && k < |buckets[c]|
    ensures |Flatten(buckets, c)| + k < |Flatten(buckets, b)|
    ensures Flatten(buckets, b)[|Flatten(buckets, c)| + k] == buckets[c][k]
  {
    if c < b - 1 { FlattenAt(buckets, b - 1, c, k); }
  }

  /** An instance that lived at some point and lives no more has been ended, or passed over;
      and only native blocks are passed over. */
  lemma Gone(log0: seq<Event>, log: seq<Event>, entries: map<nat, Entry>, types: seq<Resource>, next: nat, s: nat, i: nat)
    requires log0 <= log && Lives(entries, types, log, next)
    requires LifeOf(log0, s, i) == Alive && !Held(entries, s, i)
    ensures LifeOf(log, s, i) == Ended || (LifeOf(log, s, i) == Lost && i < |types| && types[i].native)
  {
    hide Orderly;
    assert log[..|log0|] == log0;
    Monotone(log, |log0|, s, i);
  }

  /** The walk that ends resource `i`, with the entries of `seen` done. */
  ghost predicate Nulling(e0: map<nat, Entry>, e1: map<nat, Entry>, types: seq<Resource>, seen: seq<nat>, i: nat) {
    && i < |types| && e1.Keys == e0.Keys
    && forall s <- e0 ::
      && Shaped(e0[s], s, types, |types|) && |e0[s].storage| == |types|
      && e1[s] == if s in seen then e0[s].(storage := e0[s].storage[i := Null]) else e0[s]
  }

  lemma NullingStep(e0: map<nat, Entry>, e1: map<nat, Entry>, e2: map<nat, Entry>, types: seq<Resource>, seen: seq<nat>, i: nat, s: nat)
    requires Nulling(e0, e1, types, seen, i) && s in e0 && s !in seen
    requires s in e1 && i < |e1[s].storage| && e2 == e1[s := e1[s].(storage := e1[s].storage[i := Null])]
    ensures Nulling(e0, e2, types, seen + [s], i)
  {
    hide Shaped;
  }

  lemma NullingAt(e0: map<nat, Entry>, e1: map<nat, Entry>, types: seq<Resource>, seen: seq<nat>, i: nat, s: nat)
    requires Nulling(e0, e1, types, seen, i) && s in e0 && s !in seen
    ensures s in e1 && e1[s] == e0[s] && |e1[s].storage| == |types| && i < |types|
    ensures Held(e1, s, i) == Held(e0, s, i) == (e1[s].storage[i] != Null)
    ensures e1[s := e0[s]] == e1
    ensures e1[s].storage[i] == Null ==> e1[s].(storage := e1[s].storage[i := Null]) == e1[s]
  {
    hide Shaped;
    if e1[s].storage[i] == Null {
      assert e1[s].storage[i := Null] == e1[s].storage;
    }
  }

  lemma NullingEnd(e0: map<nat, Entry>, e1: map<nat, Entry>, types: seq<Resource>, log: seq<Event>, next: nat, seen: seq<nat>, i: nat)
    requires Nulling(e0, e1, types, seen, i) && forall s <- e0 :: s in seen
    requires Lives(e1, types, log, next)
    ensures var t1 := types[i := types[i].(done := true)];
      && Lives(e1, t1, log, next)
      && (forall s <- e1 :: Shaped(e1[s], s, t1, |t1|))
    ensures e1.Keys == e0.Keys && forall s <- e0 :: e1[s].threadId == e0[s].threadId
  {
    hide Orderly;
  }

  lemma KeyedSame(tls: map<Thread, nat>, e0: map<nat, Entry>, e1: map<nat, Entry>)
    requires Keyed(tls, e0) && e1.Keys == e0.Keys && forall s <- e0 :: e1[s].threadId == e0[s].threadId
    ensures Keyed(tls, e1)
  {}

  lemma FreedOne(tls: map<Thread, nat>, entries: map<nat, Entry>, t: Thread, u: nat)
    requires Keyed(tls, entries) && u in entries && entries[u].threadId == t
    requires forall s <- entries :: entries[s].threadId == t ==> s == u
    ensures Keyed(tls - {t}, entries - {u}) && NoEntry(entries - {u}, t)
  {}

  datatype Call =
    | Reserve(size: nat)
    | ReserveFront(size: nat)
    | AllocateId(t: Thread, size: nat, ctor: bool, dtor: bool)
    | AllocateFastId(t: Thread, size: nat, ctor: bool, dtor: bool)
    | AllocateFastIdAt(t: Thread, offset: int, size: nat, ctor: bool, dtor: bool)
    | AllocateTlsId(t: Thread, size: nat, ctor: bool, dtor: bool)
    | Fetch(t: Thread, id: nat)
    | FreeThread(t: Thread)
    | ThreadDies(t: Thread)
    | FreeId(id: nat)
    | Shutdown(t: Thread)

  /** What the source asserts or demands of its callers. */
  predicate Allowed(c: Call, entries: map<nat, Entry>, types: seq<Resource>, size: nat, pos: nat, down: bool) {
    !down &&
    match c
    case ReserveFront(n) => Aligned(n) + pos <= size
    case AllocateTlsId(t, _, _, _) => forall s <- entries :: entries[s].threadId == t
    case Fetch(t, id) => t > 0 && id <= |types|
    case FreeThread(t) => t > 0
    case FreeId(id) => 0 < id <= |types|
    case Shutdown(t) => t > 0
    case _ => true
  }

  // ----- whole runs -----

  /** The table as a value. */
  datatype Snapshot = Snapshot(buckets: seq<seq<nat>>, entries: map<nat, Entry>, types: seq<Resource>, next: nat,
    tls: map<Thread, nat>, log: seq<Event>, front: nat, size: nat, pos: nat, carved: set<nat>, down: bool)

  /** Resource `r` gets the next id, and every entry its block. */
  ghost predicate NewId(a: Snapshot, b: Snapshot, r: Resource) {
    && b == a.(types := a.types + [r], entries := b.entries, log := b.log)
    && b.entries.Keys == a.entries.Keys
    && (forall s <- a.entries :: b.entries[s].threadId == a.entries[s].threadId)
    && b.log == a.log + MakesFor(Flatten(a.buckets, |a.buckets|), b.types, |a.types|)
  }

  ghost predicate Effect(a: Snapshot, c: Call, b: Snapshot) {
    match c
    case Reserve(size) => b == a.(size := Aligned(size), pos := 0, carved := {})
    case ReserveFront(size) => a.size >= Aligned(size) && b == a.(front := Aligned(size), size := a.size - Aligned(size))
    case AllocateId(_, size, ctor, dtor) => NewId(a, b, Resource(size, 0, false, ctor, dtor, false))
    case AllocateFastId(_, size, ctor, dtor) =>
      if a.size - a.pos < Aligned(size) then b == a
      else NewId(a.(pos := a.pos + Aligned(size), carved := a.carved + {|a.types|}), b,
                 Resource(Aligned(size), HEADER + a.pos, false, ctor, dtor, false))
    case AllocateFastIdAt(_, offset, size, ctor, dtor) => NewId(a, b, Resource(Aligned(size), offset, false, ctor, dtor, false))
    case AllocateTlsId(_, size, ctor, dtor) => NewId(a, b, Resource(size, 0, true, ctor, dtor, false))
    case Fetch(t, _) => FetchEffect(a, t, b)
    case FreeThread(t) => FreeEffect(a, t, b)
    case ThreadDies(t) => b == a.(tls := a.tls - {t})
    case FreeId(id) =>
      && 0 < id <= |a.types|
      && b == a.(types := a.types[id - 1 := a.types[id - 1].(done := true)], entries := b.entries, log := b.log)
      && b.entries.Keys == a.entries.Keys
      && (forall s <- a.entries :: b.entries[s].threadId == a.entries[s].threadId)
      && b.log == a.log + EndsFor(Flatten(a.buckets, |a.buckets|), a.entries, a.types[id - 1], id - 1)
      && (forall t: Thread :: Stray(a, b, t) <==>
           t !in a.tls && !NoEntry(a.entries, t) && a.types[id - 1].native && !a.types[id - 1].done)
    case Shutdown(t) =>
      && b == a.(buckets := b.buckets, entries := map[], tls := map[], log := b.log,
                 front := 0, size := 0, pos := 0, carved := {}, down := true)
      && (forall s <- Flatten(a.buckets, |a.buckets|) :: s in a.entries)
      && b.log == a.log + EndsAll(Flatten(a.buckets, |a.buckets|), a.entries, a.types, t)
  }

  /** The call destroyed a native block of a dead thread of id `t`. */
  ghost predicate Stray(a: Snapshot, b: Snapshot, t: Thread) {
    StrayEnd(a.tls, a.entries, a.types, a.log, b.log, t)
  }

  /** A first fetch makes an entry; a stale one of a dead thread is freed as a foreign one. */
  ghost predicate FetchEffect(a: Snapshot, t: Thread, b: Snapshot) {
    !Stray(a, b, t) &&
    if t in a.tls then b == a else
    && b == a.(buckets := b.buckets, entries := b.entries, next := a.next + 1, tls := a.tls[t := a.next], log := b.log)
    && (NoEntry(a.entries, t) ==>
         && IsNew(a.entries, b.entries, a.next, t)
         && b.log == a.log + MakesFrom(a.next, a.types, 0, |a.types|))
    && (forall u <- a.entries :: a.entries[u].threadId == t ==>
         && IsNew(a.entries - {u}, b.entries, a.next, t)
         && b.log == a.log + EndsFrom(u, a.types, false, 0, |a.types|) + MakesFrom(a.next, a.types, 0, |a.types|))
  }

  ghost predicate FreeEffect(a: Snapshot, t: Thread, b: Snapshot) {
    && b == a.(buckets := b.buckets, entries := b.entries, tls := b.tls, log := b.log)
    && (NoEntry(a.entries, t) ==> b == a)
    && (Stray(a, b, t) <==> t !in a.tls && !NoEntry(a.entries, t) && HasNative(a.types))
    && (forall u <- a.entries :: a.entries[u].threadId == t ==>
         && b.entries == a.entries - {u} && b.tls == a.tls - {t}
         && b.log == a.log + EndsFrom(u, a.types, true, 0, |a.types|))
  }

  ghost predicate Trace(states: seq<Snapshot>, calls: seq<Call>) {
    |states| == |calls| + 1 && forall k :: 0 <= k < |calls| ==> Effect(states[k], calls[k], states[k + 1])
  }

  // ----- native blocks of dead threads -----

  ghost predicate HasNative(types: seq<Resource>) {
    exists i: nat :: i < |types| && types[i].native && !types[i].done
  }

  /** A native instance that the entry of thread `t` holds. */
  ghost predicate NativeOf(entries: map<nat, Entry>, types: seq<Resource>, t: Thread, u: nat, i: nat) {
    u in entries && entries[u].threadId == t && i < |types| && types[i].native
  }

  /** Between the two logs a native block was destroyed whose thread is gone: its entry is
      still in the table under the id `t`, which now has no pointer to it. */
  ghost predicate StrayEnd(tls: map<Thread, nat>, entries: map<nat, Entry>, types: seq<Resource>,
    log0: seq<Event>, log1: seq<Event>, t: Thread)
  {
    t !in tls && exists u: nat, i: nat ::
      NativeOf(entries, types, t, u, i) && LifeOf(log0, u, i) == Alive && LifeOf(log1, u, i) == Ended
  }

  lemma VisitLife(log: seq<Event>, es: seq<Event>, s: nat, types: seq<Resource>, own: bool, lo: nat, u: nat, i: nat)
    requires lo < |types|
    ensures LifeOf(log + (es + Visit(s, lo, types[lo], own)), u, i) ==
      if u == s && i == lo && !types[i].done then (if types[i].native && !own then Lost else Ended)
      else LifeOf(log + es, u, i)
  {
    hide LifeOf;
    var v := Visit(s, lo, types[lo], own);
    assert log + (es + v) == (log + es) + v;
    if v == [] {
      assert log + es + v == log + es;
    } else {
      Appended(log + es, v[0], u, i);
    }
  }

  /** What freeing an entry does to each life. */
  lemma {:induction false} EndsLife(log: seq<Event>, s: nat, types: seq<Resource>, own: bool, lo: nat, n: nat, u: nat, i: nat)
    requires n <= |types|
    ensures LifeOf(log + EndsFrom(s, types, own, lo, n), u, i) ==
      if u == s && lo <= i < n && !types[i].done then (if types[i].native && !own then Lost else Ended)
      else LifeOf(log, u, i)
    decreases n - lo
  {
    hide LifeOf, Visit;
    if lo < n {
      EndsLife(log, s, types, own, lo + 1, n, u, i);
      VisitLife(log, EndsFrom(s, types, own, lo + 1, n), s, types, own, lo, u, i);
    } else {
      assert log + EndsFrom(s, types, own, lo, n) == log;
    }
  }

  /** Making an entry changes no life in another. */
  lemma {:induction false} MakesLife(log: seq<Event>, s: nat, types: seq<Resource>, lo: nat, hi: nat, u: nat, i: nat)
    requires hi <= |types| && u != s
    ensures LifeOf(log + MakesFrom(s, types, lo, hi), u, i) == LifeOf(log, u, i)
  {
    if hi <= lo {
      assert log + MakesFrom(s, types, lo, hi) == log;
    } else {
      MakesLife(log, s, types, lo, hi - 1, u, i);
      var ms, e := MakesFrom(s, types, lo, hi - 1), Make(s, hi - 1, types[hi - 1].ctor);
      Appended(log + ms, e, u, i);
      assert log + (ms + [e]) == log + ms + [e];
      assert ms + [] == ms;
    }
  }

  /** What ending one id does to each life. */
  lemma {:induction false} EndsForLife(log: seq<Event>, list: seq<nat>, entries: map<nat, Entry>, r: Resource, id: nat, u: nat, i: nat)
    ensures LifeOf(log + EndsFor(list, entries, r, id), u, i) ==
      if i == id && u in list && Held(entries, u, id) then Ended else LifeOf(log, u, i)
  {
    hide LifeOf;
    if list == [] {
      assert log + EndsFor(list, entries, r, id) == log;
    } else {
      var s, less := list[|list| - 1], list[..|list| - 1];
      EndsForLife(log, less, entries, r, id, u, i);
      var es := EndsFor(less, entries, r, id);
      if Held(entries, s, id) {
        var e := End(s, id, r.dtor, OwnBlock(r));
        Appended(log + es, e, u, i);
        assert log + (es + [e]) == log + es + [e];
      } else {
        assert es + [] == es;
      }
      assert u in list <==> u == s || u in less;
    }
  }

  /** Ending an id destroys its native blocks whatever thread they belong to, so those of the
      dead threads that have left an entry. */
  lemma StrayId(tls: map<Thread, nat>, entries: map<nat, Entry>, types: seq<Resource>, log: seq<Event>, next: nat, list: seq<nat>, id: nat)
    requires Lives(entries, types, log, next) && id < |types| && forall s <- entries :: s in list && Matches(entries[s], types)
    ensures var log1 := log + EndsFor(list, entries, types[id], id);
      forall s: nat, i: nat :: LifeOf(log1, s, i) == if i == id && Held(entries, s, i) then Ended else LifeOf(log, s, i)
    ensures forall t: Thread :: StrayEnd(tls, entries, types, log, log + EndsFor(list, entries, types[id], id), t) <==>
      t !in tls && !NoEntry(entries, t) && types[id].native && !types[id].done
  {
    hide Orderly, EndsFor, LifeOf;
    var log1 := log + EndsFor(list, entries, types[id], id);
    forall s: nat, i: nat ensures LifeOf(log1, s, i) == if i == id && Held(entries, s, i) then Ended else LifeOf(log, s, i) {
      EndsForLife(log, list, entries, types[id], id, s, i);
    }
    forall t: Thread ensures StrayEnd(tls, entries, types, log, log1, t) <==>
      t !in tls && !NoEntry(entries, t) && types[id].native && !types[id].done
    {
      StrayOne(tls, entries, types, log, log1, next, id, t);
    }
  }

  lemma StrayOne(tls: map<Thread, nat>, entries: map<nat, Entry>, types: seq<Resource>, log: seq<Event>, log1: seq<Event>, next: nat,
    id: nat, t: Thread)
    requires Lives(entries, types, log, next) && id < |types| && forall s <- entries :: Matches(entries[s], types)
    requires forall s: nat, i: nat :: LifeOf(log1, s, i) == if i == id && Held(entries, s, i) then Ended else LifeOf(log, s, i)
    ensures StrayEnd(tls, entries, types, log, log1, t) <==>
      t !in tls && !NoEntry(entries, t) && types[id].native && !types[id].done
  {
    hide Orderly, LifeOf;
    if t !in tls && !NoEntry(entries, t) && types[id].native && !types[id].done {
      var u :| u in entries && entries[u].threadId == t;
      assert Matches(entries[u], types);
      assert Held(entries, u, id) && NativeOf(entries, types, t, u, id);
    }
    if StrayEnd(tls, entries, types, log, log1, t) {
      var u: nat, i: nat :| NativeOf(entries, types, t, u, i) && LifeOf(log, u, i) == Alive && LifeOf(log1, u, i) == Ended;
      assert i == id && Held(entries, u, i) && Matches(entries[u], types);
    }
  }

  lemma NoStray(tls: map<Thread, nat>, entries: map<nat, Entry>, types: seq<Resource>, log0: seq<Event>, log1: seq<Event>, t: Thread)
    requires NoEntry(entries, t) || t in tls || log0 == log1
    ensures !StrayEnd(tls, entries, types, log0, log1, t)
  {}

  /** A thread that frees its table entry destroys the native blocks of the entry, its own or
      not: they are those of a dead thread if it never fetched a resource. */
  lemma StrayFreed(tls: map<Thread, nat>, entries: map<nat, Entry>, types: seq<Resource>, log: seq<Event>, next: nat, t: Thread, u: nat)
    requires Lives(entries, types, log, next) && u in entries && entries[u].threadId == t && Matches(entries[u], types)
    requires forall s <- entries :: entries[s].threadId == t ==> s == u
    ensures StrayEnd(tls, entries, types, log, log + EndsFrom(u, types, true, 0, |types|), t) <==>
      t !in tls && HasNative(types)
  {
    hide Orderly, EndsFrom, LifeOf;
    var log1 := log + EndsFrom(u, types, true, 0, |types|);
    forall i: nat ensures LifeOf(log1, u, i) == if i < |types| && !types[i].done then Ended else LifeOf(log, u, i) {
      EndsLife(log, u, types, true, 0, |types|, u, i);
    }
    if t !in tls && HasNative(types) {
      var i: nat :| i < |types| && types[i].native && !types[i].done;
      assert Held(entries, u, i) && NativeOf(entries, types, t, u, i);
    }
    if StrayEnd(tls, entries, types, log, log1, t) {
      var s: nat, i: nat :| NativeOf(entries, types, t, s, i) && LifeOf(log, s, i) == Alive && LifeOf(log1, s, i) == Ended;
      assert s == u && !types[i].done;
    }
  }

  /** A thread that fetches a resource first passes them over. */
  lemma StrayFetched(tls: map<Thread, nat>, entries: map<nat, Entry>, types: seq<Resource>, log: seq<Event>, next: nat, t: Thread, u: nat)
    requires Lives(entries, types, log, next) && u in entries && u < next && Matches(entries[u], types)
    requires forall s <- entries :: entries[s].threadId == t ==> s == u
    ensures !StrayEnd(tls, entries, types, log,
      log + EndsFrom(u, types, false, 0, |types|) + MakesFrom(next, types, 0, |types|), t)
  {
    hide Orderly, EndsFrom, MakesFrom, LifeOf;
    var mid := log + EndsFrom(u, types, false, 0, |types|);
    forall i: nat | i < |types| && types[i].native && LifeOf(log, u, i) == Alive
      ensures LifeOf(mid + MakesFrom(next, types, 0, |types|), u, i) == Lost
    {
      assert Held(entries, u, i);
      EndsLife(log, u, types, false, 0, |types|, u, i);
      MakesLife(mid, next, types, 0, |types|, u, i);
    }
  }

  /** Thread 1 makes a native block and dies, and another thread of the same id frees its
      resources without having fetched one. */
  function Recycled(): seq<Call> {
    [AllocateTlsId(1, 8, true, true), Fetch(1, 1), ThreadDies(1), FreeThread(1)]
  }

  /** A table with the entry of a dead thread: the first three calls. */
  method DeadThread() returns (table: Table, ghost states: seq<Snapshot>)
    ensures fresh(table) && fresh(table.buckets) && table.Valid() && !table.down
    ensures |states| == 4 && (forall k :: 0 <= k < 3 ==> Effect(states[k], Recycled()[k], states[k + 1])) && states[3] == table.Now()
    ensures states[0].entries == map[] && states[0].log == []
    ensures table.tls == map[] && !NoEntry(table.entries, 1) && HasNative(table.types)
  {
    hide Lives, Chained, Shaped, Keyed, Carving, StrayEnd, Stray, Table.Valid, EndsFrom, MakesFrom, MakesFor, Flatten;
    table := new Table(1);
    var calls := Recycled();
    ghost var s0 := table.Now();
    var ok := table.Perform(calls[0]);
    ghost var s1 := table.Now();
    assert s1.types[0].native && !s1.types[0].done;
    ok := table.Perform(calls[1]);
    ghost var s2 := table.Now();
    ok := table.Perform(calls[2]);
    states := [s0, s1, s2, table.Now()];
  }

  /** Such a run destroys the native block of the dead thread. */
  method DestroysDead() returns (table: Table, ghost states: seq<Snapshot>)
    ensures fresh(table) && fresh(table.buckets) && table.Valid()
    ensures Trace(states, Recycled()) && states[0].entries == map[] && states[0].log == [] && states[4] == table.Now()
    ensures states[3].tls == map[] && Stray(states[3], states[4], 1)
  {
    hide Lives, Chained, Shaped, Keyed, Carving, StrayEnd, Stray, Table.Valid, EndsFrom, MakesFrom, MakesFor, Flatten, NoEntry, HasNative, NewId,
      FetchEffect;
    table, states := DeadThread();
    ghost var s3 := table.Now();
    var ok := table.Perform(FreeThread(1));
    assert Stray(s3, table.Now(), 1);
    hide Effect, FreeEffect;
    states := states + [table.Now()];
  }

  /** What a fetch returns: the address of the storage array, or one block. */
  datatype Answer = Whole(entry: nat) | One(slot: Slot)

  function Fetched(e: Entry, s: nat, id: nat): Answer
    requires id <= |e.storage|
  {
    if id == 0 then Whole(s) else One(e.storage[id - 1])
  }

  ghost predicate NoEntry(entries: map<nat, Entry>, t: Thread) {
    forall s <- entries :: entries[s].threadId != t
  }

  /** `e1` is `e0` and one entry more, `s`, of thread `t`. */
  ghost predicate IsNew(e0: map<nat, Entry>, e1: map<nat, Entry>, s: nat, t: Thread) {
    s in e1 && e1 == e0[s := e1[s]] && e1[s].threadId == t
  }

  lemma IsNewMeans(e0: map<nat, Entry>, e1: map<nat, Entry>, s: nat, t: Thread)
    requires s in e1 && e1 == e0[s := e1[s]] && e1[s].threadId == t
    ensures IsNew(e0, e1, s, t)
  {}

  lemma HasEntry(e0: map<nat, Entry>, e1: map<nat, Entry>, s: nat, t: Thread)
    requires IsNew(e0, e1, s, t)
    ensures s in e1 && e1[s].threadId == t && !NoEntry(e1, t)
    ensures NoEntry(e0, t) ==> forall u <- e0 :: e0[u].threadId != t
  {}

  lemma NoEntryMeans(entries: map<nat, Entry>, t: Thread)
    requires NoEntry(entries, t)
    ensures forall s <- entries :: entries[s].threadId != t
  {}

  lemma KeyedInsert(tls: map<Thread, nat>, entries: map<nat, Entry>, t: Thread, s: nat, e: Entry)
    requires Keyed(tls, entries) && s !in entries && e.threadId == t
    ensures Keyed(tls[t := s], entries[s := e])
  {}

  lemma KeyedReplace(tls: map<Thread, nat>, entries: map<nat, Entry>, u: nat, t: Thread, s: nat, e: Entry)
    requires Keyed(tls, entries) && u in entries && entries[u].threadId == t && s !in entries && e.threadId == t
    ensures Keyed(tls[t := s], (entries - {u})[s := e])
  {}

  /** Marking an entry as nobody's changes no life. */
  lemma ForgetThread(entries: map<nat, Entry>, types: seq<Resource>, log: seq<Event>, next: nat, u: nat)
    requires Lives(entries, types, log, next) && u in entries && Shaped(entries[u], u, types, |types|)
    ensures Lives(entries[u := entries[u].(threadId := 0)], types, log, next)
    ensures Matches(entries[u].(threadId := 0), types)
  {
    hide Orderly;
    var e1 := entries[u := entries[u].(threadId := 0)];
    forall s: nat, i: nat ensures Held(e1, s, i) <==> Held(entries, s, i) {}
  }

  lemma MakesForNone(types: seq<Resource>, n: nat)
    ensures forall log: seq<Event> :: log + MakesFor([], types, n) == log
  {}
}
