/** Module ordering and startup: `zend_sort_modules`, `zend_startup_module_ex`,
    `zend_startup_modules` and `zend_collect_module_handlers` in `Zend/zend_API.c`.

    The sort puts dependencies first by swapping one of them to the cursor and trying again;
    that it ends at all, and what order it leaves, both rest on the dependencies having no
    cycle. Startup then walks the sorted registry once and drops what cannot start. */
module Modules {
  import opened Sequences

  /** A module name, folded to lower case as every comparison in the source does. */
  type Name = string

  datatype Kind = Required | Optional | Conflicts

  datatype Dep = Dep(name: Name, kind: Kind)

  class Module {
    const name: Name
    const deps: seq<Dep>
    const requestStartup: bool
    const requestShutdown: bool
    const postDeactivate: bool
    const handle: bool
    var started: bool

    constructor (name: Name, deps: seq<Dep>, requestStartup: bool, requestShutdown: bool,
                 postDeactivate: bool, handle: bool)
      ensures this.name == name && this.deps == deps && !started
      ensures this.requestStartup == requestStartup && this.requestShutdown == requestShutdown
      ensures this.postDeactivate == postDeactivate && this.handle == handle
    {
      this.name, this.deps, this.started := name, deps, false;
      this.requestStartup, this.requestShutdown := requestStartup, requestShutdown;
      this.postDeactivate, this.handle := postDeactivate, handle;
    }
  }

  /** The sort wants `r` before `m`. */
  ghost predicate Wants(m: Module, r: Module) {
    exists d <- m.deps :: d.kind != Conflicts && d.name == r.name
  }

  /** A rank certifies that the dependencies the sort looks at have no cycle. A module that
      names itself does no harm: only later positions are searched. */
  ghost predicate Ranked(modules: seq<Module>, rank: Name -> nat)
    reads modules
  {
    forall m, r :: m in modules && r in modules && !m.started && m.name != r.name && Wants(m, r)
      ==> rank(r.name) < rank(m.name)
  }

  ghost predicate Distinct(modules: seq<Module>) {
    forall i, j :: 0 <= i < j < |modules| ==> modules[i].name != modules[j].name
  }

  /** From the module at `i` on, nothing it wants comes later. */
  ghost predicate Settled(modules: seq<Module>, i: nat)
    requires i < |modules|
    reads modules
  {
    !modules[i].started ==> forall j :: i < j < |modules| ==> !Wants(modules[i], modules[j])
  }

  /** No module that is still to be started precedes one it wants. */
  ghost predicate Ordered(modules: seq<Module>)
    reads modules
  {
    forall i :: 0 <= i < |modules| ==> Settled(modules, i)
  }

  // ----- the sort -----

  ghost function Swapped(s: seq<Module>, i: nat, j: nat): (r: seq<Module>)
    requires i < |s| && j < |s|
    ensures |r| == |s| && r[i] == s[j] && r[j] == s[i]
    ensures forall k :: 0 <= k < |s| && k != i && k != j ==> r[k] == s[k]
  {
    s[i := s[j]][j := s[i]]
  }

  /** What holds at the head of the sorting loop: the modules are those of `was`, and the
      positions before the cursor are settled. */
  ghost predicate Sorting(s: seq<Module>, was: seq<Module>, i: nat, rank: Name -> nat)
    reads s
  {
    && i <= |s|
    && multiset(s) == multiset(was)
    && Distinct(s) && Ranked(s, rank)
    && forall k :: 0 <= k < i ==> Settled(s, k)
  }

  lemma SwapKeeps(s: seq<Module>, was: seq<Module>, i: nat, j: nat, rank: Name -> nat)
    requires i < j < |s| && Sorting(s, was, i, rank)
    ensures Sorting(Swapped(s, i, j), was, i, rank)
  {
    hide Wants, Distinct, Ranked, Settled, Swapped;
    var r := Swapped(s, i, j);
    SwapDistinct(s, i, j);
    SwapRanked(s, i, j, rank);
    forall k | 0 <= k < i ensures Settled(r, k) {
      SwapSettled(s, i, j, k);
    }
  }

  lemma SwapDistinct(s: seq<Module>, i: nat, j: nat)
    requires i < j < |s| && Distinct(s)
    ensures Distinct(Swapped(s, i, j)) && multiset(Swapped(s, i, j)) == multiset(s)
  {}

  lemma SwapRanked(s: seq<Module>, i: nat, j: nat, rank: Name -> nat)
    requires i < j < |s| && Ranked(s, rank)
    ensures Ranked(Swapped(s, i, j), rank)
  {
    hide Wants;
    assert forall m :: m in Swapped(s, i, j) ==> m in s;
  }

  lemma SwapSettled(s: seq<Module>, i: nat, j: nat, k: nat)
    requires k < i < j < |s| && Settled(s, k)
    ensures Settled(Swapped(s, i, j), k)
  {
    hide Wants;
    var r := Swapped(s, i, j);
    forall l | k < l < |r| && !r[k].started ensures !Wants(r[k], r[l]) {
      if l == i { assert r[l] == s[j]; } else if l == j { assert r[l] == s[i]; } else { assert r[l] == s[l]; }
    }
  }

  // ----- the loop as steps -----

  /** The state of the sort at the head of its loop. */
  datatype Stage = Stage(order: seq<Module>, cursor: nat)

  /** `Settled`, by the set of modules that run. */
  ghost predicate SettledBy(s: seq<Module>, i: nat, before: set<Module>)
    requires i < |s|
  {
    s[i] !in before ==> forall j :: i < j < |s| ==> !Wants(s[i], s[j])
  }

  /** One turn of the loop: the cursor moves on if the module there wants none that comes later;
      otherwise one that it wants changes places with it. */
  ghost predicate Turn(a: Stage, b: Stage, before: set<Module>) {
    && a.cursor < |a.order|
    && if SettledBy(a.order, a.cursor, before) then b == Stage(a.order, a.cursor + 1)
       else exists j: nat :: SwapsWith(a, b, j)
  }

  ghost predicate SwapsWith(a: Stage, b: Stage, j: nat) {
    && a.cursor < j < |a.order| && Wants(a.order[a.cursor], a.order[j])
    && b == Stage(Swapped(a.order, a.cursor, j), a.cursor)
  }

  ghost predicate Turns(run: seq<Stage>, before: set<Module>) {
    run != [] && forall k :: 0 <= k < |run| - 1 ==> Turn(run[k], run[k + 1], before)
  }

  /** What every turn keeps, whether there is a rank or not. */
  ghost predicate UpTo(s: Stage, was: seq<Module>)
    reads s.order
  {
    && s.cursor <= |s.order| && multiset(s.order) == multiset(was) && Distinct(s.order)
    && forall k :: 0 <= k < s.cursor ==> Settled(s.order, k)
  }

  lemma SameStarted(s: seq<Module>, r: seq<Module>)
    requires multiset(s) == multiset(r)
    ensures StartedOf(s) == StartedOf(r)
  {
    forall m ensures m in s <==> m in r {
      assert m in multiset(s) <==> m in multiset(r);
    }
  }

  lemma TurnKeeps(a: Stage, b: Stage, was: seq<Module>)
    requires Turn(a, b, StartedOf(was)) && UpTo(a, was)
    ensures UpTo(b, was)
  {
    hide Wants, Distinct, Swapped;
    SameStarted(a.order, was);
    assert SettledBy(a.order, a.cursor, StartedOf(was)) <==> Settled(a.order, a.cursor);
    hide Settled, SettledBy;
    if !Settled(a.order, a.cursor) {
      var j: nat :| SwapsWith(a, b, j);
      SwapDistinct(a.order, a.cursor, j);
      forall k | 0 <= k < a.cursor ensures Settled(b.order, k) {
        SwapSettled(a.order, a.cursor, j, k);
      }
    }
  }

  lemma {:induction false} TurnsKeep(run: seq<Stage>)
    requires run != [] && Turns(run, StartedOf(run[0].order)) && run[0].cursor == 0 && Distinct(run[0].order)
    ensures UpTo(run[|run| - 1], run[0].order)
  {
    hide Distinct, Turn, Settled;
    if |run| > 1 {
      var less := run[..|run| - 1];
      assert forall k :: 0 <= k < |less| ==> less[k] == run[k];
      TurnsKeep(less);
      TurnKeeps(run[|run| - 2], run[|run| - 1], run[0].order);
    }
  }

  /** A run of the loop that gets to the end has sorted, and the dependencies have a rank:
      the order it leaves. So on cyclic dependencies no run ends. */
  lemma SortEndsRanked(run: seq<Stage>)
    requires run != [] && Turns(run, StartedOf(run[0].order)) && run[0].cursor == 0 && Distinct(run[0].order)
    requires run[|run| - 1].cursor == |run[|run| - 1].order|
    ensures Ordered(run[|run| - 1].order)
    ensures Ranked(run[0].order, n => PositionOf(run[|run| - 1].order, n))
  {
    hide Distinct, Turn, Settled;
    TurnsKeep(run);
    OrderNeedsRank(run[0].order, run[|run| - 1].order);
  }

  lemma TurnsMore(run: seq<Stage>, b: Stage, before: set<Module>)
    requires Turns(run, before) && Turn(run[|run| - 1], b, before)
    ensures Turns(run + [b], before)
  {
    hide Turn;
  }

  lemma OneTurn(run: seq<Stage>, before: set<Module>)
    requires |run| == 1
    ensures Turns(run, before)
  {}

  lemma MovesOn(s: seq<Module>, i: nat)
    requires i < |s| && Settled(s, i)
    ensures Turn(Stage(s, i), Stage(s, i + 1), StartedOf(s))
  {}

  lemma SwapIsTurn(s: seq<Module>, i: nat, j: nat, d: nat)
    requires i < j < |s| && !s[i].started && d < |s[i].deps| && Names(s[i].deps[d], s[j])
    ensures Turn(Stage(s, i), Stage(Swapped(s, i, j), i), StartedOf(s))
    ensures StartedOf(Swapped(s, i, j)) == StartedOf(s)
  {
    hide Swapped;
    assert s[i].deps[d] in s[i].deps;
    assert SwapsWith(Stage(s, i), Stage(Swapped(s, i, j), i), j);
    assert multiset(Swapped(s, i, j)) == multiset(s) by { SwapMultiset(s, i, j); }
    SameStarted(s, Swapped(s, i, j));
  }

  lemma SwapMultiset(s: seq<Module>, i: nat, j: nat)
    requires i < j < |s|
    ensures multiset(Swapped(s, i, j)) == multiset(s)
  {}

  /** The position after `i` of a module that the one at `i` wants: for its first dependency
      that has one, the first such position. */
  method FindWanted(a: array<Module>, i: nat) returns (j: nat, ghost d: nat)
    requires i < a.Length
    ensures i < j <= a.Length
    ensures j < a.Length ==> d < |a[i].deps| && Names(a[i].deps[d], a[j])
    ensures j == a.Length ==> forall e, l :: 0 <= e < |a[i].deps| && i < l < a.Length ==> !Names(a[i].deps[e], a[l])
  {
    var m := a[i];
    for n := 0 to |m.deps|
      invariant forall e, l :: 0 <= e < n && i < l < a.Length ==> !Names(m.deps[e], a[l])
    {
      var dep := m.deps[n];
      if dep.kind == Required || dep.kind == Optional {
        j := i + 1;
        while j < a.Length
          invariant i < j <= a.Length
          invariant forall l :: i < l < j ==> !Names(dep, a[l])
        {
          var r := a[j];
          if dep.name == r.name { return j, n; }
          j := j + 1;
        }
      }
    }
    return a.Length, 0;
  }

  /** Sorting in place. The measure is the number of positions left, then the rank of the
      module at the cursor: trying again always tries a module of smaller rank. */
  method SortModules(a: array<Module>, ghost rank: Name -> nat) returns (ghost run: seq<Stage>)
    requires Distinct(a[..]) && Ranked(a[..], rank)
    modifies a
    ensures multiset(a[..]) == multiset(old(a[..]))
    ensures Distinct(a[..]) && Ordered(a[..])
    ensures Turns(run, old(StartedOf(a[..]))) && run[0] == Stage(old(a[..]), 0) && run[|run| - 1] == Stage(a[..], a.Length)
  {
    hide *;
    ghost var was := a[..];
    SortingStart(was, rank);
    var i := 0;
    run := [Stage(was, 0)];
    ghost var before := StartedOf(was);
    OneTurn(run, before);
    label tryAgain:
    while i < a.Length
      invariant 0 <= i <= a.Length && Sorting(a[..], was, i, rank)
      invariant before == StartedOf(a[..])
      invariant run != [] && Turns(run, before) && run[0] == Stage(was, 0) && run[|run| - 1] == Stage(a[..], i)
      decreases a.Length - i, if i < a.Length then rank(a[i].name) else 0
    {
      ghost var s := a[..];
      assert run[|run| - 1] == Stage(s, i);
      if !a[i].started {
        var j, d := FindWanted(a, i);
        if j < a.Length {
          WantedLower(s, was, i, j, rank, d);
          SwapKeeps(s, was, i, j, rank);
          SwapIsTurn(s, i, j, d);
          TurnsMore(run, Stage(Swapped(s, i, j), i), before);
          run := run + [Stage(Swapped(s, i, j), i)];
          a[i], a[j] := a[j], a[i];
          assert a[..] == Swapped(s, i, j);
          continue tryAgain;
        }
      }
      NothingLater(s, was, i, rank);
      SettledAt(s, was, i, rank);
      MovesOn(s, i);
      TurnsMore(run, Stage(s, i + 1), before);
      run := run + [Stage(s, i + 1)];
      i := i + 1;
    }
    SortingDone(a[..], was, rank);
  }

  lemma SortingStart(s: seq<Module>, rank: Name -> nat)
    requires Distinct(s) && Ranked(s, rank)
    ensures Sorting(s, s, 0, rank)
  {}

  lemma SortingDone(s: seq<Module>, was: seq<Module>, rank: Name -> nat)
    requires Sorting(s, was, |s|, rank)
    ensures multiset(s) == multiset(was) && Distinct(s) && Ordered(s)
  {
    hide Settled;
  }

  predicate Names(d: Dep, r: Module) {
    d.kind != Conflicts && d.name == r.name
  }

  lemma WantedLower(s: seq<Module>, was: seq<Module>, i: nat, j: nat, rank: Name -> nat, d: nat)
    requires i < j < |s| && Sorting(s, was, i, rank) && !s[i].started
    requires d < |s[i].deps| && Names(s[i].deps[d], s[j])
    ensures rank(s[j].name) < rank(s[i].name)
  {
    assert s[i].deps[d] in s[i].deps;
    assert Wants(s[i], s[j]);
  }

  lemma SettledAt(s: seq<Module>, was: seq<Module>, i: nat, rank: Name -> nat)
    requires i < |s| && Sorting(s, was, i + 1, rank)
    ensures Settled(s, i)
  {}

  lemma NothingLater(s: seq<Module>, was: seq<Module>, i: nat, rank: Name -> nat)
    requires i < |s| && Sorting(s, was, i, rank)
    requires !s[i].started ==>
      forall e, j :: 0 <= e < |s[i].deps| && i < j < |s| ==> !Names(s[i].deps[e], s[j])
    ensures Sorting(s, was, i + 1, rank)
  {
    if !s[i].started {
      forall j | i < j < |s| ensures !Wants(s[i], s[j]) {
        forall d <- s[i].deps ensures !(d.kind != Conflicts && d.name == s[j].name) {
          var e :| 0 <= e < |s[i].deps| && s[i].deps[e] == d;
          assert !Names(s[i].deps[e], s[j]);
        }
      }
    }
  }

  // ----- when there is an order at all -----

  /** The rank of a name is its position. */
  function PositionOf(modules: seq<Module>, name: Name): (p: nat)
    ensures p <= |modules|
    ensures p < |modules| ==> modules[p].name == name
    ensures forall k :: 0 <= k < p ==> modules[k].name != name
  {
    if modules == [] then 0
    else if modules[0].name == name then 0
    else PositionOf(modules[1..], name) + 1
  }

  /** The order the sort promises exists for no other dependencies: where it holds, positions
      are a rank. So the sort cannot end on cyclic dependencies, and ends on all others. */
  lemma OrderedIsRanked(modules: seq<Module>)
    requires Distinct(modules) && Ordered(modules)
    ensures Ranked(modules, n => PositionOf(modules, n))
  {
    hide Wants;
    var rank := n => PositionOf(modules, n);
    forall m, r | m in modules && r in modules && !m.started && m.name != r.name && Wants(m, r)
      ensures rank(r.name) < rank(m.name)
    {
      var p, q := PositionOf(modules, m.name), PositionOf(modules, r.name);
      var i :| 0 <= i < |modules| && modules[i] == m;
      var j :| 0 <= j < |modules| && modules[j] == r;
      assert p == i && q == j;
      assert Settled(modules, i);
    }
  }

  /** Ranks carry over to any arrangement of the same modules. */
  lemma RankedAnyOrder(s: seq<Module>, r: seq<Module>, rank: Name -> nat)
    requires multiset(s) == multiset(r) && Ranked(r, rank)
    ensures Ranked(s, rank)
  {
    hide Wants;
    forall m ensures m in r <==> m in s {
      assert m in multiset(r) <==> m in multiset(s);
    }
  }

  /** Where the sort's promise can be met at all, the dependencies have a rank. */
  lemma OrderNeedsRank(modules: seq<Module>, sorted: seq<Module>)
    requires Distinct(sorted) && multiset(sorted) == multiset(modules) && Ordered(sorted)
    ensures Ranked(modules, n => PositionOf(sorted, n))
  {
    OrderedIsRanked(sorted);
    RankedAnyOrder(modules, sorted, n => PositionOf(sorted, n));
  }

  /** Two modules that want each other: in either arrangement the first wants the second, and
      the swap leads to the other arrangement. So the sort swaps them for ever. */
  lemma CycleTurns(m: Module, r: Module, rank: Name -> nat)
    requires m.name != r.name && !m.started && !r.started && Wants(m, r) && Wants(r, m)
    ensures !Settled([m, r], 0) && Swapped([m, r], 0, 1) == [r, m]
    ensures !Settled([r, m], 0) && Swapped([r, m], 0, 1) == [m, r]
    ensures !Ranked([m, r], rank) && !Ranked([r, m], rank)
  {
    hide Wants;
    assert [m, r][0] == m && [m, r][1] == r && [r, m][0] == r && [r, m][1] == m;
    assert m in [m, r] && r in [m, r] && m in [r, m] && r in [r, m];
  }

  /** Such a pair. */
  method MutualPair() returns (m: Module, r: Module)
    ensures m.name != r.name && !m.started && !r.started && Wants(m, r) && Wants(r, m)
  {
    var needsB, needsA := Dep("b", Required), Dep("a", Optional);
    m := new Module("a", [needsB], false, false, false, false);
    r := new Module("b", [needsA], false, false, false, false);
    assert "a"[0] != "b"[0];
    assert needsB in m.deps && needsA in r.deps;
  }

  /** A module that requires itself starts, although nothing it requires runs. */
  method SelfRequired() returns (m: Module, ok: bool)
    ensures ok && m.started && exists d <- m.deps :: d.kind == Required && d.name == m.name
  {
    var needsA := Dep("a", Required);
    m := new Module("a", [needsA], false, false, false, false);
    var registry := new Registry([m]);
    assert needsA in m.deps;
    ok := registry.StartupModule(m);
  }

  // ----- startup -----

  /** Some module of `modules` has the name. */
  ghost predicate Has(modules: seq<Module>, name: Name) {
    exists r <- modules :: r.name == name
  }

  /** Every module that `m` requires, other than itself, is in `modules`. */
  ghost predicate RequiredIn(m: Module, modules: seq<Module>) {
    forall d <- m.deps :: d.kind == Required && d.name != m.name ==> Has(modules, d.name)
  }

  /** The modules, of the first `n` in order, that stay: those started before, and those
      whose requirements have stayed by the time their turn comes. */
  ghost function Kept(modules: seq<Module>, before: set<Module>, n: nat): (r: seq<Module>)
    requires n <= |modules|
  {
    if n == 0 then [] else
    var k := Kept(modules, before, n - 1);
    k + if modules[n - 1] in before || RequiredIn(modules[n - 1], k) then [modules[n - 1]] else []
  }

  ghost function NotIn(modules: seq<Module>, before: set<Module>): (r: seq<Module>)
    ensures forall m <- r :: m in modules && m !in before
    ensures forall m <- modules :: m in before || m in r
  {
    if modules == [] then [] else
    NotIn(modules[..|modules| - 1], before) +
      if modules[|modules| - 1] in before then [] else [modules[|modules| - 1]]
  }

  class Registry {
    /** In hash order; names are unique keys. */
    var modules: seq<Module>
    /** The modules whose startup ran, in order. */
    var log: seq<Module>

    constructor (modules: seq<Module>)
      ensures this.modules == modules && log == []
    {
      this.modules, this.log := modules, [];
    }

    /** Lookup by lower-case name. */
    method Find(name: Name) returns (r: Module?)
      ensures r == null <==> !Has(modules, name)
      ensures r != null ==> r in modules && r.name == name
    {
      var p := PositionOf(modules, name);
      if p < |modules| {
        r := modules[p];
      } else {
        r := null;
        forall m <- modules ensures m.name != name {
          var k :| 0 <= k < |modules| && modules[k] == m;
        }
      }
    }

    /** Starts one module unless it runs already. It is marked as started while its
        requirements are checked, so requiring itself is no obstacle. */
    method StartupModule(m: Module) returns (ok: bool)
      requires m in modules && Distinct(modules)
      modifies m, this`log
      ensures ok <==> old(m.started) || RequiredRuns(m, old(StartedOf(modules)))
      ensures m.started == ok
      ensures log == old(log) + if ok && !old(m.started) then [m] else []
    {
      hide Distinct, Has;
      if m.started { return true; }
      ghost var running := StartedOf(modules);
      m.started := true;
      for n := 0 to |m.deps|
        invariant m.started && log == old(log)
        invariant forall e :: 0 <= e < n && m.deps[e].kind == Required && m.deps[e].name != m.name ==>
          exists r <- running :: r.name == m.deps[e].name
      {
        var dep := m.deps[n];
        if dep.kind == Required {
          var r := Find(dep.name);
          OnlyOne(modules, dep.name, r, m);
          if r == null || !r.started {
            m.started := false;
            assert dep in m.deps;
            return false;
          }
          if dep.name != m.name { assert r in running; }
        }
      }
      log := log + [m];
      ok := true;
    }

    /** One turn of the startup walk, told by the set of modules that run. */
    method TakeTurn(m: Module, ghost sorted: seq<Module>) returns (ok: bool)
      requires m in modules && m in sorted && Distinct(modules)
      requires StartedOf(modules) == StartedOf(sorted)
      modifies m, this`log
      ensures ok <==> m in old(StartedOf(sorted)) || RequiredRuns(m, old(StartedOf(sorted)))
      ensures StartedOf(sorted) == if ok then old(StartedOf(sorted)) + {m} else old(StartedOf(sorted)) - {m}
      ensures log == old(log) + if ok && m !in old(StartedOf(sorted)) then [m] else []
    {
      hide Distinct, RequiredRuns;
      ghost var now := StartedOf(sorted);
      StartedNow(sorted, m);
      ok := StartupModule(m);
      assert StartedOf(sorted) == if ok then now + {m} else now - {m};
    }

    /** Sorts the registry, then starts every module in turn and removes those that fail. */
    method StartupModules(ghost rank: Name -> nat)
      requires Distinct(modules) && Ranked(modules, rank)
      modifies this, modules
      ensures Distinct(modules) && forall m <- modules :: m in old(modules)
      ensures forall m <- old(modules) ::
        (m in modules <==> old(m.started) || RequiredIn(m, modules)) && (m.started <==> m in modules)
      ensures log == old(log) + NotIn(modules, old(StartedOf(modules)))
      ensures InOrder(NotIn(modules, old(StartedOf(modules))), old(StartedOf(modules)))
    {
      hide *;
      ghost var before := StartedOf(modules);
      StartedEach(modules);
      var all := modules;
      var a := new Module[|all|](i requires 0 <= i < |all| => all[i]);
      assert a[..] == modules;
      ghost var run := SortModules(a, rank);
      ghost var sorted := a[..];
      SortedStart(old(modules), sorted, before);
      modules := a[..];
      ghost var p := 0;
      var i := 0;
      while i < |modules|
        invariant forall x :: x in sorted <==> x in all
        invariant Distinct(sorted) && OrderedBy(sorted, before)
        invariant p <= |sorted| && i == |Kept(sorted, before, p)|
        invariant modules == Left(sorted, before, p)
        invariant StartedOf(sorted) == Running(sorted, before, p)
        invariant log == old(log) + NotIn(Kept(sorted, before, p), before)
        decreases |sorted| - p
      {
        LeftLength(sorted, before, p);
        LeftStep(sorted, before, p);
        var m := modules[i];
        assert m in sorted && m in all;
        StartedLeft(sorted, before, p);
        RunningStep(sorted, before, p);
        var ok := TakeTurn(m, sorted);
        if ok {
          i := i + 1;
        } else {
          modules := modules[..i] + modules[i + 1..];
        }
        p := p + 1;
      }
      LeftLength(sorted, before, p);
      StartupEnds(sorted, before);
    }
  }

  ghost function StartedOf(modules: seq<Module>): set<Module>
    reads modules
  {
    set m | m in modules && m.started
  }

  /** Every module that `m` requires, other than itself, runs. */
  ghost predicate RequiredRuns(m: Module, running: set<Module>) {
    forall d <- m.deps :: d.kind == Required && d.name != m.name ==> exists r <- running :: r.name == d.name
  }

  /** Every module comes after the modules it requires, if those do not run already. */
  ghost predicate InOrder(run: seq<Module>, before: set<Module>) {
    forall i :: 0 <= i < |run| ==>
      forall d <- run[i].deps :: d.kind == Required && d.name != run[i].name ==>
        (exists r <- before :: r.name == d.name) || Has(run[..i], d.name)
  }

  // ----- the startup walk, on values -----

  /** `Ordered`, by the set of modules that ran when the sort was done. */
  ghost predicate OrderedBy(sorted: seq<Module>, before: set<Module>) {
    forall i :: 0 <= i < |sorted| ==> SettledBy(sorted, i, before)
  }

  /** The module at `p` stays. */
  ghost predicate Stays(sorted: seq<Module>, before: set<Module>, p: nat)
    requires p < |sorted|
  {
    sorted[p] in before || RequiredIn(sorted[p], Kept(sorted, before, p))
  }

  /** The registry after `p` turns. */
  ghost function Left(sorted: seq<Module>, before: set<Module>, p: nat): seq<Module>
    requires p <= |sorted|
  {
    Kept(sorted, before, p) + sorted[p..]
  }

  /** What runs after `p` turns. */
  ghost function Running(sorted: seq<Module>, before: set<Module>, p: nat): set<Module>
    requires p <= |sorted|
  {
    (set m | m in Kept(sorted, before, p)) + (set m | m in sorted[p..] && m in before)
  }

  lemma SortedStart(was: seq<Module>, sorted: seq<Module>, before: set<Module>)
    requires multiset(sorted) == multiset(was) && before == StartedOf(was)
    requires Ordered(sorted)
    ensures forall m :: m in sorted <==> m in was
    ensures OrderedBy(sorted, before)
    ensures Left(sorted, before, 0) == sorted && Kept(sorted, before, 0) == [] && NotIn([], before) == []
    ensures StartedOf(sorted) == Running(sorted, before, 0)
  {
    hide Wants;
    forall m ensures m in sorted <==> m in was {
      assert m in multiset(sorted) <==> m in multiset(was);
    }
    forall i, j | 0 <= i < j < |sorted| && sorted[i] !in before ensures !Wants(sorted[i], sorted[j]) {
      assert sorted[i] in sorted;
      assert Settled(sorted, i);
    }
    assert sorted[0..] == sorted;
  }

  /** Members kept come from the positions already passed. */
  lemma {:induction false} KeptFrom(sorted: seq<Module>, before: set<Module>, n: nat)
    requires n <= |sorted|
    ensures forall m <- Kept(sorted, before, n) :: m in sorted[..n]
  {
    hide RequiredIn;
    if n > 0 {
      KeptFrom(sorted, before, n - 1);
      assert sorted[..n] == sorted[..n - 1] + [sorted[n - 1]];
    }
  }

  /** Kept modules stay kept, in place. */
  lemma {:induction false} KeptGrows(sorted: seq<Module>, before: set<Module>, p: nat, n: nat)
    requires p <= n <= |sorted|
    ensures Kept(sorted, before, p) <= Kept(sorted, before, n)
    decreases n
  {
    hide RequiredIn;
    if p < n { KeptGrows(sorted, before, p, n - 1); }
  }

  lemma NotSeen(sorted: seq<Module>, before: set<Module>, p: nat)
    requires p < |sorted| && Distinct(sorted)
    ensures sorted[p] !in Kept(sorted, before, p)
  {
    hide Kept;
    KeptFrom(sorted, before, p);
    forall k | 0 <= k < p ensures sorted[..p][k] != sorted[p] {}
  }

  lemma LeftLength(sorted: seq<Module>, before: set<Module>, p: nat)
    requires p <= |sorted|
    ensures |Left(sorted, before, p)| == |Kept(sorted, before, p)| + |sorted| - p
  {}

  /** One turn: the module at the cursor is kept in place or removed. */
  lemma LeftStep(sorted: seq<Module>, before: set<Module>, p: nat)
    requires p < |sorted|
    ensures |Kept(sorted, before, p)| < |Left(sorted, before, p)|
    ensures Left(sorted, before, p)[|Kept(sorted, before, p)|] == sorted[p]
    ensures Stays(sorted, before, p) ==>
      && Left(sorted, before, p + 1) == Left(sorted, before, p)
      && |Kept(sorted, before, p + 1)| == |Kept(sorted, before, p)| + 1
    ensures !Stays(sorted, before, p) ==>
      var i := |Kept(sorted, before, p)|;
      && Left(sorted, before, p + 1) == Left(sorted, before, p)[..i] + Left(sorted, before, p)[i + 1..]
      && |Kept(sorted, before, p + 1)| == i
    ensures NotIn(Kept(sorted, before, p + 1), before) == NotIn(Kept(sorted, before, p), before) +
      if Stays(sorted, before, p) && sorted[p] !in before then [sorted[p]] else []
  {
    hide Kept, Stays, NotIn;
    LeftLength(sorted, before, p);
    KeptStep(sorted, before, p);
    var k := Kept(sorted, before, p);
    NotInSame(k, before);
    if Stays(sorted, before, p) {
      assert k + [sorted[p]] + sorted[p + 1..] == k + sorted[p..];
      NotInStep(k, before, sorted[p]);
    } else {
      RemoveAt(k, sorted[p..]);
      assert sorted[p..][1..] == sorted[p + 1..];
    }
  }

  lemma NotInSame(k: seq<Module>, before: set<Module>)
    ensures k + [] == k && NotIn(k, before) + [] == NotIn(k, before)
  {}

  lemma RemoveAt(k: seq<Module>, rest: seq<Module>)
    requires rest != []
    ensures (k + rest)[..|k|] + (k + rest)[|k| + 1..] == k + rest[1..]
  {}

  lemma NotInStep(k: seq<Module>, before: set<Module>, m: Module)
    ensures NotIn(k + [m], before) == NotIn(k, before) + if m in before then [] else [m]
  {
    assert (k + [m])[..|k|] == k;
  }

  /** What runs among those left is what runs among all, and their names are distinct. */
  lemma StartedLeft(sorted: seq<Module>, before: set<Module>, p: nat)
    requires p <= |sorted| && Distinct(sorted)
    requires StartedOf(sorted) == Running(sorted, before, p)
    ensures StartedOf(Left(sorted, before, p)) == Running(sorted, before, p)
    ensures Distinct(Left(sorted, before, p))
  {
    hide Kept;
    KeptFrom(sorted, before, p);
    LeftDistinct(sorted, before, p);
    var left := Left(sorted, before, p);
    forall m | m in left ensures m in sorted {
      if m in sorted[..p] {} else {}
    }
    forall m | m in Running(sorted, before, p) ensures m in left {}
  }

  lemma {:induction false} LeftDistinct(sorted: seq<Module>, before: set<Module>, p: nat)
    requires p <= |sorted| && Distinct(sorted)
    ensures Distinct(Left(sorted, before, p))
  {
    hide Kept, Left, Distinct, Stays, NotIn;
    if p == 0 {
      KeptNone(sorted, before);
    } else {
      LeftDistinct(sorted, before, p - 1);
      LeftStep(sorted, before, p - 1);
      if !Stays(sorted, before, p - 1) {
        RemovedDistinct(Left(sorted, before, p - 1), |Kept(sorted, before, p - 1)|);
      }
    }
  }

  lemma RemovedDistinct(s: seq<Module>, i: nat)
    requires i < |s| && Distinct(s)
    ensures Distinct(s[..i] + s[i + 1..])
  {}

  lemma KeptNone(sorted: seq<Module>, before: set<Module>)
    ensures Left(sorted, before, 0) == sorted
  {}

  /** The turn decides by what runs now; that is the same as asking who was kept. */
  lemma RunningStep(sorted: seq<Module>, before: set<Module>, p: nat)
    requires p < |sorted| && Distinct(sorted) && OrderedBy(sorted, before)
    ensures var (m, now) := (sorted[p], Running(sorted, before, p));
      && (m in now <==> m in before)
      && (m in before || RequiredRuns(m, now) <==> Stays(sorted, before, p))
      && Running(sorted, before, p + 1) == (if Stays(sorted, before, p) then now + {m} else now - {m})
  {
    hide Kept, Distinct, OrderedBy;
    var m, now := sorted[p], Running(sorted, before, p);
    NotSeen(sorted, before, p);
    if m !in before { RunsMeansKept(sorted, before, p); }
    KeptStep(sorted, before, p);
    assert sorted[p..] == [m] + sorted[p + 1..];
    assert m !in sorted[p + 1..] by { NotLater(sorted, p); }
    assert Running(sorted, before, p + 1) == (if Stays(sorted, before, p) then now + {m} else now - {m});
  }

  lemma KeptStep(sorted: seq<Module>, before: set<Module>, p: nat)
    requires p < |sorted|
    ensures Kept(sorted, before, p + 1) ==
      Kept(sorted, before, p) + if Stays(sorted, before, p) then [sorted[p]] else []
  {}

  lemma NotLater(sorted: seq<Module>, p: nat)
    requires p < |sorted| && Distinct(sorted)
    ensures sorted[p] !in sorted[p + 1..]
  {
    var later := sorted[p + 1..];
    forall k | 0 <= k < |later| ensures later[k] != sorted[p] {
      assert later[k] == sorted[p + 1 + k];
    }
  }

  lemma RunsMeansKept(sorted: seq<Module>, before: set<Module>, p: nat)
    requires p < |sorted| && Distinct(sorted) && OrderedBy(sorted, before) && sorted[p] !in before
    ensures RequiredRuns(sorted[p], Running(sorted, before, p)) <==> RequiredIn(sorted[p], Kept(sorted, before, p))
  {
    hide Kept, Distinct;
    var m, now, kept := sorted[p], Running(sorted, before, p), Kept(sorted, before, p);
    forall d <- m.deps | d.kind == Required && d.name != m.name
      ensures Has(kept, d.name) <==> exists r <- now :: r.name == d.name
    {
      if r :| r in now && r.name == d.name && r !in kept {
        WantedEarlier(sorted, before, p, r, d);
      }
    }
  }

  lemma WantedEarlier(sorted: seq<Module>, before: set<Module>, p: nat, r: Module, d: Dep)
    requires p < |sorted| && OrderedBy(sorted, before) && sorted[p] !in before
    requires d in sorted[p].deps && d.kind != Conflicts && d.name == r.name != sorted[p].name
    ensures r !in sorted[p..]
  {
    assert SettledBy(sorted, p, before) && Wants(sorted[p], r);
    forall k | 0 <= k < |sorted| - p ensures sorted[p..][k] != r {
      assert sorted[p..][k] == sorted[p + k];
    }
  }

  lemma StartedEach(modules: seq<Module>)
    ensures forall m <- modules :: m.started <==> m in StartedOf(modules)
  {}

  lemma StartedNow(sorted: seq<Module>, m: Module)
    requires m in sorted
    ensures m.started <==> m in StartedOf(sorted)
  {}

  /** What the walk leaves is the solution of the source's rule. */
  lemma StartupEnds(sorted: seq<Module>, before: set<Module>)
    requires Distinct(sorted) && OrderedBy(sorted, before)
    requires StartedOf(sorted) == Running(sorted, before, |sorted|)
    ensures var kept := Kept(sorted, before, |sorted|);
      && Left(sorted, before, |sorted|) == kept
      && (forall m <- sorted :: m.started <==> m in kept)
      && (forall m <- sorted :: m in kept <==> m in before || RequiredIn(m, kept))
      && (forall m <- kept :: m in sorted)
      && Distinct(kept)
      && InOrder(NotIn(kept, before), before)
  {
    hide Kept, Distinct, OrderedBy, RequiredIn, InOrder;
    var n := |sorted|;
    var kept := Kept(sorted, before, n);
    LeftDistinct(sorted, before, n);
    assert Left(sorted, before, n) == kept;
    KeptFrom(sorted, before, n);
    assert sorted[..n] == sorted;
    forall m <- sorted ensures m in kept <==> m in before || RequiredIn(m, kept) {
      var p :| 0 <= p < n && sorted[p] == m;
      StaysMeans(sorted, before, p);
    }
    forall m <- sorted ensures m.started <==> m in kept {
      StartedNow(sorted, m);
      assert m in Running(sorted, before, n) <==> m in kept;
    }
    RunInOrder(sorted, before, n);
  }

  lemma StaysMeans(sorted: seq<Module>, before: set<Module>, p: nat)
    requires p < |sorted| && Distinct(sorted) && OrderedBy(sorted, before)
    ensures var kept := Kept(sorted, before, |sorted|);
      sorted[p] in kept <==> sorted[p] in before || RequiredIn(sorted[p], kept)
  {
    hide Kept, Distinct, OrderedBy, RequiredIn;
    KeptStays(sorted, before, p, |sorted|);
    if sorted[p] !in before { RequiredEarlier(sorted, before, p); }
  }

  lemma {:induction false} KeptStays(sorted: seq<Module>, before: set<Module>, p: nat, n: nat)
    requires p < n <= |sorted| && Distinct(sorted)
    ensures sorted[p] in Kept(sorted, before, n) <==> Stays(sorted, before, p)
    decreases n
  {
    hide Kept, Stays, Distinct;
    KeptStep(sorted, before, n - 1);
    if p == n - 1 {
      NotSeen(sorted, before, p);
    } else {
      KeptStays(sorted, before, p, n - 1);
      NotLater(sorted, p);
      assert sorted[n - 1] in sorted[p + 1..];
    }
  }

  lemma RequiredEarlier(sorted: seq<Module>, before: set<Module>, p: nat)
    requires p < |sorted| && OrderedBy(sorted, before) && sorted[p] !in before
    ensures RequiredIn(sorted[p], Kept(sorted, before, p)) <==> RequiredIn(sorted[p], Kept(sorted, before, |sorted|))
  {
    hide Kept, OrderedBy;
    var m, k, kept := sorted[p], Kept(sorted, before, p), Kept(sorted, before, |sorted|);
    KeptGrows(sorted, before, p, |sorted|);
    forall d <- m.deps | d.kind == Required && d.name != m.name ensures Has(k, d.name) <==> Has(kept, d.name) {
      if r :| r in kept && r.name == d.name {
        WantedEarlier(sorted, before, p, r, d);
        KeptBefore(sorted, before, p, |sorted|, r);
      }
      if r :| r in k && r.name == d.name {
        assert r in kept;
      }
    }
  }

  lemma {:induction false} KeptBefore(sorted: seq<Module>, before: set<Module>, p: nat, n: nat, r: Module)
    requires p <= n <= |sorted| && r in Kept(sorted, before, n) && r !in sorted[p..]
    ensures r in Kept(sorted, before, p)
    decreases n
  {
    hide Kept, Stays;
    if p < n {
      KeptStep(sorted, before, n - 1);
      assert sorted[p..][n - 1 - p] == sorted[n - 1];
      KeptBefore(sorted, before, p, n - 1, r);
    }
  }

  lemma {:induction false} RunInOrder(sorted: seq<Module>, before: set<Module>, n: nat)
    requires n <= |sorted|
    ensures InOrder(NotIn(Kept(sorted, before, n), before), before)
  {
    hide RequiredIn, InOrder, Kept, NotIn;
    if n == 0 {
      NoneInOrder(sorted, before);
    } else {
      RunInOrder(sorted, before, n - 1);
      var k, m := Kept(sorted, before, n - 1), sorted[n - 1];
      KeptStep(sorted, before, n - 1);
      assert k + [] == k && NotIn(k, before) + [] == NotIn(k, before);
      if Stays(sorted, before, n - 1) {
        NotInStep(k, before, m);
        if m !in before { OneMoreInOrder(k, before, m); }
      }
    }
  }

  lemma NoneInOrder(sorted: seq<Module>, before: set<Module>)
    ensures InOrder(NotIn(Kept(sorted, before, 0), before), before)
  {}

  lemma OneMoreInOrder(k: seq<Module>, before: set<Module>, m: Module)
    requires InOrder(NotIn(k, before), before) && RequiredIn(m, k)
    ensures InOrder(NotIn(k, before) + [m], before)
  {
    var run := NotIn(k, before);
    var more := run + [m];
    assert more[..|run|] == run;
    forall i, d | 0 <= i < |more| && d in more[i].deps && d.kind == Required && d.name != more[i].name
      ensures (exists r <- before :: r.name == d.name) || Has(more[..i], d.name)
    {
      if i < |run| {
        assert more[..i] == run[..i] && more[i] == run[i];
      } else {
        var r :| r in k && r.name == d.name;
        assert r in before || r in run;
      }
    }
  }

  /** Names are unique, so what a lookup finds is the only candidate. */
  lemma OnlyOne(modules: seq<Module>, name: Name, r: Module?, m: Module)
    requires Distinct(modules) && m in modules
    requires r == null <==> !Has(modules, name)
    requires r != null ==> r in modules && r.name == name
    ensures forall x <- modules :: x.name == name ==> x == r
    ensures name == m.name ==> r == m
  {
    forall x <- modules | x.name == name ensures x == r {
      if r != null {
        var i :| 0 <= i < |modules| && modules[i] == x;
        var j :| 0 <= j < |modules| && modules[j] == r;
      }
    }
  }

  /** `kept` follows the rule: it holds a module exactly if it ran before or all it requires
      is in `kept` too. */
  ghost predicate Rule(modules: seq<Module>, before: set<Module>, kept: seq<Module>) {
    && (forall m <- kept :: m in modules)
    && forall m <- modules :: m in kept <==> m in before || RequiredIn(m, kept)
  }

  /** Without cycles the rule has one solution, so `StartupModules` says exactly which
      modules stay. */
  lemma {:induction false} OneSolution(modules: seq<Module>, before: set<Module>, rank: Name -> nat,
                                       x: seq<Module>, y: seq<Module>, m: Module)
    requires Distinct(modules) && Rule(modules, before, x) && Rule(modules, before, y) && m in modules
    requires forall a, b :: a in modules && b in modules && a !in before && a.name != b.name && Wants(a, b) ==>
      rank(b.name) < rank(a.name)
    ensures m in x <==> m in y
    decreases rank(m.name)
  {
    hide Distinct;
    if m !in before {
      forall d <- m.deps | d.kind == Required && d.name != m.name ensures Has(x, d.name) <==> Has(y, d.name) {
        forall r <- modules | r.name == d.name ensures r in x <==> r in y {
          assert Wants(m, r);
          OneSolution(modules, before, rank, x, y, r);
        }
      }
    }
  }

  // ----- handlers -----

  /** The members with property `f`, in order. */
  ghost function Sub<T>(s: seq<T>, f: T -> bool): (r: seq<T>) {
    if s == [] then [] else
    Sub(s[..|s| - 1], f) + if f(s[|s| - 1]) then [s[|s| - 1]] else []
  }

  /** Each member with the property as often as before, none without it. */
  lemma {:induction false} SubExact<T>(s: seq<T>, f: T -> bool, x: T)
    ensures multiset(Sub(s, f))[x] == if f(x) then multiset(s)[x] else 0
  {
    if s != [] {
      var less, y := s[..|s| - 1], s[|s| - 1];
      SubExact(less, f, x);
      assert s == less + [y];
    }
  }

  /** In the order they were in. */
  lemma {:induction false} SubJoin<T>(s: seq<T>, t: seq<T>, f: T -> bool)
    ensures Sub(s + t, f) == Sub(s, f) + Sub(t, f)
  {
    if t == [] {
      assert s + t == s;
    } else {
      var less := t[..|t| - 1];
      SubJoin(s, less, f);
      assert (s + t)[..|s + t| - 1] == s + less;
    }
  }

  lemma SubStep<T>(s: seq<T>, i: nat, f: T -> bool)
    requires i < |s|
    ensures Sub(s[..i + 1], f) == Sub(s[..i], f) + if f(s[i]) then [s[i]] else []
  {
    assert s[..i + 1][..i] == s[..i];
  }

  lemma {:induction false} SubBound<T>(s: seq<T>, i: nat, f: T -> bool)
    requires i <= |s|
    ensures |Sub(s[..i], f)| <= |Sub(s, f)|
    decreases |s|
  {
    if i < |s| {
      SubBound(s[..|s| - 1], i, f);
      assert s[..|s| - 1][..i] == s[..i];
    } else {
      assert s[..i] == s;
    }
  }

  predicate Starts(m: Module) { m.requestStartup }

  predicate Shuts(m: Module) { m.requestShutdown }

  predicate Posts(m: Module) { m.postDeactivate }

  predicate Loaded(m: Module) { m.handle }

  /** The shared block while it is filled: room for `st`, `sh` and `po` handlers, of which
      `x`, `y` and `z` have been entered, the last two lists from their ends. */
  ghost predicate Filling(b: seq<Module?>, st: nat, sh: nat, po: nat, x: seq<Module>, y: seq<Module>, z: seq<Module>) {
    && |x| <= st && |y| <= sh && |z| <= po && |b| == st + sh + po + 3
    && b[..|x|] == x && b[st] == null
    && b[st + 1 + sh - |y|..st + 1 + sh] == Backwards(y) && b[st + 1 + sh] == null
    && b[st + sh + 2 + po - |z|..st + sh + 2 + po] == Backwards(z) && b[st + sh + 2 + po] == null
  }

  lemma FillStart(b: seq<Module?>, st: nat, sh: nat, po: nat, x: seq<Module>, y: seq<Module>, z: seq<Module>, m: Module)
    requires Filling(b, st, sh, po, x, y, z) && |x| < st
    ensures Filling(b[|x| := m], st, sh, po, x + [m], y, z)
  {
    hide Backwards;
  }

  lemma FillShut(b: seq<Module?>, st: nat, sh: nat, po: nat, x: seq<Module>, y: seq<Module>, z: seq<Module>, m: Module)
    requires Filling(b, st, sh, po, x, y, z) && |y| < sh
    ensures Filling(b[st + sh - |y| := m], st, sh, po, x, y + [m], z)
  {
    hide Backwards;
    BackwardsMore(y, m);
  }

  lemma FillPost(b: seq<Module?>, st: nat, sh: nat, po: nat, x: seq<Module>, y: seq<Module>, z: seq<Module>, m: Module)
    requires Filling(b, st, sh, po, x, y, z) && |z| < po
    ensures Filling(b[st + sh + 1 + po - |z| := m], st, sh, po, x, y, z + [m])
  {
    hide Backwards;
    BackwardsMore(z, m);
  }

  lemma FillDone(b: seq<Module?>, x: seq<Module>, y: seq<Module>, z: seq<Module>)
    requires Filling(b, |x|, |y|, |z|, x, y, z)
    ensures b == x + [null] + Backwards(y) + [null] + Backwards(z) + [null]
  {
    hide *;
    FillParts(b, x, y, z);
    Assembled<Module?>(b, x, Backwards(y), Backwards(z), null);
  }

  lemma Assembled<T>(b: seq<T>, x: seq<T>, y: seq<T>, z: seq<T>, end: T)
    requires var (u, v, w) := (|x|, |x| + 1 + |y|, |x| + |y| + |z| + 2);
      && |b| == w + 1 && b[..u] == x && b[u] == end && b[u + 1..v] == y && b[v] == end
      && b[v + 1..w] == z && b[w] == end
    ensures b == x + [end] + y + [end] + z + [end]
  {
    var u, v, w := |x|, |x| + 1 + |y|, |x| + |y| + |z| + 2;
    Joined(b, u, v);
    Joined(b, v, w);
    assert b == b[..w] + [end];
  }

  lemma Joined<T>(s: seq<T>, i: nat, j: nat)
    requires i < j < |s|
    ensures s[..j] == s[..i] + [s[i]] + s[i + 1..j]
  {}

  lemma FillParts(b: seq<Module?>, x: seq<Module>, y: seq<Module>, z: seq<Module>)
    requires Filling(b, |x|, |y|, |z|, x, y, z)
    ensures var (u, v, w) := (|x|, |x| + 1 + |y|, |x| + |y| + |z| + 2);
      && |b| == w + 1 && b[..u] == x && b[u] == null && b[u + 1..v] == Backwards(y) && b[v] == null
      && b[v + 1..w] == Backwards(z) && b[w] == null
  {
    hide Backwards;
  }

  /** Where the lists stand after `i` modules. */
  lemma SubRoom<T>(s: seq<T>, i: nat, f: T -> bool)
    requires i < |s|
    ensures Sub(s[..i + 1], f) == Sub(s[..i], f) + if f(s[i]) then [s[i]] else []
    ensures |Sub(s[..i + 1], f)| <= |Sub(s, f)|
  {
    SubStep(s, i, f);
    SubBound(s, i + 1, f);
  }

  method CountHandlers(modules: seq<Module>) returns (startup: nat, shutdown: nat, post: nat, loaded: nat)
    ensures startup == |Sub(modules, Starts)| && shutdown == |Sub(modules, Shuts)|
    ensures post == |Sub(modules, Posts)| && loaded == |Sub(modules, Loaded)|
  {
    hide Sub;
    startup, shutdown, post, loaded := 0, 0, 0, 0;
    SubNone(modules);
    for i := 0 to |modules|
      invariant startup == |Sub(modules[..i], Starts)| && shutdown == |Sub(modules[..i], Shuts)|
      invariant post == |Sub(modules[..i], Posts)| && loaded == |Sub(modules[..i], Loaded)|
    {
      var m := modules[i];
      SubStep(modules, i, Starts);
      SubStep(modules, i, Shuts);
      SubStep(modules, i, Posts);
      SubStep(modules, i, Loaded);
      if m.requestStartup { startup := startup + 1; }
      if m.requestShutdown { shutdown := shutdown + 1; }
      if m.postDeactivate { post := post + 1; }
      if m.handle { loaded := loaded + 1; }
    }
    assert modules[..|modules|] == modules;
  }

  lemma SubNone<T>(s: seq<T>)
    ensures forall f: T -> bool :: Sub(s[..0], f) == []
  {}

  /** An entry of the class table. */
  class ClassEntry {
    const isInternal: bool
    const staticMembers: nat

    constructor (isInternal: bool, staticMembers: nat)
      ensures this.isInternal == isInternal && this.staticMembers == staticMembers
    {
      this.isInternal, this.staticMembers := isInternal, staticMembers;
    }
  }

  predicate Cleaned(c: ClassEntry) { c.isInternal && c.staticMembers > 0 }

  /** The internal classes with static members, last first, ended by a null. */
  method CollectClasses(classes: seq<ClassEntry>) returns (cleanup: array<ClassEntry?>)
    ensures fresh(cleanup) && cleanup[..] == Backwards(Sub(classes, Cleaned)) + [null]
  {
    hide Sub, Backwards;
    SubNone(classes);
    var n := 0;
    for i := 0 to |classes|
      invariant n == |Sub(classes[..i], Cleaned)|
    {
      SubStep(classes, i, Cleaned);
      if classes[i].isInternal && classes[i].staticMembers > 0 { n := n + 1; }
    }
    assert classes[..|classes|] == classes;
    cleanup := new ClassEntry?[n + 1];
    cleanup[n] := null;
    ghost var all := n;
    assert cleanup[n..] == [null];
    assert Backwards<ClassEntry>([]) == [];
    for i := 0 to |classes|
      invariant n == all - |Sub(classes[..i], Cleaned)|
      invariant cleanup[n..] == Backwards(Sub(classes[..i], Cleaned)) + [null]
    {
      SubRoom(classes, i, Cleaned);
      ghost var l := Sub(classes[..i], Cleaned);
      assert l + [] == l;
      if classes[i].isInternal && classes[i].staticMembers > 0 {
        BackwardsMore(l, classes[i]);
        ghost var tail := cleanup[n..];
        n := n - 1;
        cleanup[n] := classes[i];
        assert cleanup[n..] == [classes[i]] + tail;
      }
    }
    assert cleanup[0..] == cleanup[..];
  }

  /** Request startup runs in registry order, request shutdown, post-deactivate, unloading and
      class cleanup in the opposite order. The first three lists share one block, each ended by
      a null. */
  method CollectHandlers(modules: seq<Module>, classes: seq<ClassEntry>)
    returns (block: array<Module?>, shutdownAt: nat, postAt: nat, unload: array<Module?>, cleanup: array<ClassEntry?>)
    ensures block[..] ==
      Sub(modules, Starts) + [null] + Backwards(Sub(modules, Shuts)) + [null] + Backwards(Sub(modules, Posts)) + [null]
    ensures shutdownAt == |Sub(modules, Starts)| + 1
    ensures postAt == shutdownAt + |Sub(modules, Shuts)| + 1
    ensures unload[..] == Backwards(Sub(modules, Loaded)) + [null]
    ensures cleanup[..] == Backwards(Sub(classes, Cleaned)) + [null]
  {
    hide Sub, Backwards, Filling, Unloading;
    var startups, shutdowns, posts, loads := CountHandlers(modules);
    block := new Module?[startups + 1 + (shutdowns + 1) + (posts + 1)];
    block[startups] := null;
    shutdownAt := startups + 1;
    block[shutdownAt + shutdowns] := null;
    postAt := shutdownAt + shutdowns + 1;
    block[postAt + posts] := null;
    unload := new Module?[loads + 1];
    unload[loads] := null;
    SubNone(modules);
    FillNone(block[..], startups, shutdowns, posts);
    UnloadNone(unload[..], loads);
    EnterAll(modules, block, unload, startups, shutdowns, posts, loads);
    FillDone(block[..], Sub(modules, Starts), Sub(modules, Shuts), Sub(modules, Posts));
    UnloadDone(unload[..], Sub(modules, Loaded));
    cleanup := CollectClasses(classes);
  }

  /** The second pass over the registry, which enters the handlers. */
  method EnterAll(modules: seq<Module>, block: array<Module?>, unload: array<Module?>,
                  startups: nat, shutdowns: nat, posts: nat, loads: nat)
    requires startups == |Sub(modules, Starts)| && shutdowns == |Sub(modules, Shuts)|
    requires posts == |Sub(modules, Posts)| && loads == |Sub(modules, Loaded)|
    requires block != unload
    requires Filling(block[..], startups, shutdowns, posts, [], [], []) && Unloading(unload[..], loads, [])
    modifies block, unload
    ensures Filling(block[..], startups, shutdowns, posts,
      Sub(modules, Starts), Sub(modules, Shuts), Sub(modules, Posts))
    ensures Unloading(unload[..], loads, Sub(modules, Loaded))
  {
    hide Sub, Filling, Unloading;
    SubNone(modules);
    var start, shut, post, load := 0, shutdowns, posts, loads;
    for i := 0 to |modules|
      invariant start == |Sub(modules[..i], Starts)|
      invariant shut == shutdowns - |Sub(modules[..i], Shuts)|
      invariant post == posts - |Sub(modules[..i], Posts)|
      invariant load == loads - |Sub(modules[..i], Loaded)|
      invariant Filling(block[..], startups, shutdowns, posts,
        Sub(modules[..i], Starts), Sub(modules[..i], Shuts), Sub(modules[..i], Posts))
      invariant Unloading(unload[..], loads, Sub(modules[..i], Loaded))
    {
      var m := modules[i];
      SubRoom(modules, i, Starts);
      SubRoom(modules, i, Shuts);
      SubRoom(modules, i, Posts);
      SubRoom(modules, i, Loaded);
      start, shut, post := EnterModule(block, m, startups, shutdowns, posts, start, shut, post,
        Sub(modules[..i], Starts), Sub(modules[..i], Shuts), Sub(modules[..i], Posts));
      ghost var u, l := unload[..], Sub(modules[..i], Loaded);
      assert l + [] == l;
      if m.handle {
        UnloadMore(u, loads, l, m);
        load := load - 1;
        unload[load] := m;
        assert unload[..] == u[load := m];
      }
    }
    assert modules[..|modules|] == modules;
  }

  /** One module's entries in the shared block. */
  method EnterModule(block: array<Module?>, m: Module, st: nat, sh: nat, po: nat, start0: nat, shut0: nat, post0: nat,
                     ghost x: seq<Module>, ghost y: seq<Module>, ghost z: seq<Module>)
    returns (start: nat, shut: nat, post: nat)
    requires Filling(block[..], st, sh, po, x, y, z)
    requires start0 == |x| && shut0 == sh - |y| && post0 == po - |z|
    requires m.requestStartup ==> |x| < st
    requires m.requestShutdown ==> |y| < sh
    requires m.postDeactivate ==> |z| < po
    modifies block
    ensures Filling(block[..], st, sh, po, x + if m.requestStartup then [m] else [],
      y + if m.requestShutdown then [m] else [], z + if m.postDeactivate then [m] else [])
    ensures start == start0 + if m.requestStartup then 1 else 0
    ensures shut == shut0 - if m.requestShutdown then 1 else 0
    ensures post == post0 - if m.postDeactivate then 1 else 0
  {
    FillLength(block[..], st, sh, po, x, y, z);
    hide Filling;
    start, shut, post := start0, shut0, post0;
    assert x + [] == x && y + [] == y && z + [] == z;
    ghost var b := block[..];
    if m.requestStartup {
      FillStart(b, st, sh, po, x, y, z, m);
      block[start] := m;
      start := start + 1;
      assert block[..] == b[|x| := m];
    }
    ghost var x1 := x + if m.requestStartup then [m] else [];
    ghost var b1 := block[..];
    if m.requestShutdown {
      FillShut(b1, st, sh, po, x1, y, z, m);
      shut := shut - 1;
      block[st + 1 + shut] := m;
      assert block[..] == b1[st + sh - |y| := m];
    }
    ghost var y1 := y + if m.requestShutdown then [m] else [];
    ghost var b2 := block[..];
    if m.postDeactivate {
      FillPost(b2, st, sh, po, x1, y1, z, m);
      post := post - 1;
      block[st + sh + 2 + post] := m;
      assert block[..] == b2[st + sh + 1 + po - |z| := m];
    }
  }

  lemma FillLength(b: seq<Module?>, st: nat, sh: nat, po: nat, x: seq<Module>, y: seq<Module>, z: seq<Module>)
    requires Filling(b, st, sh, po, x, y, z)
    ensures |b| == st + sh + po + 3 && |x| <= st && |y| <= sh && |z| <= po
  {}

  /** The unload list with `l` entered from its end. */
  ghost predicate Unloading(u: seq<Module?>, n: nat, l: seq<Module>) {
    |l| <= n && |u| == n + 1 && u[n - |l|..] == Backwards(l) + [null]
  }

  lemma UnloadNone(u: seq<Module?>, n: nat)
    requires |u| == n + 1 && u[n] == null
    ensures Unloading(u, n, [])
  {}

  lemma UnloadMore(u: seq<Module?>, n: nat, l: seq<Module>, m: Module)
    requires Unloading(u, n, l) && |l| < n
    ensures |u| == n + 1 && Unloading(u[n - |l| - 1 := m], n, l + [m])
  {
    hide Backwards;
    BackwardsMore(l, m);
    var at := n - |l| - 1;
    assert u[at := m][at..] == [m] + u[at + 1..];
  }

  lemma UnloadDone(u: seq<Module?>, l: seq<Module>)
    requires Unloading(u, |l|, l)
    ensures u == Backwards(l) + [null]
  {}

  lemma FillNone(b: seq<Module?>, st: nat, sh: nat, po: nat)
    requires |b| == st + sh + po + 3
    requires b[st] == null && b[st + 1 + sh] == null && b[st + sh + 2 + po] == null
    ensures Filling(b, st, sh, po, [], [], []) && Backwards<Module>([]) == []
  {}
}
