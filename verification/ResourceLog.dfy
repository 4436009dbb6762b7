/** Lives of per-thread resources, read off the log of constructor and destructor visits.

    An instance is an entry of the thread table together with a resource id. The log
    records every time the code makes an instance, ends it, or passes it over because
    its block belongs to another thread. */
module ResourceLog {

  /** Instance `(entry, id)`; the flags say whether a constructor or destructor was called
      and whether the block was given back. */
  datatype Event =
    | Make(entry: nat, id: nat, ctor: bool)
    | End(entry: nat, id: nat, dtor: bool, freed: bool)
    | Lose(entry: nat, id: nat)

  datatype Life = Unborn | Alive | Ended | Lost

  ghost function After(e: Event): Life {
    match e
    case Make(_, _, _) => Alive
    case End(_, _, _, _) => Ended
    case Lose(_, _) => Lost
  }

  /** The life of an instance after the events of `log`. */
  ghost function LifeOf(log: seq<Event>, entry: nat, id: nat): Life {
    if log == [] then Unborn else
    var e := log[|log| - 1];
    if e.entry == entry && e.id == id then After(e) else LifeOf(log[..|log| - 1], entry, id)
  }

  /** The event may follow the log: instances are made once, and end or are passed over only
      while they live. */
  ghost predicate Follows(log: seq<Event>, e: Event) {
    LifeOf(log, e.entry, e.id) == if e.Make? then Unborn else Alive
  }

  ghost predicate Orderly(log: seq<Event>) {
    forall n :: 0 <= n < |log| ==> Follows(log[..n], log[n])
  }

  lemma Appended(log: seq<Event>, e: Event, entry: nat, id: nat)
    ensures LifeOf(log + [e], entry, id) ==
      if e.entry == entry && e.id == id then After(e) else LifeOf(log, entry, id)
  {
    assert (log + [e])[..|log|] == log;
  }

  lemma OrderlyAppended(log: seq<Event>, e: Event)
    requires Orderly(log) && Follows(log, e)
    ensures Orderly(log + [e])
  {
    hide Follows;
    var more := log + [e];
    forall n | 0 <= n < |more| ensures Follows(more[..n], more[n]) {
      if n < |log| {
        assert more[..n] == log[..n];
      } else {
        assert more[..n] == log;
      }
    }
  }

  /** A life only moves on. */
  ghost function Stage(life: Life): nat {
    match life
    case Unborn => 0
    case Alive => 1
    case Ended => 2
    case Lost => 2
  }

  lemma {:induction false} Monotone(log: seq<Event>, n: nat, entry: nat, id: nat)
    requires Orderly(log) && n <= |log|
    ensures Stage(LifeOf(log[..n], entry, id)) <= Stage(LifeOf(log, entry, id))
    ensures LifeOf(log[..n], entry, id) in {Ended, Lost} ==> LifeOf(log, entry, id) == LifeOf(log[..n], entry, id)
    decreases |log|
  {
    if n < |log| {
      var m := |log| - 1;
      var less := log[..m];
      assert forall k :: 0 <= k < m ==> less[..k] == log[..k];
      assert less[..n] == log[..n];
      Monotone(less, n, entry, id);
      assert Follows(log[..m], log[m]);
    } else {
      assert log[..n] == log;
    }
  }

  /** Whatever the order of calls, an orderly log has no instance constructed twice, none
      destroyed twice, and none destroyed after it was passed over. */
  lemma AtMostOnce(log: seq<Event>, m: nat, n: nat)
    requires Orderly(log) && m < n < |log|
    requires log[m].entry == log[n].entry && log[m].id == log[n].id
    ensures log[m].Make? && !log[n].Make?
    ensures forall k :: 0 <= k < |log| && log[k].entry == log[m].entry && log[k].id == log[m].id ==> k == m || k == n
  {
    var s, i := log[m].entry, log[m].id;
    Placed(log, m, n);
    forall k | 0 <= k < |log| && k != m && k != n ensures !(log[k].entry == s && log[k].id == i) {
      if log[k].entry == s && log[k].id == i {
        if k < m { Placed(log, k, m); } else { Placed(log, m, k); }
        if k < n { Placed(log, k, n); } else { Placed(log, n, k); }
      }
    }
  }

  /** Of two events of one instance the first makes it and the second ends it. */
  lemma Placed(log: seq<Event>, m: nat, n: nat)
    requires Orderly(log) && m < n < |log|
    requires log[m].entry == log[n].entry && log[m].id == log[n].id
    ensures log[m].Make? && !log[n].Make?
  {
    var s, i := log[m].entry, log[m].id;
    assert Follows(log[..m], log[m]) && Follows(log[..n], log[n]);
    assert log[..m + 1] == log[..m] + [log[m]];
    Appended(log[..m], log[m], s, i);
    assert forall k :: 0 <= k < n ==> log[..n][..k] == log[..k];
    assert log[..n][..m + 1] == log[..m + 1];
    Monotone(log[..n], m + 1, s, i);
  }
}
