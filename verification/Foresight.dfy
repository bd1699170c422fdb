/** The oracle's foresight is exact.

    On a trace with strictly increasing times, at every turn each resident block outside the turn's
    path carries the time of its first access after now, so no victim is needed sooner than a survivor. */
module Foresight {
  import opened Base
  import opened Sorting
  import opened Trace
  import opened Config
  import opened Prefix
  import opened Policies
  import opened Replay
  import opened HostFacts

  ghost predicate Increasing(turns: seq<Turn>) {
    forall i, j :: 0 <= i < j < |turns| ==> turns[i].t < turns[j].t
  }

  // ---- access times ---------------------------------------------------------

  lemma {:induction false} AccessesConcat(geo: Geometry, a: seq<Turn>, b: seq<Turn>, k: Key)
    ensures Accesses(geo, a + b, k) == Accesses(geo, a, k) + Accesses(geo, b, k)
  {
    if b == [] {
      assert a + b == a;
    } else {
      var n := |b| - 1;
      AccessesConcat(geo, a, b[..n], k);
      assert (a + b)[..|a + b| - 1] == a + b[..n];
    }
  }

  /** Access times are times of the turns. */
  lemma {:induction false} AccessesAreTimes(geo: Geometry, turns: seq<Turn>, k: Key)
    ensures forall x :: x in Accesses(geo, turns, k) ==> exists i :: 0 <= i < |turns| && turns[i].t == x
  {
    if turns != [] {
      var n := |turns| - 1;
      AccessesAreTimes(geo, turns[..n], k);
      forall x | x in Accesses(geo, turns, k)
        ensures exists i :: 0 <= i < |turns| && turns[i].t == x
      {
        if x in Accesses(geo, turns[..n], k) {
          var i :| 0 <= i < n && turns[..n][i].t == x;
          assert turns[i].t == x;
        } else {
          assert turns[n].t == x;
        }
      }
    }
  }

  lemma {:induction false} FirstAfterSkips(a: seq<real>, b: seq<real>, now: real)
    requires forall x :: x in a ==> x <= now
    ensures FirstAfter(a + b, now) == FirstAfter(b, now)
  {
    if a == [] {
      assert a + b == b;
    } else {
      assert a[0] in a && (a + b)[1..] == a[1..] + b;
      assert forall x :: x in a[1..] ==> x in a;
      FirstAfterSkips(a[1..], b, now);
    }
  }

  /** Past the turns already seen, the first access is found among the turns to come. */
  lemma {:induction false} FirstAfterFrom(geo: Geometry, all: seq<Turn>, j: nat, k: Key, now: real)
    requires j <= |all| && forall i :: 0 <= i < j ==> all[i].t <= now
    ensures FirstAfter(Accesses(geo, all, k), now) == FirstAfter(Accesses(geo, all[j..], k), now)
  {
    assert all == all[..j] + all[j..];
    AccessesConcat(geo, all[..j], all[j..], k);
    AccessesAreTimes(geo, all[..j], k);
    forall x | x in Accesses(geo, all[..j], k)
      ensures x <= now
    {
      var i :| 0 <= i < |all[..j]| && all[..j][i].t == x;
      assert all[i].t <= now;
    }
    FirstAfterSkips(Accesses(geo, all[..j], k), Accesses(geo, all[j..], k), now);
  }

  /** When all times are later than both clocks, the clocks do not matter. */
  lemma {:induction false} FirstOfLater(ts: seq<real>, now: real, then': real)
    requires forall x :: x in ts ==> x > now && x > then'
    ensures FirstAfter(ts, now) == FirstAfter(ts, then')
    ensures ts != [] ==> FirstAfter(ts, now) == At(ts[0])
  {
    if ts != [] { assert ts[0] in ts; }
  }

  lemma {:induction false} LaterAccesses(geo: Geometry, all: seq<Turn>, j: nat, k: Key, now: real)
    requires j <= |all| && forall i :: j <= i < |all| ==> all[i].t > now
    ensures forall x :: x in Accesses(geo, all[j..], k) ==> x > now
  {
    AccessesAreTimes(geo, all[j..], k);
    forall x | x in Accesses(geo, all[j..], k)
      ensures x > now
    {
      var i :| 0 <= i < |all[j..]| && all[j..][i].t == x;
      assert all[j + i].t > now;
    }
  }

  lemma {:induction false} AccessesHead(geo: Geometry, all: seq<Turn>, j: nat, k: Key)
    requires j < |all|
    ensures Accesses(geo, all[j..], k)
         == (if k in PathOf(geo, all[j]) then [all[j].t] else []) + Accesses(geo, all[j + 1..], k)
  {
    assert all[j..] == [all[j]] + all[j + 1..];
    AccessesConcat(geo, [all[j]], all[j + 1..], k);
    assert [all[j]][..0] == [];
  }

  /** From one turn to the next, the next use of a block stays, unless the turn uses the block now. */
  lemma NextUseAdvances(geo: Geometry, all: seq<Turn>, sched: Schedule, j: nat, k: Key)
    requires Increasing(all) && Foresees(geo, all, sched) && 0 < j < |all|
    ensures NextUse(sched, k, all[j - 1].t)
         == if k in PathOf(geo, all[j]) then At(all[j].t) else NextUse(sched, k, all[j].t)
  {
    NextUseScheduled(geo, all, sched, k, all[j - 1].t);
    NextUseScheduled(geo, all, sched, k, all[j].t);
    if k in PathOf(geo, all[j]) { UsedNow(geo, all, j, k); } else { NotUsedNow(geo, all, j, k); }
  }

  lemma {:induction false} NextUseScheduled(geo: Geometry, all: seq<Turn>, sched: Schedule, k: Key, now: real)
    requires Foresees(geo, all, sched)
    ensures NextUse(sched, k, now) == FirstAfter(Accesses(geo, all, k), now)
  {
    assert (if k in sched then sched[k] else []) == Accesses(geo, all, k);
  }

  lemma {:induction false} UsedNow(geo: Geometry, all: seq<Turn>, j: nat, k: Key)
    requires Increasing(all) && 0 < j < |all| && k in PathOf(geo, all[j])
    ensures FirstAfter(Accesses(geo, all, k), all[j - 1].t) == At(all[j].t)
  {
    FirstAfterFrom(geo, all, j, k, all[j - 1].t);
    AccessesHead(geo, all, j, k);
    FirstIs(all[j].t, Accesses(geo, all[j + 1..], k), all[j - 1].t);
  }

  lemma {:induction false} FirstIs(t: real, later: seq<real>, now: real)
    requires t > now
    ensures FirstAfter([t] + later, now) == At(t)
  {
  }

  lemma {:induction false} NotUsedNow(geo: Geometry, all: seq<Turn>, j: nat, k: Key)
    requires Increasing(all) && 0 < j < |all| && k !in PathOf(geo, all[j])
    ensures FirstAfter(Accesses(geo, all, k), all[j - 1].t) == FirstAfter(Accesses(geo, all, k), all[j].t)
  {
    FirstAfterFrom(geo, all, j, k, all[j - 1].t);
    FirstAfterFrom(geo, all, j + 1, k, all[j].t);
    SkipsTurn(geo, all, j, k, all[j - 1].t);
  }

  lemma {:induction false} SkipsTurn(geo: Geometry, all: seq<Turn>, j: nat, k: Key, before: real)
    requires Increasing(all) && j < |all| && k !in PathOf(geo, all[j]) && before < all[j].t
    ensures FirstAfter(Accesses(geo, all[j..], k), before) == FirstAfter(Accesses(geo, all[j + 1..], k), all[j].t)
  {
    AccessesHead(geo, all, j, k);
    LaterAccesses(geo, all, j + 1, k, all[j].t);
    SameFirst(Accesses(geo, all[j..], k), Accesses(geo, all[j + 1..], k), before, all[j].t);
  }

  lemma {:induction false} SameFirst(ts: seq<real>, us: seq<real>, before: real, now: real)
    requires ts == [] + us && before < now && forall x :: x in us ==> x > now
    ensures FirstAfter(ts, before) == FirstAfter(us, now)
  {
    assert ts == us;
    FirstOfLater(us, before, now);
  }

  // ---- what a turn changes --------------------------------------------------

  lemma {:induction false} TouchOutside(kind: Kind, p: Probe, es: seq<Entry>, keys: seq<Key>)
    ensures var r := TouchKeys(kind, p, es, keys);
            forall i :: 0 <= i < |es| ==> r[i].key == es[i].key && (es[i].key !in keys ==> r[i] == es[i])
    decreases |keys|
  {
    if keys != [] {
      var m := TouchKey(kind, p, es, keys[0]);
      TouchOutside(kind, p, m, keys[1..]);
      forall i | 0 <= i < |es| && es[i].key !in keys
        ensures m[i] == es[i] && es[i].key !in keys[1..]
      {
        assert keys[0] in keys;
      }
    }
  }

  lemma InsertOneOutside(kind: Kind, p: Probe, sched: Schedule, es: seq<Entry>, item: Item)
    ensures forall e :: e in InsertOne(kind, p, sched, es, item) ==> e.key == item.key || e in es
  {
    var r := InsertItem(kind, p, es, item);
    forall e | e in r
      ensures e.key == item.key || e in es
    {
      var i :| 0 <= i < |r| && r[i] == e;
      if i < |es| { assert e.key == item.key || e == es[i]; }
    }
    var s := InsertOne(kind, p, sched, es, item);
    forall e | e in s
      ensures e.key == item.key || e in es
    {
      var i :| 0 <= i < |s| && s[i] == e;
      assert r[i] in r;
    }
  }

  lemma {:induction false} InsertAllOutside(kind: Kind, p: Probe, sched: Schedule, es: seq<Entry>, items: seq<Item>)
    ensures forall e :: e in InsertAll(kind, p, sched, es, items) ==>
              e in es || exists i :: 0 <= i < |items| && items[i].key == e.key
    decreases |items|
  {
    if items != [] {
      var r := InsertOne(kind, p, sched, es, items[0]);
      InsertOneOutside(kind, p, sched, es, items[0]);
      InsertAllOutside(kind, p, sched, r, items[1..]);
      forall e | e in InsertAll(kind, p, sched, es, items)
        ensures e in es || exists i :: 0 <= i < |items| && items[i].key == e.key
      {
        if e in r {
          if e !in es { assert items[0].key == e.key; }
        } else {
          var i :| 0 <= i < |items[1..]| && items[1..][i].key == e.key;
          assert items[i + 1].key == e.key;
        }
      }
    }
  }

  /** Storing a turn's blocks adds entries for its path only. */
  lemma StoreOutside(kind: Kind, p: Probe, sched: Schedule, host: Host, keys: seq<Key>)
    requires UniqueKeys(host.entries) && Distinct(keys)
    ensures forall e :: e in StoreToHost(kind, p, sched, host, keys).entries ==> e in host.entries || e.key in keys
  {
    Round(kind, p, host.entries, keys);
    var incoming := Fresh(kind, p, host.entries, keys);
    if incoming != [] {
      var ev := MakeRoom(kind, p, host.entries, incoming);
      if ev.victims.Some? {
        var taken := Accepted(p, host.entries, incoming, ev.victims.value);
        SettleItems(kind, p, sched, host, incoming, ev);
        InsertAllOutside(kind, p, sched, ev.rest, taken);
        forall e | e in InsertAll(kind, p, sched, ev.rest, taken)
          ensures e in host.entries || e.key in keys
        {
          if e !in ev.rest {
            var i :| 0 <= i < |taken| && taken[i].key == e.key;
            assert taken[i] == incoming[i] && incoming[i] in incoming;
          }
        }
      }
    }
  }

  /** After a turn an entry is on the turn's path and knows its next use, or is as it was before. */
  lemma StepOutside(cfg: SimConfig, kind: Kind, sched: Schedule, c: Control, turn: Turn)
    requires UniqueKeys(c.host.entries)
    ensures var keys, r := PathOf(cfg.Shape(), turn), StepControl(cfg, kind, sched, c, turn).host.entries;
            forall i :: 0 <= i < |r| ==>
              if r[i].key in keys then r[i].nextUse == NextUse(sched, r[i].key, turn.t) else r[i] in c.host.entries
  {
    var p, keys := ProbeOf(cfg, c, turn), PathOf(cfg.Shape(), turn);
    StoreOutside(kind, p, sched, c.host, keys);
    var es := StoreToHost(kind, p, sched, c.host, keys).entries;
    TouchOutside(kind, p, es, keys);
    var m, r := TouchKeys(kind, p, es, keys), StepControl(cfg, kind, sched, c, turn).host.entries;
    assert r == RefreshAll(sched, turn.t, m, keys);
    forall i | 0 <= i < |r|
      ensures if r[i].key in keys then r[i].nextUse == NextUse(sched, r[i].key, turn.t) else r[i] in c.host.entries
    {
      assert es[i] in es;
    }
  }

  // ---- exactness ------------------------------------------------------------

  /** What the entries know when `turn` arrives. */
  ghost predicate Exact(geo: Geometry, sched: Schedule, es: seq<Entry>, turn: Turn) {
    forall e :: e in es ==>
      e.nextUse == if e.key in PathOf(geo, turn) then At(turn.t) else NextUse(sched, e.key, turn.t)
  }

  /** Before every turn of an oracle run, each resident block outside the turn's path carries its first
      access after now, and each block of the path carries now. */
  lemma {:induction false} ForesightIsExact(cfg: SimConfig, kind: Kind, all: seq<Turn>, sched: Schedule, j: nat)
    requires Increasing(all) && Foresees(cfg.Shape(), all, sched) && j < |all|
    ensures Exact(cfg.Shape(), sched, RunControl(cfg, kind, sched, all[..j]).host.entries, all[j])
  {
    if j > 0 {
      var geo, c := cfg.Shape(), RunControl(cfg, kind, sched, all[..j - 1]);
      assert all[..j][..j - 1] == all[..j - 1];
      ForesightIsExact(cfg, kind, all, sched, j - 1);
      RunHoused(cfg, kind, sched, all[..j - 1]);
      StepOutside(cfg, kind, sched, c, all[j - 1]);
      var r := RunControl(cfg, kind, sched, all[..j]).host.entries;
      forall e | e in r
        ensures e.nextUse == if e.key in PathOf(geo, all[j]) then At(all[j].t) else NextUse(sched, e.key, all[j].t)
      {
        var i :| 0 <= i < |r| && r[i] == e;
        assert e.nextUse == NextUse(sched, e.key, all[j - 1].t);
        NextUseAdvances(geo, all, sched, j, e.key);
      }
    }
  }

  lemma EntryOrderTotal(kind: Kind)
    ensures TotalPreorder(EntryOrder(kind))
  {
  }

  /** A victim of a sorted order ranks before every candidate that survives. */
  lemma VictimsRankFirst(kind: Kind, p: Probe, es: seq<Entry>, needed: int, protected: set<Key>, v: Entry, w: Entry)
    requires !kind.Adaptive? && UniqueKeys(es)
    requires v in Victims(kind, p, es, needed, protected) && w !in Victims(kind, p, es, needed, protected)
    requires w in Current(kind, p, es) && w.key !in protected
    ensures EntryBefore(kind, v, w)
  {
    VictimsAreResidents(kind, p, es, needed, protected);
    var candidates := Without(Current(kind, p, es), protected);
    WithoutSub(Current(kind, p, es), protected);
    var order := StableSort(candidates, EntryOrder(kind));
    SortMembers(candidates, EntryOrder(kind));
    EntryOrderTotal(kind);
    SortIsSorted(candidates, EntryOrder(kind));
    TakenPrefix(kind, order, needed);
    assert w in candidates;
    PrefixRanksFirst(order, Taken(kind, order, needed), EntryOrder(kind), v, w);
  }

  lemma PrefixRanksFirst(order: seq<Entry>, vs: seq<Entry>, le: (Entry, Entry) -> bool, v: Entry, w: Entry)
    requires Sorted(order, le) && vs <= order && v in vs && w in order && w !in vs
    ensures le(v, w)
  {
    var i :| 0 <= i < |vs| && vs[i] == v;
    var later := order[|vs|..];
    assert order == vs + later && w in later;
    var j :| 0 <= j < |later| && later[j] == w;
    assert order[i] == v && order[|vs| + j] == w;
  }

  /** When a block is needed as a turn arrives: now, if it is on the turn's path. */
  function NeededAt(geo: Geometry, sched: Schedule, turn: Turn, k: Key): Time {
    if k in PathOf(geo, turn) then At(turn.t) else NextUse(sched, k, turn.t)
  }

  lemma {:induction false} FirstAfterIsLater(ts: seq<real>, now: real)
    ensures At(now).Before(FirstAfter(ts, now))
  {
    if ts != [] && ts[0] <= now { FirstAfterIsLater(ts[1..], now); }
  }

  /** No victim of the oracle is needed sooner than a candidate that survives, so a block of the current path
      goes only when every candidate outside the path does. */
  lemma {:induction false} VictimsNeededLast(cfg: SimConfig, all: seq<Turn>, sched: Schedule, j: nat, needed: int,
          protected: set<Key>, v: Entry, w: Entry)
    requires Increasing(all) && Foresees(cfg.Shape(), all, sched) && j < |all|
    requires var c := RunControl(cfg, Oracle, sched, all[..j]);
             var vs := Victims(Oracle, ProbeOf(cfg, c, all[j]), c.host.entries, needed, protected);
             v in vs && w !in vs && w in c.host.entries && w.key !in protected
    ensures var geo, turn := cfg.Shape(), all[j];
            && !NeededAt(geo, sched, turn, v.key).Before(NeededAt(geo, sched, turn, w.key))
            && (v.key in PathOf(geo, turn) ==> w.key in PathOf(geo, turn))
  {
    var c := RunControl(cfg, Oracle, sched, all[..j]);
    var p := ProbeOf(cfg, c, all[j]);
    ForesightIsExact(cfg, Oracle, all, sched, j);
    RunHoused(cfg, Oracle, sched, all[..j]);
    VictimsAreResidents(Oracle, p, c.host.entries, needed, protected);
    VictimsRankFirst(Oracle, p, c.host.entries, needed, protected, v, w);
    NeededOrder(cfg.Shape(), sched, c.host.entries, all[j], v, w);
  }

  lemma NeededOrder(geo: Geometry, sched: Schedule, es: seq<Entry>, turn: Turn, v: Entry, w: Entry)
    requires Exact(geo, sched, es, turn) && v in es && w in es && EntryBefore(Oracle, v, w)
    ensures !NeededAt(geo, sched, turn, v.key).Before(NeededAt(geo, sched, turn, w.key))
    ensures v.key in PathOf(geo, turn) ==> w.key in PathOf(geo, turn)
  {
    if w.key in sched { FirstAfterIsLater(sched[w.key], turn.t); }
  }
}
