/** Exactly when the host tier passes its capacity.

    A round never protects a resident, so it frees what is needed or gives up everything.  Only in the
    second case can the fresh blocks, which get the room of the victims' index bytes, pass the capacity,
    and then what is stored does not depend on the ranking of the policy. */
module Capacity {
  import opened Base
  import opened Sorting
  import opened Trace
  import opened Config
  import opened Prefix
  import opened Leases
  import opened Policies
  import opened Replay
  import opened HostFacts
  import opened Evictions
  import opened Bounds
  import opened Uncontended

  // ---- index bytes of a permutation -----------------------------------------

  lemma {:induction false} IndexBytesCons(ix: IndexState, es: seq<Entry>)
    requires es != []
    ensures PathBytes(ix, EntryKeys(es)) == ix.Bytes(es[0].key) + PathBytes(ix, EntryKeys(es[1..]))
  {
    assert EntryKeys(es)[1..] == EntryKeys(es[1..]);
  }

  lemma {:induction false} PathBytesConcat(ix: IndexState, a: seq<Key>, b: seq<Key>)
    ensures PathBytes(ix, a + b) == PathBytes(ix, a) + PathBytes(ix, b)
  {
    if a == [] {
      assert a + b == b;
    } else {
      PathBytesConcat(ix, a[1..], b);
      assert (a + b)[1..] == a[1..] + b;
    }
  }

  lemma {:induction false} IndexBytesOut(ix: IndexState, es: seq<Entry>, i: nat)
    requires i < |es|
    ensures PathBytes(ix, EntryKeys(es)) == ix.Bytes(es[i].key) + PathBytes(ix, EntryKeys(es[..i] + es[i + 1..]))
  {
    var a, b := EntryKeys(es[..i]), EntryKeys(es[i + 1..]);
    assert EntryKeys(es) == a + ([es[i].key] + b);
    assert EntryKeys(es[..i] + es[i + 1..]) == a + b;
    PathBytesConcat(ix, a, [es[i].key] + b);
    PathBytesConcat(ix, a, b);
  }

  lemma TakeOut(a: seq<Entry>, b: seq<Entry>, i: nat)
    requires a != [] && i < |b| && a[0] == b[i] && multiset(a) == multiset(b)
    ensures multiset(a[1..]) == multiset(b[..i] + b[i + 1..])
  {
    assert a == [a[0]] + a[1..];
    assert b == b[..i] + [b[i]] + b[i + 1..];
    assert multiset(a[1..]) == multiset(a) - multiset{a[0]};
    assert multiset(b[..i] + b[i + 1..]) == multiset(b) - multiset{b[i]};
  }

  lemma {:induction false} IndexBytesPermuted(ix: IndexState, a: seq<Entry>, b: seq<Entry>)
    requires multiset(a) == multiset(b)
    ensures PathBytes(ix, EntryKeys(a)) == PathBytes(ix, EntryKeys(b))
  {
    if a == [] {
      SameEmptiness(a, b);
    } else {
      assert a[0] in multiset(b);
      var i :| 0 <= i < |b| && b[i] == a[0];
      TakeOut(a, b, i);
      IndexBytesPermuted(ix, a[1..], b[..i] + b[i + 1..]);
      IndexBytesCons(ix, a);
      IndexBytesOut(ix, b, i);
    }
  }

  // ---- one round ------------------------------------------------------------

  /** Every current entry goes. */
  ghost predicate Empties(kind: Kind, p: Probe, es: seq<Entry>, ev: Eviction) {
    && ev.rest == [] && ev.victims.Some?
    && PathBytes(p.view.ix, ev.victims.value) == PathBytes(p.view.ix, EntryKeys(Current(kind, p, es)))
  }

  lemma AllGone(kind: Kind, p: Probe, es: seq<Entry>, needed: int)
    requires UniqueKeys(es) && Current(kind, p, es) != []
    requires Victims(kind, p, es, needed, {}) == EvictionOrder(kind, p, Current(kind, p, es))
    ensures Empties(kind, p, es, Evicted(kind, p, es, needed, {}))
  {
    var current, vs := Current(kind, p, es), Victims(kind, p, es, needed, {});
    OrderIsPermutation(kind, p, current);
    SameEmptiness(vs, current);
    IndexBytesPermuted(p.view.ix, vs, current);
    WithoutNone(current);
    assert EntryKeys(vs) != [];
    forall e | e in current
      ensures e.key in KeySet(EntryKeys(vs))
    {
      assert e in multiset(vs);
      var i :| 0 <= i < |vs| && vs[i] == e;
      assert EntryKeys(vs)[i] == e.key;
    }
    WithoutAll(current, KeySet(EntryKeys(vs)));
  }

  lemma {:induction false} WithoutAll(es: seq<Entry>, ks: set<Key>)
    requires forall e :: e in es ==> e.key in ks
    ensures Without(es, ks) == []
  {
    if es != [] {
      assert es[0] in es && forall e :: e in es[1..] ==> e in es;
      WithoutAll(es[1..], ks);
    }
  }

  /** A round that asks for something frees it or gives up every current entry. */
  lemma {:induction false} FreesOrEmpties(kind: Kind, p: Probe, es: seq<Entry>, needed: int)
    requires UniqueKeys(es) && needed > 0
    ensures var ev, current := Evicted(kind, p, es, needed, {}), Current(kind, p, es);
            if current == [] then ev == Eviction(None, [])
            else ev.victims.Some? && (Bytes(ev.rest) + needed <= Bytes(es) || Empties(kind, p, es, ev))
  {
    var current, vs := Current(kind, p, es), Victims(kind, p, es, needed, {});
    WithoutNone(current);
    NoneIff(kind, p, es, needed, {});
    EvictedBytes(kind, p, es, needed, {});
    TakenEnough(kind, EvictionOrder(kind, p, current), needed);
    if current != [] && Bytes(vs) < needed { AllGone(kind, p, es, needed); }
  }

  /** The fresh blocks do not take part in the ranking: protecting them is protecting nothing. */
  lemma RoundIsOpen(kind: Kind, p: Probe, es: seq<Entry>, incoming: seq<Item>, needed: int)
    requires Apart(es, incoming)
    ensures Evicted(kind, p, es, needed, KeySet(ItemKeys(incoming))) == Evicted(kind, p, es, needed, {})
  {
    FreshUnprotected(kind, p, es, incoming);
    WithoutNone(Current(kind, p, es));
  }

  // ---- one store ------------------------------------------------------------

  lemma {:induction false} FitBytes(items: seq<Item>, room: int)
    ensures ItemBytes(Fit(items, room)) <= ItemBytes(items)
  {
    if items != [] && items[0].nbytes <= room {
      FitBytes(items[1..], room - items[0].nbytes);
      assert Fit(items, room)[1..] == Fit(items[1..], room - items[0].nbytes);
    }
  }

  lemma SettledBytes(kind: Kind, p: Probe, sched: Schedule, host: Host, incoming: seq<Item>, ev: Eviction)
    requires Apart(host.entries, incoming) && Leaves(host.entries, ev)
    ensures var r := Bytes(Settle(kind, p, sched, host, incoming, ev).entries);
            && (ev.victims.None? ==> r == Bytes(ev.rest))
            && (ev.victims.Some? ==>
                  r == Bytes(ev.rest) + ItemBytes(Accepted(p, host.entries, incoming, ev.victims.value)))
  {
    if ev.victims.Some? {
      SettleItems(kind, p, sched, host, incoming, ev);
      BytesOfItems(Settle(kind, p, sched, host, incoming, ev).entries);
      BytesOfItems(ev.rest);
      ItemBytesConcat(ItemsOf(ev.rest), Accepted(p, host.entries, incoming, ev.victims.value));
    }
  }

  /** The room the fresh blocks get when every current entry goes. */
  function FullRoom(kind: Kind, p: Probe, es: seq<Entry>): nat {
    Spare(p.tier.capacity, es) + PathBytes(p.view.ix, EntryKeys(Current(kind, p, es)))
  }

  /** There is something to give up, and the fresh blocks that fit into the room of everything there is
      are more than the capacity.  The ranking of the policy does not come into it. */
  predicate Overfills(kind: Kind, p: Probe, es: seq<Entry>, keys: seq<Key>) {
    && Current(kind, p, es) != []
    && ItemBytes(Fit(Fresh(kind, p, es, keys), FullRoom(kind, p, es))) > p.tier.capacity
  }

  /** What the round and the blocks that fit after it come to, when something must go. */
  lemma {:induction false} RoundBytes(kind: Kind, p: Probe, es: seq<Entry>, incoming: seq<Item>)
    requires UniqueKeys(es) && Apart(es, incoming) && ItemBytes(incoming) > Spare(p.tier.capacity, es)
    ensures var ev, most := MakeRoom(kind, p, es, incoming), Bytes(es) + Spare(p.tier.capacity, es);
            && (Current(kind, p, es) == [] ==> ev == Eviction(None, []))
            && (Current(kind, p, es) != [] ==>
                  ev.victims.Some? && (Empties(kind, p, es, ev) || Bytes(ev.rest) + ItemBytes(incoming) <= most))
  {
    var needed := ItemBytes(incoming) - Spare(p.tier.capacity, es);
    RoundIsOpen(kind, p, es, incoming, needed);
    FreesOrEmpties(kind, p, es, needed);
  }

  lemma {:induction false} StoredFits(kind: Kind, p: Probe, sched: Schedule, host: Host, incoming: seq<Item>)
    requires UniqueKeys(host.entries) && Apart(host.entries, incoming)
    requires ItemBytes(incoming) <= Spare(p.tier.capacity, host.entries)
    ensures Bytes(Settle(kind, p, sched, host, incoming, MakeRoom(kind, p, host.entries, incoming)).entries)
         == Bytes(host.entries) + ItemBytes(incoming)
  {
    var ev := Eviction(Some([]), host.entries);
    assert MakeRoom(kind, p, host.entries, incoming) == ev;
    SettledBytes(kind, p, sched, host, incoming, ev);
    AcceptsAll(p, host.entries, incoming);
  }

  lemma {:induction false} SettledInRoom(kind: Kind, p: Probe, sched: Schedule, host: Host, incoming: seq<Item>,
          ev: Eviction, most: nat)
    requires Apart(host.entries, incoming) && Leaves(host.entries, ev) && ev.victims.Some?
    requires Empties(kind, p, host.entries, ev) || Bytes(ev.rest) + ItemBytes(incoming) <= most
    ensures var r := Bytes(Settle(kind, p, sched, host, incoming, ev).entries);
            (r <= most && ItemBytes(incoming) <= most) || r == ItemBytes(Fit(incoming, FullRoom(kind, p, host.entries)))
  {
    SettledBytes(kind, p, sched, host, incoming, ev);
    FitBytes(incoming, Spare(p.tier.capacity, host.entries) + PathBytes(p.view.ix, ev.victims.value));
  }

  /** Either the round is enough, or what is stored is what fits into the room of everything. */
  lemma {:induction false} StoredInRoom(kind: Kind, p: Probe, sched: Schedule, host: Host, incoming: seq<Item>)
    requires UniqueKeys(host.entries) && Apart(host.entries, incoming)
    requires ItemBytes(incoming) > Spare(p.tier.capacity, host.entries)
    requires Leaves(host.entries, MakeRoom(kind, p, host.entries, incoming))
    ensures var es, ev := host.entries, MakeRoom(kind, p, host.entries, incoming);
            var r, most := Bytes(Settle(kind, p, sched, host, incoming, ev).entries),
              Bytes(es) + Spare(p.tier.capacity, es);
            && (Current(kind, p, es) == [] ==> r == 0)
            && (Current(kind, p, es) != [] ==>
                  || (r <= most && ItemBytes(incoming) <= most)
                  || r == ItemBytes(Fit(incoming, FullRoom(kind, p, es))))
  {
    var es, ev := host.entries, MakeRoom(kind, p, host.entries, incoming);
    RoundBytes(kind, p, es, incoming);
    if ev.victims.Some? {
      SettledInRoom(kind, p, sched, host, incoming, ev, Bytes(es) + Spare(p.tier.capacity, es));
    } else {
      SettledBytes(kind, p, sched, host, incoming, ev);
    }
  }

  /** What a store comes to, when there is something to store. */
  lemma StoredBytes(kind: Kind, p: Probe, sched: Schedule, host: Host, keys: seq<Key>)
    requires UniqueKeys(host.entries) && Distinct(keys) && Fresh(kind, p, host.entries, keys) != []
    ensures var es, incoming := host.entries, Fresh(kind, p, host.entries, keys);
            var r, most := Bytes(StoreToHost(kind, p, sched, host, keys).entries),
              Bytes(es) + Spare(p.tier.capacity, es);
            || (r <= most && (Current(kind, p, es) == [] || ItemBytes(incoming) <= most))
            || (Current(kind, p, es) != [] && r == ItemBytes(Fit(incoming, FullRoom(kind, p, es))))
  {
    var incoming := Fresh(kind, p, host.entries, keys);
    Round(kind, p, host.entries, keys);
    if ItemBytes(incoming) <= Spare(p.tier.capacity, host.entries) {
      StoredFits(kind, p, sched, host, incoming);
    } else {
      StoredInRoom(kind, p, sched, host, incoming);
    }
  }

  /** For every policy: after a store the tier holds at most its capacity, or what it held before, or no
      more than the fresh blocks. */
  lemma StoreWithin(kind: Kind, p: Probe, sched: Schedule, host: Host, keys: seq<Key>)
    requires UniqueKeys(host.entries) && Distinct(keys)
    ensures Bytes(StoreToHost(kind, p, sched, host, keys).entries)
         <= MaxInt(MaxInt(p.tier.capacity, Bytes(host.entries)), ItemBytes(Fresh(kind, p, host.entries, keys)))
  {
    var incoming := Fresh(kind, p, host.entries, keys);
    if incoming != [] {
      StoredBytes(kind, p, sched, host, keys);
      FitBytes(incoming, FullRoom(kind, p, host.entries));
    }
  }

  /** A store takes a tier that is within its capacity past it exactly when it overfills. */
  lemma PassesIffOverfills(kind: Kind, p: Probe, sched: Schedule, host: Host, keys: seq<Key>)
    requires UniqueKeys(host.entries) && Distinct(keys) && Bytes(host.entries) <= p.tier.capacity
    ensures Bytes(StoreToHost(kind, p, sched, host, keys).entries) > p.tier.capacity
        <==> Overfills(kind, p, host.entries, keys)
  {
    var incoming := Fresh(kind, p, host.entries, keys);
    FitBytes(incoming, FullRoom(kind, p, host.entries));
    if incoming != [] { StoredBytes(kind, p, sched, host, keys); }
  }

  // ---- one turn -------------------------------------------------------------

  /** The fresh blocks of a turn. */
  function FreshOf(cfg: SimConfig, kind: Kind, c: Control, turn: Turn): seq<Item> {
    Fresh(kind, ProbeOf(cfg, c, turn), c.host.entries, PathOf(cfg.Shape(), turn))
  }

  predicate TurnOverfills(cfg: SimConfig, kind: Kind, c: Control, turn: Turn) {
    Overfills(kind, ProbeOf(cfg, c, turn), c.host.entries, PathOf(cfg.Shape(), turn))
  }

  lemma StepIsStore(cfg: SimConfig, kind: Kind, sched: Schedule, c: Control, turn: Turn)
    ensures Bytes(StepControl(cfg, kind, sched, c, turn).host.entries)
         == Bytes(StoreToHost(kind, ProbeOf(cfg, c, turn), sched, c.host, PathOf(cfg.Shape(), turn)).entries)
  {
    StepItems(cfg, kind, sched, c, turn);
    BytesOfItems(StepControl(cfg, kind, sched, c, turn).host.entries);
    BytesOfItems(StoreToHost(kind, ProbeOf(cfg, c, turn), sched, c.host, PathOf(cfg.Shape(), turn)).entries);
  }

  /** For every policy: after a turn the tier holds at most its capacity, or what it held before, or no
      more than the fresh blocks of the turn. */
  lemma StepWithin(cfg: SimConfig, kind: Kind, sched: Schedule, c: Control, turn: Turn)
    requires UniqueKeys(c.host.entries)
    ensures Bytes(StepControl(cfg, kind, sched, c, turn).host.entries)
         <= MaxInt(MaxInt(cfg.ram.capacity, Bytes(c.host.entries)), ItemBytes(FreshOf(cfg, kind, c, turn)))
  {
    StepIsStore(cfg, kind, sched, c, turn);
    StoreWithin(kind, ProbeOf(cfg, c, turn), sched, c.host, PathOf(cfg.Shape(), turn));
  }

  /** A turn takes a tier that is within its capacity past it exactly when it overfills. */
  lemma StepPasses(cfg: SimConfig, kind: Kind, sched: Schedule, c: Control, turn: Turn)
    requires UniqueKeys(c.host.entries) && Bytes(c.host.entries) <= cfg.ram.capacity
    ensures Bytes(StepControl(cfg, kind, sched, c, turn).host.entries) > cfg.ram.capacity
        <==> TurnOverfills(cfg, kind, c, turn)
  {
    StepIsStore(cfg, kind, sched, c, turn);
    PassesIffOverfills(kind, ProbeOf(cfg, c, turn), sched, c.host, PathOf(cfg.Shape(), turn));
  }

  // ---- whole runs -----------------------------------------------------------

  lemma {:induction false} RunLast(cfg: SimConfig, kind: Kind, sched: Schedule, turns: seq<Turn>, n: nat)
    requires n < |turns|
    ensures RunControl(cfg, kind, sched, turns[..n + 1])
         == StepControl(cfg, kind, sched, RunControl(cfg, kind, sched, turns[..n]), turns[n])
  {
    assert turns[..n + 1][..n] == turns[..n];
  }

  /** The most bytes any turn of a run found missing. */
  function Demand(cfg: SimConfig, kind: Kind, sched: Schedule, turns: seq<Turn>): nat {
    if turns == [] then 0
    else
      var n := |turns| - 1;
      MaxInt(Demand(cfg, kind, sched, turns[..n]),
          ItemBytes(FreshOf(cfg, kind, RunControl(cfg, kind, sched, turns[..n]), turns[n])))
  }

  /** A bound without growth, for every policy and trace: the tier never holds more than its capacity or
      the missing bytes of some turn. */
  lemma {:induction false} DemandBound(cfg: SimConfig, kind: Kind, sched: Schedule, turns: seq<Turn>)
    ensures Bytes(RunControl(cfg, kind, sched, turns).host.entries)
         <= MaxInt(cfg.ram.capacity, Demand(cfg, kind, sched, turns))
  {
    if turns != [] {
      var n := |turns| - 1;
      var c := RunControl(cfg, kind, sched, turns[..n]);
      DemandBound(cfg, kind, sched, turns[..n]);
      RunHoused(cfg, kind, sched, turns[..n]);
      StepWithin(cfg, kind, sched, c, turns[n]);
    }
  }

  /** The tier is within its capacity after the first `n` turns. */
  predicate WithinAfter(cfg: SimConfig, kind: Kind, sched: Schedule, turns: seq<Turn>, n: nat)
    requires n <= |turns|
  {
    Bytes(RunControl(cfg, kind, sched, turns[..n]).host.entries) <= cfg.ram.capacity
  }

  /** Turn `n` overfills the tier as the turns before it left it. */
  predicate OverfillsAt(cfg: SimConfig, kind: Kind, sched: Schedule, turns: seq<Turn>, n: nat)
    requires n < |turns|
  {
    TurnOverfills(cfg, kind, RunControl(cfg, kind, sched, turns[..n]), turns[n])
  }

  lemma TurnPasses(cfg: SimConfig, kind: Kind, sched: Schedule, turns: seq<Turn>, n: nat)
    requires n < |turns| && WithinAfter(cfg, kind, sched, turns, n)
    ensures WithinAfter(cfg, kind, sched, turns, n + 1) <==> !OverfillsAt(cfg, kind, sched, turns, n)
  {
    RunHoused(cfg, kind, sched, turns[..n]);
    RunLast(cfg, kind, sched, turns, n);
    StepPasses(cfg, kind, sched, RunControl(cfg, kind, sched, turns[..n]), turns[n]);
  }

  lemma {:induction false} StaysWithin(cfg: SimConfig, kind: Kind, sched: Schedule, turns: seq<Turn>, n: nat)
    requires n <= |turns| && forall j :: 0 <= j < n ==> !OverfillsAt(cfg, kind, sched, turns, j)
    ensures WithinAfter(cfg, kind, sched, turns, n)
  {
    if n == 0 {
      assert turns[..0] == [];
    } else {
      StaysWithin(cfg, kind, sched, turns, n - 1);
      TurnPasses(cfg, kind, sched, turns, n - 1);
    }
  }

  /** For every policy and trace: the tier is within its capacity after every turn exactly when no turn
      overfills it. */
  lemma {:induction false} WithinIff(cfg: SimConfig, kind: Kind, sched: Schedule, turns: seq<Turn>)
    ensures (forall n :: 0 <= n <= |turns| ==> WithinAfter(cfg, kind, sched, turns, n))
       <==> (forall n :: 0 <= n < |turns| ==> !OverfillsAt(cfg, kind, sched, turns, n))
  {
    if forall n :: 0 <= n <= |turns| ==> WithinAfter(cfg, kind, sched, turns, n) {
      forall n | 0 <= n < |turns|
        ensures !OverfillsAt(cfg, kind, sched, turns, n)
      {
        TurnPasses(cfg, kind, sched, turns, n);
      }
    }
    if forall n :: 0 <= n < |turns| ==> !OverfillsAt(cfg, kind, sched, turns, n) {
      forall n | 0 <= n <= |turns|
        ensures WithinAfter(cfg, kind, sched, turns, n)
      {
        StaysWithin(cfg, kind, sched, turns, n);
      }
    }
  }

  // ---- conditions on the trace alone ----------------------------------------

  lemma {:induction false} CandidateBytes(ix: IndexState, es: seq<Entry>, keys: seq<Key>)
    ensures ItemBytes(Candidates(ix, es, keys)) <= PathBytes(ix, keys)
  {
    if keys != [] { CandidateBytes(ix, es, keys[1..]); }
  }

  /** Index bytes of a turn's path when the turn is served.  They do not depend on the policy. */
  function PathSize(geo: Geometry, turns: seq<Turn>, n: nat): nat
    requires n < |turns|
  {
    PathBytes(IndexAfter(geo, turns[..n + 1]), PathOf(geo, turns[n]))
  }

  lemma StepPathFits(cfg: SimConfig, kind: Kind, sched: Schedule, c: Control, turn: Turn)
    requires UniqueKeys(c.host.entries) && Bytes(c.host.entries) <= cfg.ram.capacity
    requires PathBytes(Touch(cfg.Shape(), c.ix, turn), PathOf(cfg.Shape(), turn)) <= cfg.ram.capacity
    ensures Bytes(StepControl(cfg, kind, sched, c, turn).host.entries) <= cfg.ram.capacity
  {
    CandidateBytes(Touch(cfg.Shape(), c.ix, turn), c.host.entries, PathOf(cfg.Shape(), turn));
    StepWithin(cfg, kind, sched, c, turn);
  }

  lemma {:induction false} IndexLast(geo: Geometry, turns: seq<Turn>, n: nat)
    requires n < |turns|
    ensures IndexAfter(geo, turns[..n + 1]) == Touch(geo, IndexAfter(geo, turns[..n]), turns[n])
  {
    assert turns[..n + 1][..n] == turns[..n];
  }

  lemma PathFits(cfg: SimConfig, kind: Kind, sched: Schedule, turns: seq<Turn>, n: nat)
    requires n < |turns| && PathSize(cfg.Shape(), turns, n) <= cfg.ram.capacity
    requires WithinAfter(cfg, kind, sched, turns, n)
    ensures WithinAfter(cfg, kind, sched, turns, n + 1)
  {
    RunLast(cfg, kind, sched, turns, n);
    IndexLast(cfg.Shape(), turns, n);
    ViewIsIndependent(cfg, kind, sched, turns[..n]);
    RunHoused(cfg, kind, sched, turns[..n]);
    StepPathFits(cfg, kind, sched, RunControl(cfg, kind, sched, turns[..n]), turns[n]);
  }

  /** So a tier that has room for each path of a trace never passes its capacity, whatever the policy. */
  lemma {:induction false} PathsFit(cfg: SimConfig, kind: Kind, sched: Schedule, turns: seq<Turn>, n: nat)
    requires n <= |turns| && forall j :: 0 <= j < |turns| ==> PathSize(cfg.Shape(), turns, j) <= cfg.ram.capacity
    ensures WithinAfter(cfg, kind, sched, turns, n)
  {
    if n == 0 {
      assert turns[..0] == [];
    } else {
      PathsFit(cfg, kind, sched, turns, n - 1);
      PathFits(cfg, kind, sched, turns, n - 1);
    }
  }
}
