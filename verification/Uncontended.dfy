/** When nothing has to be displaced, the policies are indistinguishable.

    If nine tenths of the host capacity exceed the bytes of all blocks a trace ever names, no policy
    evicts or refuses anything, so every two runs hold the same blocks and report the same figures. */
module Uncontended {
  import opened Base
  import opened Trace
  import opened Config
  import opened Prefix
  import opened Leases
  import opened Policies
  import opened Hbm
  import opened Replay
  import opened HostFacts

  // ---- the footprint of a trace ---------------------------------------------

  /** Index bytes of a set of blocks. */
  ghost function SetBytes(ix: IndexState, ks: set<Key>): nat
    decreases |ks|
  {
    if ks == {} then 0 else var k :| k in ks; ix.Bytes(k) + SetBytes(ix, ks - {k})
  }

  lemma {:induction false} SetBytesMinus(ix: IndexState, ks: set<Key>, x: Key)
    requires x in ks
    ensures SetBytes(ix, ks) == ix.Bytes(x) + SetBytes(ix, ks - {x})
    decreases |ks|
  {
    var k :| k in ks && SetBytes(ix, ks) == ix.Bytes(k) + SetBytes(ix, ks - {k});
    if k != x {
      SetBytesMinus(ix, ks - {k}, x);
      SetBytesMinus(ix, ks - {x}, k);
      assert ks - {k} - {x} == ks - {x} - {k};
    }
  }

  /** Bytes of all blocks of the index. */
  ghost function Footprint(ix: IndexState): nat { SetBytes(ix, ix.blocks.Keys) }

  lemma {:induction false} SetBytesGrow(a: IndexState, b: IndexState, small: set<Key>, large: set<Key>)
    requires small <= large && forall k :: k in small ==> a.Bytes(k) <= b.Bytes(k)
    ensures SetBytes(a, small) <= SetBytes(b, large)
    decreases |small|
  {
    if small != {} {
      var k :| k in small;
      SetBytesMinus(a, small, k);
      SetBytesMinus(b, large, k);
      SetBytesGrow(a, b, small - {k}, large - {k});
    }
  }

  lemma FootprintGrows(a: IndexState, b: IndexState)
    requires Grown(a, b)
    ensures Footprint(a) <= Footprint(b)
  {
    assert a.blocks.Keys <= b.blocks.Keys;
    SetBytesGrow(a, b, a.blocks.Keys, b.blocks.Keys);
  }

  /** Distinct items take no more than the blocks they are part of. */
  lemma {:induction false} ItemsWithin(ix: IndexState, items: seq<Item>, ks: set<Key>)
    requires UniqueItems(items) && forall i :: 0 <= i < |items| ==>
        items[i].key in ks && items[i].nbytes <= ix.Bytes(items[i].key)
    ensures ItemBytes(items) <= SetBytes(ix, ks)
  {
    if items != [] {
      SetBytesMinus(ix, ks, items[0].key);
      ItemsWithin(ix, items[1..], ks - {items[0].key});
    }
  }

  // ---- index and announced times do not depend on the policy ----------------

  /** The index after the turns of a trace. */
  function IndexAfter(geo: Geometry, turns: seq<Turn>): IndexState {
    if turns == [] then EMPTY else Touch(geo, IndexAfter(geo, turns[..|turns| - 1]), turns[|turns| - 1])
  }

  function EtaAfter(turns: seq<Turn>): map<Session, real> {
    if turns == [] then map[] else Announce(EtaAfter(turns[..|turns| - 1]), turns[|turns| - 1])
  }

  lemma {:induction false} ViewIsIndependent(cfg: SimConfig, kind: Kind, sched: Schedule, turns: seq<Turn>)
    ensures RunControl(cfg, kind, sched, turns).ix == IndexAfter(cfg.Shape(), turns)
    ensures RunControl(cfg, kind, sched, turns).eta == EtaAfter(turns)
  {
    if turns != [] { ViewIsIndependent(cfg, kind, sched, turns[..|turns| - 1]); }
  }

  lemma {:induction false} IndexSound(geo: Geometry, turns: seq<Turn>)
    ensures Sound(geo, IndexAfter(geo, turns))
  {
    if turns != [] {
      IndexSound(geo, turns[..|turns| - 1]);
      TouchSound(geo, IndexAfter(geo, turns[..|turns| - 1]), turns[|turns| - 1]);
    }
  }

  lemma {:induction false} FootprintAscends(geo: Geometry, turns: seq<Turn>, j: nat)
    requires j <= |turns|
    ensures Footprint(IndexAfter(geo, turns[..j])) <= Footprint(IndexAfter(geo, turns))
    decreases |turns| - j
  {
    if j == |turns| {
      assert turns[..j] == turns;
    } else {
      FootprintAscends(geo, turns, j + 1);
      LastFootprint(geo, turns[..j + 1]);
      assert turns[..j + 1][..j] == turns[..j];
    }
  }

  lemma {:induction false} LastFootprint(geo: Geometry, turns: seq<Turn>)
    requires turns != []
    ensures Footprint(IndexAfter(geo, turns[..|turns| - 1])) <= Footprint(IndexAfter(geo, turns))
  {
    var ix := IndexAfter(geo, turns[..|turns| - 1]);
    IndexSound(geo, turns[..|turns| - 1]);
    TouchGrows(geo, ix, turns[|turns| - 1]);
    FootprintGrows(ix, Touch(geo, ix, turns[|turns| - 1]));
  }

  // ---- one turn without contention ------------------------------------------

  ghost predicate Roomy(capacity: nat, ix: IndexState) { 0.9 * capacity as real > Footprint(ix) as real }

  /** Residents and fresh blocks together fit into the footprint. */
  lemma {:induction false} AllFit(ix: IndexState, es: seq<Entry>, keys: seq<Key>)
    requires Housed(ix, es) && Distinct(keys) && forall k :: k in keys ==> k in ix.blocks
    ensures Bytes(es) + ItemBytes(Candidates(ix, es, keys)) <= Footprint(ix)
  {
    var items := Candidates(ix, es, keys);
    CandidatesApart(ix, es, keys);
    var all := ItemsOf(es) + items;
    BytesOfItems(es);
    ItemBytesConcat(ItemsOf(es), items);
    forall i | 0 <= i < |all|
      ensures all[i].key in ix.blocks && all[i].nbytes <= ix.Bytes(all[i].key)
    {
      if i >= |es| { assert all[i] in items; }
    }
    ApartUnique(es, items);
    ItemsWithin(ix, all, ix.blocks.Keys);
  }

  lemma ApartUnique(es: seq<Entry>, items: seq<Item>)
    requires UniqueKeys(es) && Apart(es, items)
    ensures UniqueItems(ItemsOf(es) + items)
  {
    var all := ItemsOf(es) + items;
    forall i, j | 0 <= i < j < |all|
      ensures all[i].key != all[j].key
    {
      if i < |es| <= j { assert !HasKey(es, items[j - |es|].key); }
    }
  }

  lemma LowPressure(used: nat, capacity: nat)
    requires 0.9 * capacity as real > used as real
    ensures capacity >= 1 && used as real / MaxInt(1, capacity) as real < 0.9 && used < capacity
  {
    var c := capacity as real;
    assert capacity >= 1;
    assert used as real / c * c == used as real;
    if used as real / c >= 0.9 { Scaled(used as real / c, 0.9, c); }
  }

  lemma Scaled(x: real, y: real, c: real)
    requires x >= y && c >= 0.0
    ensures x * c >= y * c
  {
  }

  /** With room to spare every policy stores all missing blocks of the path, and evicts nothing. */
  lemma {:induction false} StoresAll(kind: Kind, p: Probe, sched: Schedule, host: Host, keys: seq<Key>)
    requires Housed(p.view.ix, host.entries) && Distinct(keys) && forall k :: k in keys ==> k in p.view.ix.blocks
    requires Roomy(p.tier.capacity, p.view.ix) && host.leftAt == map[]
    ensures var r := StoreToHost(kind, p, sched, host, keys);
            && ItemsOf(r.entries) == ItemsOf(host.entries) + Candidates(p.view.ix, host.entries, keys)
            && r.leftAt == map[] && r.reacquires == host.reacquires
  {
    var es, incoming := host.entries, Candidates(p.view.ix, host.entries, keys);
    AllFit(p.view.ix, es, keys);
    LowPressure(Bytes(es), p.tier.capacity);
    LowPressure(Footprint(p.view.ix), p.tier.capacity);
    assert Fresh(kind, p, es, keys) == incoming;
    if incoming == [] {
      assert ItemsOf(es) + [] == ItemsOf(es);
    } else {
      Round(kind, p, es, keys);
      SettlesAll(kind, p, sched, host, incoming);
    }
  }

  lemma {:induction false} SettlesAll(kind: Kind, p: Probe, sched: Schedule, host: Host, incoming: seq<Item>)
    requires Apart(host.entries, incoming) && UniqueKeys(host.entries) && host.leftAt == map[]
    requires Bytes(host.entries) + ItemBytes(incoming) <= p.tier.capacity
    ensures var r := Settle(kind, p, sched, host, incoming, MakeRoom(kind, p, host.entries, incoming));
            && ItemsOf(r.entries) == ItemsOf(host.entries) + incoming
            && r.leftAt == map[] && r.reacquires == host.reacquires
  {
    var ev := Eviction(Some([]), host.entries);
    assert MakeRoom(kind, p, host.entries, incoming) == ev;
    SettleItems(kind, p, sched, host, incoming, ev);
    AcceptsAll(p, host.entries, incoming);
    NothingLeaves(kind, p, sched, host, incoming, ev);
  }

  lemma NothingLeaves(kind: Kind, p: Probe, sched: Schedule, host: Host, incoming: seq<Item>, ev: Eviction)
    requires ev.victims == Some([]) && host.leftAt == map[]
    ensures var r := Settle(kind, p, sched, host, incoming, ev); r.leftAt == map[] && r.reacquires == host.reacquires
  {
    assert LeftNow(host.leftAt, [], p.view.now) == map[];
    NoneLeft(Accepted(p, host.entries, incoming, []));
  }

  lemma {:induction false} NoneLeft(items: seq<Item>)
    ensures CountLeft(map[], items) == 0
  {
    if items != [] { NoneLeft(items[1..]); }
  }

  /** Which blocks are missing depends on keys only. */
  lemma {:induction false} SameCandidates(ix: IndexState, a: seq<Entry>, b: seq<Entry>, keys: seq<Key>)
    requires ItemsOf(a) == ItemsOf(b)
    ensures Candidates(ix, a, keys) == Candidates(ix, b, keys)
  {
    if keys != [] {
      SameCandidates(ix, a, b, keys[1..]);
      SameFind(a, b, keys[0]);
    }
  }

  lemma {:induction false} SameFind(a: seq<Entry>, b: seq<Entry>, k: Key)
    requires ItemsOf(a) == ItemsOf(b)
    ensures HasKey(a, k) == HasKey(b, k)
    ensures HasKey(a, k) ==> Find(a, k).value.nbytes == Find(b, k).value.nbytes
  {
    assert |a| == |ItemsOf(a)| == |b|;
    if a != [] {
      assert ItemsOf(a)[0] == ItemsOf(b)[0];
      assert ItemsOf(a[1..]) == ItemsOf(a)[1..] && ItemsOf(b[1..]) == ItemsOf(b)[1..];
      SameFind(a[1..], b[1..], k);
      if a[0].key != k {
        assert Find(a, k) == Find(a[1..], k) && Find(b, k) == Find(b[1..], k);
      }
    }
  }

  lemma {:induction false} SameServe(window: real, hbm: seq<Item>, left: map<Key, real>, a: seq<Entry>, b: seq<Entry>,
          keys: seq<Key>, now: real)
    requires ItemsOf(a) == ItemsOf(b)
    ensures Serve(window, hbm, left, a, keys, now) == Serve(window, hbm, left, b, keys, now)
  {
    if keys != [] {
      SameServe(window, hbm, left, a, b, keys[1..], now);
      SameFind(a, b, keys[0]);
    }
  }

  // ---- two runs -------------------------------------------------------------

  /** Two control states that agree on everything but recency, frequency and lifetimes. */
  ghost predicate SameControl(a: Control, b: Control) {
    && a.ix == b.ix && a.eta == b.eta && ItemsOf(a.host.entries) == ItemsOf(b.host.entries)
    && a.host.leftAt == map[] == b.host.leftAt && a.host.reacquires == 0 == b.host.reacquires
  }

  lemma StepSame(cfg: SimConfig, ka: Kind, sa: Schedule, a: Control, kb: Kind, sb: Schedule, b: Control, turn: Turn)
    requires SameControl(a, b) && Sound(cfg.Shape(), a.ix) && Housed(a.ix, a.host.entries)
        && Housed(b.ix, b.host.entries)
    requires Roomy(cfg.ram.capacity, Touch(cfg.Shape(), a.ix, turn))
    ensures SameControl(StepControl(cfg, ka, sa, a, turn), StepControl(cfg, kb, sb, b, turn))
  {
    StepStoresAll(cfg, ka, sa, a, turn);
    StepStoresAll(cfg, kb, sb, b, turn);
    SameCandidates(Touch(cfg.Shape(), a.ix, turn), a.host.entries, b.host.entries, PathOf(cfg.Shape(), turn));
  }

  lemma StepStoresAll(cfg: SimConfig, kind: Kind, sched: Schedule, c: Control, turn: Turn)
    requires Sound(cfg.Shape(), c.ix) && Housed(c.ix, c.host.entries) && c.host.leftAt == map[]
    requires Roomy(cfg.ram.capacity, Touch(cfg.Shape(), c.ix, turn))
    ensures var r, ix := StepControl(cfg, kind, sched, c, turn), Touch(cfg.Shape(), c.ix, turn);
            && r.ix == ix && r.eta == Announce(c.eta, turn)
            && ItemsOf(r.host.entries)
              == ItemsOf(c.host.entries) + Candidates(ix, c.host.entries, PathOf(cfg.Shape(), turn))
            && r.host.leftAt == map[] && r.host.reacquires == c.host.reacquires
  {
    var p, keys := ProbeOf(cfg, c, turn), PathOf(cfg.Shape(), turn);
    TouchGrows(cfg.Shape(), c.ix, turn);
    HousedGrows(c.ix, p.view.ix, c.host.entries);
    StoresAll(kind, p, sched, c.host, keys);
    StepItems(cfg, kind, sched, c, turn);
  }

  /** Everything a report is made of. */
  ghost predicate SameSim(a: Sim, b: Sim) {
    && SameControl(a.control, b.control) && a.hbm == b.hbm && a.leftHbm == b.leftHbm
    && a.demotions == b.demotions && a.thrash == b.thrash && a.queue == b.queue
    && a.metrics == b.metrics && a.peakRam == b.peakRam
  }

  lemma TurnSame(cfg: SimConfig, ka: Kind, sa: Schedule, a: Sim, kb: Kind, sb: Schedule, b: Sim, turn: Turn)
    requires SameSim(a, b)
    requires SameControl(StepControl(cfg, ka, sa, a.control, turn), StepControl(cfg, kb, sb, b.control, turn))
    ensures SameSim(OneTurn(cfg, ka, sa, a, turn), OneTurn(cfg, kb, sb, b, turn))
  {
    var x, y := StepControl(cfg, ka, sa, a.control, turn), StepControl(cfg, kb, sb, b.control, turn);
    SameServe(cfg.thrashWindow, a.hbm, a.leftHbm, a.control.host.entries, b.control.host.entries,
        PathOf(cfg.Shape(), turn), turn.t);
    SameMetric(cfg, a, b, turn);
    BytesOfItems(x.host.entries);
    BytesOfItems(y.host.entries);
  }

  lemma SameMetric(cfg: SimConfig, a: Sim, b: Sim, turn: Turn)
    requires a.control.ix == b.control.ix && a.queue == b.queue && ServeTurn(cfg, a, turn) == ServeTurn(cfg, b, turn)
    ensures MetricOf(cfg, a, turn) == MetricOf(cfg, b, turn)
  {
  }

  lemma TurnAgrees(cfg: SimConfig, ka: Kind, sa: Schedule, a: Sim, kb: Kind, sb: Schedule, b: Sim, turn: Turn)
    requires SameSim(a, b) && Sound(cfg.Shape(), a.control.ix)
    requires Housed(a.control.ix, a.control.host.entries) && Housed(b.control.ix, b.control.host.entries)
    requires Roomy(cfg.ram.capacity, Touch(cfg.Shape(), a.control.ix, turn))
    ensures SameSim(OneTurn(cfg, ka, sa, a, turn), OneTurn(cfg, kb, sb, b, turn))
  {
    StepSame(cfg, ka, sa, a.control, kb, sb, b.control, turn);
    TurnSame(cfg, ka, sa, a, kb, sb, b, turn);
  }

  lemma {:induction false} RunsAgree(cfg: SimConfig, ka: Kind, sa: Schedule, kb: Kind, sb: Schedule, turns: seq<Turn>)
    requires Roomy(cfg.ram.capacity, IndexAfter(cfg.Shape(), turns))
    ensures SameSim(Run(cfg, ka, sa, turns), Run(cfg, kb, sb, turns))
  {
    if turns != [] {
      var n := |turns| - 1;
      LastFootprint(cfg.Shape(), turns);
      RunsAgree(cfg, ka, sa, kb, sb, turns[..n]);
      ReadyForTurn(cfg, ka, sa, turns[..n]);
      ReadyForTurn(cfg, kb, sb, turns[..n]);
      TurnAgrees(cfg, ka, sa, Run(cfg, ka, sa, turns[..n]), kb, sb, Run(cfg, kb, sb, turns[..n]), turns[n]);
    }
  }

  /** After every turn of an uncontended trace, the runs of any two policies agree on the host tier's
      blocks and bytes, the pool, the servers and every recorded figure, and nothing ever left the host
      tier. */
  lemma {:induction false} PoliciesAgree(cfg: SimConfig, ka: Kind, sa: Schedule, kb: Kind, sb: Schedule,
          turns: seq<Turn>, j: nat)
    requires Roomy(cfg.ram.capacity, IndexAfter(cfg.Shape(), turns)) && j <= |turns|
    ensures SameSim(Run(cfg, ka, sa, turns[..j]), Run(cfg, kb, sb, turns[..j]))
  {
    FootprintAscends(cfg.Shape(), turns, j);
    RunsAgree(cfg, ka, sa, kb, sb, turns[..j]);
  }

  lemma {:induction false} ReadyForTurn(cfg: SimConfig, kind: Kind, sched: Schedule, turns: seq<Turn>)
    ensures var c := Run(cfg, kind, sched, turns).control;
            c.ix == IndexAfter(cfg.Shape(), turns) && Sound(cfg.Shape(), c.ix) && Housed(c.ix, c.host.entries)
  {
    ControlIsIndependent(cfg, kind, sched, turns);
    ViewIsIndependent(cfg, kind, sched, turns);
    RunHoused(cfg, kind, sched, turns);
  }

  /** So the reports are the same, and count no reacquired block. */
  lemma {:induction false} ReportsAgree(cfg: SimConfig, ka: Kind, sa: Schedule, kb: Kind, sb: Schedule,
          turns: seq<Turn>)
    requires Roomy(cfg.ram.capacity, IndexAfter(cfg.Shape(), turns))
    ensures ReportOf(cfg, Run(cfg, ka, sa, turns)) == ReportOf(cfg, Run(cfg, kb, sb, turns))
    ensures ReportOf(cfg, Run(cfg, ka, sa, turns)).reacquires == 0
  {
    RunsAgree(cfg, ka, sa, kb, sb, turns);
    SameReport(cfg, Run(cfg, ka, sa, turns), Run(cfg, kb, sb, turns));
  }

  lemma SameReport(cfg: SimConfig, a: Sim, b: Sim)
    requires SameSim(a, b)
    ensures ReportOf(cfg, a) == ReportOf(cfg, b) && ReportOf(cfg, a).reacquires == 0
  {
  }
}
