/** Bounds that hold after every turn of every run: bytes in the host tier, and recompute tokens. */
module Bounds {
  import opened Base
  import opened Trace
  import opened Config
  import opened Prefix
  import opened Leases
  import opened Policies
  import opened Replay
  import opened HostFacts

  // ---- host byte conservation -----------------------------------------------

  /** Bytes by which the entries have grown in the index since they were stored. */
  function Growth(ix: IndexState, vs: seq<Entry>): int {
    if vs == [] then 0 else ix.Bytes(vs[0].key) - vs[0].nbytes + Growth(ix, vs[1..])
  }

  /** The growth of the victims of one turn's eviction round. */
  function TurnGrowth(cfg: SimConfig, kind: Kind, c: Control, turn: Turn): int {
    var p := ProbeOf(cfg, c, turn);
    RoundGrowth(kind, p, c.host.entries, Fresh(kind, p, c.host.entries, PathOf(cfg.Shape(), turn)))
  }

  function RoundGrowth(kind: Kind, p: Probe, es: seq<Entry>, incoming: seq<Item>): int {
    var needed := ItemBytes(incoming) - Spare(p.tier.capacity, es);
    if incoming == [] || needed <= 0 then 0
    else Growth(p.view.ix, Victims(kind, p, es, needed, KeySet(ItemKeys(incoming))))
  }

  /** The growth of all victims of a run. */
  function RunGrowth(cfg: SimConfig, kind: Kind, sched: Schedule, turns: seq<Turn>): int {
    if turns == [] then 0
    else
      var n := |turns| - 1;
      RunGrowth(cfg, kind, sched, turns[..n]) + TurnGrowth(cfg, kind, RunControl(cfg, kind, sched, turns[..n]),
          turns[n])
  }

  lemma {:induction false} GrowthBytes(ix: IndexState, vs: seq<Entry>)
    ensures PathBytes(ix, EntryKeys(vs)) == Growth(ix, vs) + Bytes(vs)
  {
    if vs != [] {
      GrowthBytes(ix, vs[1..]);
      assert EntryKeys(vs)[1..] == EntryKeys(vs[1..]);
    }
  }

  lemma {:induction false} GrowthNonNegative(ix: IndexState, es: seq<Entry>, vs: seq<Entry>)
    requires Housed(ix, es) && forall v :: v in vs ==> v in es
    ensures Growth(ix, vs) >= 0
  {
    if vs != [] {
      assert vs[0] in vs;
      var i :| 0 <= i < |es| && es[i] == vs[0];
      forall v | v in vs[1..]
        ensures v in es
      {
        assert v in vs;
      }
      GrowthNonNegative(ix, es, vs[1..]);
    }
  }

  /** Bytes left by an eviction round of the policy. */
  lemma {:induction false} EvictedBytes(kind: Kind, p: Probe, es: seq<Entry>, needed: int, protected: set<Key>)
    requires UniqueKeys(es)
    ensures var vs, ev := Victims(kind, p, es, needed, protected), Evicted(kind, p, es, needed, protected);
            && Bytes(ev.rest) + Bytes(vs) <= Bytes(es)
            && (if vs == [] then ev.victims == None else ev.victims == Some(EntryKeys(vs)))
  {
    var vs := Victims(kind, p, es, needed, protected);
    VictimsAreResidents(kind, p, es, needed, protected);
    BytesUnexpired(es, p.view.now);
    BytesWithoutAll(Current(kind, p, es), vs);
    if vs != [] { assert EntryKeys(vs) != []; }
  }

  lemma SettleBytes(kind: Kind, p: Probe, sched: Schedule, host: Host, incoming: seq<Item>, ev: Eviction)
    requires Apart(host.entries, incoming) && Leaves(host.entries, ev)
    ensures var r := Bytes(Settle(kind, p, sched, host, incoming, ev).entries);
            r <= Bytes(ev.rest) + if ev.victims.None? then 0
                 else Spare(p.tier.capacity, host.entries) + PathBytes(p.view.ix, ev.victims.value)
  {
    if ev.victims.Some? {
      SettleItems(kind, p, sched, host, incoming, ev);
      var taken := Accepted(p, host.entries, incoming, ev.victims.value);
      FitPrefix(incoming, Spare(p.tier.capacity, host.entries) + PathBytes(p.view.ix, ev.victims.value));
      BytesOfItems(Settle(kind, p, sched, host, incoming, ev).entries);
      BytesOfItems(ev.rest);
      ItemBytesConcat(ItemsOf(ev.rest), taken);
    }
  }

  lemma StoreBytes(kind: Kind, p: Probe, sched: Schedule, host: Host, keys: seq<Key>)
    requires UniqueKeys(host.entries) && Distinct(keys)
    ensures Bytes(StoreToHost(kind, p, sched, host, keys).entries)
            <= MaxInt(p.tier.capacity, Bytes(host.entries))
               + RoundGrowth(kind, p, host.entries, Fresh(kind, p, host.entries, keys))
  {
    var es, incoming := host.entries, Fresh(kind, p, host.entries, keys);
    Round(kind, p, es, keys);
    if incoming != [] {
      SettleBytes(kind, p, sched, host, incoming, MakeRoom(kind, p, es, incoming));
      var needed := ItemBytes(incoming) - Spare(p.tier.capacity, es);
      if needed > 0 {
        EvictedBytes(kind, p, es, needed, KeySet(ItemKeys(incoming)));
        GrowthBytes(p.view.ix, Victims(kind, p, es, needed, KeySet(ItemKeys(incoming))));
      }
    }
  }

  lemma StepBytes(cfg: SimConfig, kind: Kind, sched: Schedule, c: Control, turn: Turn)
    requires UniqueKeys(c.host.entries)
    ensures Bytes(StepControl(cfg, kind, sched, c, turn).host.entries)
            <= MaxInt(cfg.ram.capacity, Bytes(c.host.entries)) + TurnGrowth(cfg, kind, c, turn)
  {
    var p, keys := ProbeOf(cfg, c, turn), PathOf(cfg.Shape(), turn);
    StoreBytes(kind, p, sched, c.host, keys);
    StepItems(cfg, kind, sched, c, turn);
    BytesOfItems(StepControl(cfg, kind, sched, c, turn).host.entries);
    BytesOfItems(StoreToHost(kind, p, sched, c.host, keys).entries);
  }

  lemma RoundGrowthNonNegative(kind: Kind, p: Probe, es: seq<Entry>, incoming: seq<Item>)
    requires Housed(p.view.ix, es)
    ensures RoundGrowth(kind, p, es, incoming) >= 0
  {
    var needed := ItemBytes(incoming) - Spare(p.tier.capacity, es);
    VictimsAreResidents(kind, p, es, needed, KeySet(ItemKeys(incoming)));
    GrowthNonNegative(p.view.ix, es, Victims(kind, p, es, needed, KeySet(ItemKeys(incoming))));
  }

  lemma TurnGrowthNonNegative(cfg: SimConfig, kind: Kind, c: Control, turn: Turn)
    requires Sound(cfg.Shape(), c.ix) && Housed(c.ix, c.host.entries)
    ensures TurnGrowth(cfg, kind, c, turn) >= 0
  {
    var p := ProbeOf(cfg, c, turn);
    TouchGrows(cfg.Shape(), c.ix, turn);
    HousedGrows(c.ix, p.view.ix, c.host.entries);
    RoundGrowthNonNegative(kind, p, c.host.entries, Fresh(kind, p, c.host.entries, PathOf(cfg.Shape(), turn)));
  }

  /** Host byte conservation, for every policy and trace: occupancy is at most the capacity plus the
      bytes by which victims had grown in the index since they were stored. */
  lemma {:induction false} OccupancyBound(cfg: SimConfig, kind: Kind, sched: Schedule, turns: seq<Turn>)
    ensures Bytes(RunControl(cfg, kind, sched, turns).host.entries)
        <= cfg.ram.capacity + RunGrowth(cfg, kind, sched, turns)
    ensures RunGrowth(cfg, kind, sched, turns) >= 0
  {
    if turns != [] {
      var n := |turns| - 1;
      var c := RunControl(cfg, kind, sched, turns[..n]);
      OccupancyBound(cfg, kind, sched, turns[..n]);
      RunHoused(cfg, kind, sched, turns[..n]);
      StepBytes(cfg, kind, sched, c, turns[n]);
      TurnGrowthNonNegative(cfg, kind, c, turns[n]);
    }
  }

  // ---- whole blocks ---------------------------------------------------------

  /** The shared part and the private part of the prompt are whole blocks. */
  predicate WholeBlocks(geo: Geometry, turn: Turn) {
    PromptOf(turn).shared % geo.width == 0 && PromptOf(turn).private % geo.width == 0
  }

  /** Every block and every entry has the size of a full block. */
  ghost predicate Uniform(geo: Geometry, c: Control) {
    && (forall k :: k in c.ix.blocks ==> c.ix.blocks[k].tokens == geo.width)
    && forall i :: 0 <= i < |c.host.entries| ==> c.host.entries[i].nbytes == geo.cost.BlockBytes(geo.width)
  }

  lemma WholePart(geo: Geometry, turn: Turn, i: nat)
    requires WholeBlocks(geo, turn) && i < |ChainOf(geo, turn)|
    ensures ChainOf(geo, turn)[i].tokens == geo.width
  {
    var p, w := PromptOf(turn), geo.width;
    DivModCount(p.shared, w);
    DivModCount(p.private, w);
    assert ChainOf(geo, turn)[i] == p.PartAt(w, i);
    if i < p.Base(w) { FullBlock(p.shared, w, i); } else { FullBlock(p.private, w, i - p.Base(w)); }
  }

  lemma TouchUniform(geo: Geometry, ix: IndexState, turn: Turn)
    requires WholeBlocks(geo, turn) && forall k :: k in ix.blocks ==> ix.blocks[k].tokens == geo.width
    ensures forall k :: k in Touch(geo, ix, turn).blocks ==> Touch(geo, ix, turn).blocks[k].tokens == geo.width
  {
    var r := Touch(geo, ix, turn);
    forall k | k in r.blocks
      ensures r.blocks[k].tokens == geo.width
    {
      if k in PathOf(geo, turn) {
        WholePart(geo, turn, k.pos);
        assert ChainOf(geo, turn)[k.pos].key == k;
      }
    }
  }

  ghost predicate AllOfSize(items: seq<Item>, n: nat) {
    forall i :: 0 <= i < |items| ==> items[i].nbytes == n
  }

  lemma SettleUniform(kind: Kind, p: Probe, sched: Schedule, host: Host, incoming: seq<Item>, ev: Eviction, size: nat)
    requires Apart(host.entries, incoming) && Leaves(host.entries, ev)
    requires AllOfSize(ItemsOf(host.entries), size) && AllOfSize(incoming, size)
    ensures AllOfSize(ItemsOf(Settle(kind, p, sched, host, incoming, ev).entries), size)
  {
    forall i | 0 <= i < |ev.rest|
      ensures ItemsOf(ev.rest)[i].nbytes == size
    {
      assert ev.rest[i] in host.entries;
      var j :| 0 <= j < |host.entries| && host.entries[j] == ev.rest[i];
      assert ItemsOf(host.entries)[j].nbytes == size;
    }
    if ev.victims.Some? { SettleItems(kind, p, sched, host, incoming, ev); }
  }

  lemma StoreUniform(kind: Kind, p: Probe, sched: Schedule, host: Host, keys: seq<Key>, size: nat)
    requires UniqueKeys(host.entries) && Distinct(keys) && AllOfSize(ItemsOf(host.entries), size)
    requires forall k :: k in keys ==> p.view.ix.Bytes(k) == size
    ensures AllOfSize(ItemsOf(StoreToHost(kind, p, sched, host, keys).entries), size)
  {
    Round(kind, p, host.entries, keys);
    var incoming := Fresh(kind, p, host.entries, keys);
    forall i | 0 <= i < |incoming|
      ensures incoming[i].nbytes == size
    {
      assert incoming[i] in incoming;
    }
    if incoming != [] {
      SettleUniform(kind, p, sched, host, incoming, MakeRoom(kind, p, host.entries, incoming), size);
    }
  }

  lemma StepUniform(cfg: SimConfig, kind: Kind, sched: Schedule, c: Control, turn: Turn)
    requires Sound(cfg.Shape(), c.ix) && UniqueKeys(c.host.entries) && Uniform(cfg.Shape(), c)
        && WholeBlocks(cfg.Shape(), turn)
    ensures Uniform(cfg.Shape(), StepControl(cfg, kind, sched, c, turn))
  {
    var geo, size := cfg.Shape(), cfg.cost.BlockBytes(cfg.Shape().width);
    var p, keys := ProbeOf(cfg, c, turn), PathOf(geo, turn);
    TouchUniform(geo, c.ix, turn);
    TouchSound(geo, c.ix, turn);
    forall k | k in keys
      ensures p.view.ix.Bytes(k) == size
    {
      assert BlockSized(geo, k, p.view.ix.blocks[k]);
    }
    StoreUniform(kind, p, sched, c.host, keys, size);
    StepItems(cfg, kind, sched, c, turn);
    var r := StepControl(cfg, kind, sched, c, turn).host.entries;
    forall i | 0 <= i < |r|
      ensures r[i].nbytes == size
    {
      assert ItemsOf(r)[i].nbytes == size;
    }
  }

  lemma {:induction false} NoGrowth(ix: IndexState, vs: seq<Entry>)
    requires forall v :: v in vs ==> v.nbytes == ix.Bytes(v.key)
    ensures Growth(ix, vs) == 0
  {
    if vs != [] {
      assert vs[0] in vs && forall v :: v in vs[1..] ==> v in vs;
      NoGrowth(ix, vs[1..]);
    }
  }

  lemma UniformTurn(cfg: SimConfig, kind: Kind, c: Control, turn: Turn)
    requires Sound(cfg.Shape(), c.ix) && Housed(c.ix, c.host.entries)
    requires Uniform(cfg.Shape(), c) && WholeBlocks(cfg.Shape(), turn)
    ensures TurnGrowth(cfg, kind, c, turn) == 0
  {
    var geo, p, es := cfg.Shape(), ProbeOf(cfg, c, turn), c.host.entries;
    TouchUniform(geo, c.ix, turn);
    TouchSound(geo, c.ix, turn);
    forall i | 0 <= i < |es|
      ensures es[i].nbytes == p.view.ix.Bytes(es[i].key)
    {
      assert BlockSized(geo, es[i].key, p.view.ix.blocks[es[i].key]);
    }
    UniformRound(kind, p, es, Fresh(kind, p, es, PathOf(geo, turn)));
  }

  lemma UniformRound(kind: Kind, p: Probe, es: seq<Entry>, incoming: seq<Item>)
    requires UniqueKeys(es) && forall i :: 0 <= i < |es| ==> es[i].nbytes == p.view.ix.Bytes(es[i].key)
    ensures RoundGrowth(kind, p, es, incoming) == 0
  {
    var needed := ItemBytes(incoming) - Spare(p.tier.capacity, es);
    var vs := Victims(kind, p, es, needed, KeySet(ItemKeys(incoming)));
    VictimsAreResidents(kind, p, es, needed, KeySet(ItemKeys(incoming)));
    forall v | v in vs
      ensures v.nbytes == p.view.ix.Bytes(v.key)
    {
      assert v in es;
      var i :| 0 <= i < |es| && es[i] == v;
    }
    NoGrowth(p.view.ix, vs);
  }

  /** When shared and private parts are whole blocks, nothing grows: the host tier never passes its
      capacity. */
  lemma {:induction false} WholeBlocksFit(cfg: SimConfig, kind: Kind, sched: Schedule, turns: seq<Turn>)
    requires forall i :: 0 <= i < |turns| ==> WholeBlocks(cfg.Shape(), turns[i])
    ensures Bytes(RunControl(cfg, kind, sched, turns).host.entries) <= cfg.ram.capacity
    ensures RunGrowth(cfg, kind, sched, turns) == 0
  {
    WholeBlocksUniform(cfg, kind, sched, turns);
    OccupancyBound(cfg, kind, sched, turns);
  }

  lemma {:induction false} WholeBlocksUniform(cfg: SimConfig, kind: Kind, sched: Schedule, turns: seq<Turn>)
    requires forall i :: 0 <= i < |turns| ==> WholeBlocks(cfg.Shape(), turns[i])
    ensures Uniform(cfg.Shape(), RunControl(cfg, kind, sched, turns))
    ensures RunGrowth(cfg, kind, sched, turns) == 0
  {
    if turns != [] {
      var n := |turns| - 1;
      var c := RunControl(cfg, kind, sched, turns[..n]);
      WholeBlocksUniform(cfg, kind, sched, turns[..n]);
      RunHoused(cfg, kind, sched, turns[..n]);
      StepUniform(cfg, kind, sched, c, turns[n]);
      UniformTurn(cfg, kind, c, turns[n]);
    }
  }

  // ---- recompute ------------------------------------------------------------

  /** No turn of any run is charged more recompute than its prompt plus two partly filled blocks. */
  lemma {:induction false} RecomputeBound(cfg: SimConfig, kind: Kind, sched: Schedule, turns: seq<Turn>, turn: Turn)
    ensures MetricOf(cfg, Run(cfg, kind, sched, turns), turn).recompute <= turn.prompt + 2 * (cfg.Shape().width - 1)
  {
    var s := Run(cfg, kind, sched, turns);
    ControlIsIndependent(cfg, kind, sched, turns);
    RunHoused(cfg, kind, sched, turns);
    OverchargeBound(cfg.Shape(), s.control.ix, turn);
    TokensSuffix(Touch(cfg.Shape(), s.control.ix, turn), PathOf(cfg.Shape(), turn), ServeTurn(cfg, s, turn).cut);
  }
}
