/** LRU tiers whose sizes come in units: two that hold as many units decide alike, on every trace.

    The unit is a full block when all prompts are whole blocks, and a token when a token takes a whole
    number of bytes.  All a round and an admission compare is sums of units with the capacity. */
module LruUnits {
  import opened Base
  import opened Sorting
  import opened Trace
  import opened Config
  import opened Prefix
  import opened Leases
  import opened Policies
  import opened Replay
  import opened HostFacts
  import opened Bounds
  import opened LruStack
  import opened Uncontended
  import Overflow
  import PrefixKept
  import Rates

  // ---- units ----------------------------------------------------------------

  datatype Grain = Blocks | Tokens

  function Unit(cfg: SimConfig, g: Grain): Positive {
    match g
    case Blocks => cfg.FullBytes()
    case Tokens => cfg.cost.BlockBytes(1)
  }

  function Slots(cfg: SimConfig, g: Grain): nat { cfg.ram.capacity / Unit(cfg, g) }

  /** Token by token, a token takes a whole number of bytes. */
  predicate Exact(cfg: SimConfig, g: Grain) {
    g.Tokens? ==> cfg.cost.kvBytesPerToken == cfg.cost.BlockBytes(1) as real
  }

  /** In units of blocks, prompts are whole blocks. */
  ghost predicate Grained(geo: Geometry, g: Grain, turns: seq<Turn>) {
    g.Blocks? ==> forall i :: 0 <= i < |turns| ==> WholeBlocks(geo, turns[i])
  }

  /** Turns in order of time; in units of blocks, of whole blocks. */
  ghost predicate TraceOf(geo: Geometry, g: Grain, turns: seq<Turn>) {
    Overflow.InTime(turns) && Grained(geo, g, turns)
  }

  function EntriesAfter(cfg: SimConfig, sched: Schedule, turns: seq<Turn>): seq<Entry> {
    RunControl(cfg, Recency, sched, turns).host.entries
  }

  /** Every block of the index has a whole number of units. */
  ghost predicate InUnits(u: Positive, ix: IndexState) { forall k :: ix.Bytes(k) % u == 0 }

  ghost predicate EntriesInUnits(u: Positive, es: seq<Entry>) { forall i :: 0 <= i < |es| ==> es[i].nbytes % u == 0 }

  ghost predicate ItemsInUnits(u: Positive, items: seq<Item>) { forall x :: x in items ==> x.nbytes % u == 0 }

  lemma TokenBytes(cost: CostModel, n: nat)
    requires cost.kvBytesPerToken == cost.BlockBytes(1) as real
    ensures cost.BlockBytes(n) == n * cost.BlockBytes(1)
  {
    assert n as real * cost.kvBytesPerToken == (n * cost.BlockBytes(1)) as real;
  }

  lemma UnitBytes(cfg: SimConfig, g: Grain, tokens: nat)
    requires Exact(cfg, g) && (g.Blocks? ==> tokens == cfg.Shape().width)
    ensures cfg.cost.BlockBytes(tokens) % Unit(cfg, g) == 0
  {
    match g
    case Blocks => Multiple(1, cfg.FullBytes());
    case Tokens =>
      TokenBytes(cfg.cost, tokens);
      Multiple(tokens, cfg.cost.BlockBytes(1));
  }

  lemma Multiple(n: nat, u: Positive)
    ensures (n * u) % u == 0 && (n * u) / u == n
  {
    DivUnique(n * u, u, n, 0);
  }

  lemma {:induction false} IndexInUnits(cfg: SimConfig, g: Grain, turns: seq<Turn>)
    requires Exact(cfg, g) && Grained(cfg.Shape(), g, turns)
    ensures InUnits(Unit(cfg, g), IndexAfter(cfg.Shape(), turns))
  {
    IndexSound(cfg.Shape(), turns);
    if g.Blocks? { FullIndex(cfg.Shape(), turns); }
    SizedInUnits(cfg, g, IndexAfter(cfg.Shape(), turns));
  }

  lemma SizedInUnits(cfg: SimConfig, g: Grain, ix: IndexState)
    requires Exact(cfg, g) && WellSized(cfg.Shape(), ix)
    requires g.Blocks? ==> forall k :: k in ix.blocks ==> ix.blocks[k].tokens == cfg.Shape().width
    ensures InUnits(Unit(cfg, g), ix)
  {
    forall k
      ensures ix.Bytes(k) % Unit(cfg, g) == 0
    {
      if k in ix.blocks {
        assert BlockSized(cfg.Shape(), k, ix.blocks[k]);
        UnitBytes(cfg, g, ix.blocks[k].tokens);
      } else {
        Multiple(0, Unit(cfg, g));
      }
    }
  }

  lemma {:induction false} FullIndex(geo: Geometry, turns: seq<Turn>)
    requires forall i :: 0 <= i < |turns| ==> WholeBlocks(geo, turns[i])
    ensures forall k :: k in IndexAfter(geo, turns).blocks ==> IndexAfter(geo, turns).blocks[k].tokens == geo.width
  {
    if turns != [] {
      var n := |turns| - 1;
      FullIndex(geo, turns[..n]);
      TouchUniform(geo, IndexAfter(geo, turns[..n]), turns[n]);
    }
  }

  // ---- comparisons in units -------------------------------------------------

  /** `x` is `q` whole units and less than one more. */
  predicate Floors(u: Positive, x: int, q: int) { q * u <= x < q * u + u }

  lemma Shift(u: Positive, x: int, q: int, n: int, m: int)
    requires Floors(u, x, q) && n == m * u
    ensures Floors(u, x + n, q + m)
  {
  }

  /** Whole units fit exactly when they are no more than the whole units there are. */
  lemma FitsIff(u: Positive, x: int, q: int, n: int, m: int)
    requires Floors(u, x, q) && n == m * u
    ensures n <= x <==> m <= q
  {
    if m <= q { MulMono(u, m, q); } else { MulMono(u, q + 1, m); }
  }

  lemma FloorOf(u: Positive, n: nat)
    ensures Floors(u, n, n / u) && (n % u == 0 ==> n == n / u * u)
  {
    assert n == n / u * u + n % u;
  }

  lemma {:induction false} CutoffUnits(order: seq<Entry>, u: Positive, x: int, y: int, q: int)
    requires EntriesInUnits(u, order) && Floors(u, -x, q) && Floors(u, -y, q)
    ensures Cutoff(order, x) == Cutoff(order, y)
  {
    FitsIff(u, -x, q, 0, 0);
    FitsIff(u, -y, q, 0, 0);
    if order != [] && x > 0 {
      var n := order[0].nbytes;
      FloorOf(u, n);
      Shift(u, -x, q, n, n / u);
      Shift(u, -y, q, n, n / u);
      CutoffUnits(order[1..], u, x - n, y - n, q + n / u);
    }
  }

  lemma {:induction false} FitUnits(items: seq<Item>, u: Positive, x: int, y: int, q: int)
    requires ItemsInUnits(u, items) && Floors(u, x, q) && Floors(u, y, q)
    ensures Fit(items, x) == Fit(items, y)
  {
    if items != [] {
      var n := items[0].nbytes;
      assert items[0] in items && forall b :: b in items[1..] ==> b in items;
      FloorOf(u, n);
      FitsIff(u, x, q, n, n / u);
      FitsIff(u, y, q, n, n / u);
      Shift(u, x, q, -n, -(n / u));
      Shift(u, y, q, -n, -(n / u));
      FitUnits(items[1..], u, x - n, y - n, q - n / u);
    }
  }

  lemma {:induction false} SumInUnits(u: Positive, items: seq<Item>)
    requires ItemsInUnits(u, items)
    ensures ItemBytes(items) % u == 0
  {
    if items == [] {
      Multiple(0, u);
    } else {
      assert items[0] in items && forall b :: b in items[1..] ==> b in items;
      SumInUnits(u, items[1..]);
      AddUnits(u, items[0].nbytes, ItemBytes(items[1..]));
    }
  }

  lemma AddUnits(u: Positive, a: nat, b: nat)
    requires a % u == 0 && b % u == 0
    ensures (a + b) % u == 0
  {
    FloorOf(u, a);
    FloorOf(u, b);
    DivUnique(a + b, u, a / u + b / u, 0);
  }

  lemma {:induction false} PathInUnits(u: Positive, ix: IndexState, keys: seq<Key>)
    requires InUnits(u, ix)
    ensures PathBytes(ix, keys) % u == 0
  {
    if keys != [] {
      PathInUnits(u, ix, keys[1..]);
      assert ix.Bytes(keys[0]) % u == 0;
      AddUnits(u, ix.Bytes(keys[0]), PathBytes(ix, keys[1..]));
    }
  }

  lemma {:induction false} BytesInUnits(u: Positive, es: seq<Entry>)
    requires EntriesInUnits(u, es)
    ensures Bytes(es) % u == 0
  {
    BytesOfItems(es);
    SumInUnits(u, ItemsOf(es));
  }

  /** The whole units that are left beside the entries. */
  function Left(slots: nat, u: Positive, es: seq<Entry>): nat { MaxInt(0, slots - Bytes(es) / u) }

  lemma SpareUnits(u: Positive, capacity: nat, slots: nat, es: seq<Entry>)
    requires EntriesInUnits(u, es) && slots == capacity / u
    ensures Floors(u, Spare(capacity, es), Left(slots, u, es))
  {
    BytesInUnits(u, es);
    SpareFloor(u, capacity, Bytes(es));
  }

  lemma SpareFloor(u: Positive, capacity: nat, used: nat)
    requires used % u == 0
    ensures Floors(u, MaxInt(0, capacity - used), MaxInt(0, capacity / u - used / u))
  {
    var c, n := capacity / u, used / u;
    FloorOf(u, used);
    FloorOf(u, capacity);
    FitsIff(u, capacity, c, used, n);
    Shift(u, capacity, c, 0 - used, 0 - n);
    if n > c {
      assert MaxInt(0, capacity - used) == 0 && MaxInt(0, c - n) == 0;
    } else {
      assert capacity - used >= 0 && MaxInt(0, c - n) == c - n;
    }
  }

  // ---- one turn -------------------------------------------------------------

  /** Two tiers of as many units, with the same view. */
  ghost predicate Twin(p: Probe, r: Probe, u: Positive) {
    p.view == r.view && p.tier.capacity / u == r.tier.capacity / u && InUnits(u, p.view.ix)
  }

  lemma SameEviction(p: Probe, r: Probe, es: seq<Entry>, x: int, y: int, protected: set<Key>, u: Positive, q: int)
    requires EntriesInUnits(u, es) && x > 0 && y > 0 && Floors(u, -x, q) && Floors(u, -y, q)
    ensures Evicted(Recency, p, es, x, protected) == Evicted(Recency, r, es, y, protected)
  {
    var order := EvictionOrder(Recency, p, Without(es, protected));
    OrderInUnits(es, protected, u);
    CutoffUnits(order, u, x, y, q);
    PrefixKept.TakenIsCutoff(Recency, order, x);
    PrefixKept.TakenIsCutoff(Recency, order, y);
  }

  lemma {:induction false} OrderInUnits(es: seq<Entry>, protected: set<Key>, u: Positive)
    requires EntriesInUnits(u, es)
    ensures EntriesInUnits(u, StableSort(Without(es, protected), EntryOrder(Recency)))
  {
    var order := StableSort(Without(es, protected), EntryOrder(Recency));
    SortMembers(Without(es, protected), EntryOrder(Recency));
    WithoutSub(es, protected);
    forall i | 0 <= i < |order|
      ensures order[i].nbytes % u == 0
    {
      assert order[i] in order && order[i] in es;
      var j :| 0 <= j < |es| && es[j] == order[i];
    }
  }

  lemma SameRound(p: Probe, r: Probe, es: seq<Entry>, incoming: seq<Item>, u: Positive)
    requires Twin(p, r, u) && EntriesInUnits(u, es) && ItemsInUnits(u, incoming)
    ensures MakeRoom(Recency, p, es, incoming) == MakeRoom(Recency, r, es, incoming)
  {
    var x, y := Missing(p.tier.capacity, es, incoming), Missing(r.tier.capacity, es, incoming);
    var q := MissingUnits(u, p.tier.capacity, r.tier.capacity, es, incoming);
    if x > 0 { SameEviction(p, r, es, x, y, KeySet(ItemKeys(incoming)), u, q); }
  }

  /** The bytes a round must free. */
  function Missing(capacity: nat, es: seq<Entry>, incoming: seq<Item>): int {
    ItemBytes(incoming) - Spare(capacity, es)
  }

  lemma MissingUnits(u: Positive, c: nat, d: nat, es: seq<Entry>, incoming: seq<Item>) returns (q: int)
    requires c / u == d / u && EntriesInUnits(u, es) && ItemsInUnits(u, incoming)
    ensures Missing(c, es, incoming) > 0 <==> Missing(d, es, incoming) > 0
    ensures Floors(u, -Missing(c, es, incoming), q) && Floors(u, -Missing(d, es, incoming), q)
  {
    var slots := c / u;
    SpareUnits(u, c, slots, es);
    SpareUnits(u, d, slots, es);
    SumInUnits(u, incoming);
    q := SameNeed(u, Spare(c, es), Spare(d, es), Left(slots, u, es), ItemBytes(incoming));
  }

  /** As many units are missing, or none. */
  lemma SameNeed(u: Positive, s: nat, t: nat, q: int, n: nat) returns (k: int)
    requires Floors(u, s, q) && Floors(u, t, q) && n % u == 0
    ensures n > s <==> n > t
    ensures Floors(u, -(n - s), k) && Floors(u, -(n - t), k)
  {
    FloorOf(u, n);
    FitsIff(u, s, q, n, n / u);
    FitsIff(u, t, q, n, n / u);
    Shift(u, s, q, 0 - n, 0 - n / u);
    Shift(u, t, q, 0 - n, 0 - n / u);
    k := q + (0 - n / u);
  }

  lemma SameAccepted(p: Probe, r: Probe, es: seq<Entry>, incoming: seq<Item>, victims: seq<Key>, u: Positive)
    requires Twin(p, r, u) && EntriesInUnits(u, es) && ItemsInUnits(u, incoming)
    ensures Accepted(p, es, incoming, victims) == Accepted(r, es, incoming, victims)
  {
    var n, slots := PathBytes(p.view.ix, victims), p.tier.capacity / u;
    var q := Left(slots, u, es);
    PathInUnits(u, p.view.ix, victims);
    FloorOf(u, n);
    SpareUnits(u, p.tier.capacity, slots, es);
    SpareUnits(u, r.tier.capacity, slots, es);
    Shift(u, Spare(p.tier.capacity, es), q, n, n / u);
    Shift(u, Spare(r.tier.capacity, es), q, n, n / u);
    FitUnits(incoming, u, Spare(p.tier.capacity, es) + n, Spare(r.tier.capacity, es) + n, q + n / u);
  }

  lemma SameSettle(p: Probe, r: Probe, sched: Schedule, host: Host, incoming: seq<Item>, ev: Eviction, u: Positive)
    requires Twin(p, r, u) && EntriesInUnits(u, host.entries) && ItemsInUnits(u, incoming)
    ensures Settle(Recency, p, sched, host, incoming, ev) == Settle(Recency, r, sched, host, incoming, ev)
  {
    if ev.victims.Some? {
      SameAccepted(p, r, host.entries, incoming, ev.victims.value, u);
      Rates.SameInserts(Recency, p, r, sched, ev.rest, Accepted(p, host.entries, incoming, ev.victims.value));
    }
  }

  lemma SameStore(p: Probe, r: Probe, sched: Schedule, host: Host, keys: seq<Key>, u: Positive)
    requires Twin(p, r, u) && EntriesInUnits(u, host.entries) && Distinct(keys)
    ensures StoreToHost(Recency, p, sched, host, keys) == StoreToHost(Recency, r, sched, host, keys)
  {
    var incoming := Candidates(p.view.ix, host.entries, keys);
    CandidatesApart(p.view.ix, host.entries, keys);
    forall x | x in incoming
      ensures x.nbytes % u == 0
    {
      assert p.view.ix.Bytes(x.key) % u == 0;
    }
    SameRound(p, r, host.entries, incoming, u);
    SameSettle(p, r, sched, host, incoming, MakeRoom(Recency, p, host.entries, incoming), u);
  }

  lemma SameStep(small: SimConfig, large: SimConfig, sched: Schedule, c: Control, turn: Turn, u: Positive)
    requires large == small.(ram := large.ram) && small.ram.capacity / u == large.ram.capacity / u
    requires InUnits(u, Touch(small.Shape(), c.ix, turn)) && EntriesInUnits(u, c.host.entries)
    ensures StepControl(small, Recency, sched, c, turn) == StepControl(large, Recency, sched, c, turn)
  {
    var p, r, keys := ProbeOf(small, c, turn), ProbeOf(large, c, turn), PathOf(small.Shape(), turn);
    SameStore(p, r, sched, c.host, keys, u);
    Rates.SameTouch(Recency, p, r, StoreToHost(Recency, p, sched, c.host, keys).entries, keys);
  }

  /** What is stored has the bytes of the index. */
  lemma StepInUnits(cfg: SimConfig, sched: Schedule, c: Control, turn: Turn, u: Positive)
    requires UniqueKeys(c.host.entries)
    requires InUnits(u, Touch(cfg.Shape(), c.ix, turn)) && EntriesInUnits(u, c.host.entries)
    ensures EntriesInUnits(u, StepControl(cfg, Recency, sched, c, turn).host.entries)
  {
    var p, es, keys := ProbeOf(cfg, c, turn), c.host.entries, PathOf(cfg.Shape(), turn);
    var rest, stored := PrefixKept.RoundOf(cfg, Recency, c, turn).rest, PrefixKept.StoredBlocks(cfg, Recency, c, turn);
    PrefixKept.TurnItems(cfg, Recency, sched, c, turn);
    CandidatesApart(p.view.ix, es, keys);
    RestIsSub(Recency, p, es, PrefixKept.FreshBlocks(cfg, Recency, c, turn));
    StoredInUnits(p.view.ix, PrefixKept.FreshBlocks(cfg, Recency, c, turn), stored, u);
    RestInUnits(es, rest, u);
    JoinedInUnits(StepControl(cfg, Recency, sched, c, turn).host.entries, rest, stored, u);
  }

  lemma StoredInUnits(ix: IndexState, incoming: seq<Item>, stored: seq<Item>, u: Positive)
    requires InUnits(u, ix) && stored <= incoming && forall x :: x in incoming ==> x.nbytes == ix.Bytes(x.key)
    ensures ItemsInUnits(u, stored)
  {
    forall x | x in stored
      ensures x.nbytes % u == 0
    {
      assert x in incoming && ix.Bytes(x.key) % u == 0;
    }
  }

  lemma RestInUnits(es: seq<Entry>, rest: seq<Entry>, u: Positive)
    requires EntriesInUnits(u, es) && forall e :: e in rest ==> e in es
    ensures EntriesInUnits(u, rest)
  {
    forall i | 0 <= i < |rest|
      ensures rest[i].nbytes % u == 0
    {
      assert rest[i] in es;
      var j :| 0 <= j < |es| && es[j] == rest[i];
    }
  }

  lemma JoinedInUnits(r: seq<Entry>, rest: seq<Entry>, stored: seq<Item>, u: Positive)
    requires ItemsOf(r) == ItemsOf(rest) + stored && EntriesInUnits(u, rest) && ItemsInUnits(u, stored)
    ensures EntriesInUnits(u, r)
  {
    assert |r| == |rest| + |stored|;
    forall i | 0 <= i < |r|
      ensures r[i].nbytes % u == 0
    {
      assert ItemsOf(r)[i].nbytes == r[i].nbytes;
      if i < |rest| { assert ItemsOf(r)[i] == ItemsOf(rest)[i]; } else { assert ItemsOf(r)[i] == stored[i - |rest|]; }
    }
  }

  // ---- runs -----------------------------------------------------------------

  lemma EarlierGrained(geo: Geometry, g: Grain, turns: seq<Turn>, n: nat)
    requires Grained(geo, g, turns) && n <= |turns|
    ensures Grained(geo, g, turns[..n])
  {
  }

  lemma {:induction false} RunInUnits(cfg: SimConfig, g: Grain, sched: Schedule, turns: seq<Turn>)
    requires Exact(cfg, g) && Grained(cfg.Shape(), g, turns)
    ensures EntriesInUnits(Unit(cfg, g), RunControl(cfg, Recency, sched, turns).host.entries)
  {
    if turns != [] {
      var n := |turns| - 1;
      RunInUnits(cfg, g, sched, turns[..n]);
      RunHoused(cfg, Recency, sched, turns[..n]);
      ViewIsIndependent(cfg, Recency, sched, turns[..n]);
      IndexInUnits(cfg, g, turns);
      StepInUnits(cfg, sched, RunControl(cfg, Recency, sched, turns[..n]), turns[n], Unit(cfg, g));
    }
  }

  /** With as many slots the runs are the same. */
  lemma {:induction false} SameRuns(small: SimConfig, large: SimConfig, g: Grain, sched: Schedule, turns: seq<Turn>)
    requires LargerTier(small, large) && Slots(small, g) == Slots(large, g)
    requires Exact(small, g) && Grained(small.Shape(), g, turns)
    ensures RunControl(small, Recency, sched, turns) == RunControl(large, Recency, sched, turns)
  {
    if turns != [] {
      var n := |turns| - 1;
      SameRuns(small, large, g, sched, turns[..n]);
      RunInUnits(small, g, sched, turns[..n]);
      ViewIsIndependent(small, Recency, sched, turns[..n]);
      IndexInUnits(small, g, turns);
      SameStep(small, large, sched, RunControl(small, Recency, sched, turns[..n]), turns[n], Unit(small, g));
    }
  }

  /** With none the tier stays empty. */
  lemma {:induction false} NoSlot(cfg: SimConfig, g: Grain, sched: Schedule, turns: seq<Turn>)
    requires Slots(cfg, g) == 0 && Exact(cfg, g) && Grained(cfg.Shape(), g, turns)
    ensures RunControl(cfg, Recency, sched, turns).host.entries == []
  {
    if turns != [] {
      var n := |turns| - 1;
      NoSlot(cfg, g, sched, turns[..n]);
      ViewIsIndependent(cfg, Recency, sched, turns[..n]);
      IndexSound(cfg.Shape(), turns);
      IndexInUnits(cfg, g, turns);
      StepStaysEmpty(cfg, g, sched, RunControl(cfg, Recency, sched, turns[..n]), turns[n]);
    }
  }

  lemma StepStaysEmpty(cfg: SimConfig, g: Grain, sched: Schedule, c: Control, turn: Turn)
    requires Slots(cfg, g) == 0 && c.host.entries == []
    requires var ix := Touch(cfg.Shape(), c.ix, turn); Sound(cfg.Shape(), ix) && InUnits(Unit(cfg, g), ix)
    ensures StepControl(cfg, Recency, sched, c, turn).host.entries == []
  {
    var p, keys := ProbeOf(cfg, c, turn), PathOf(cfg.Shape(), turn);
    forall k | k in keys
      ensures p.view.ix.Bytes(k) > cfg.ram.capacity
    {
      assert k in p.view.ix.blocks && BlockSized(cfg.Shape(), k, p.view.ix.blocks[k]);
      assert p.view.ix.Bytes(k) % Unit(cfg, g) == 0;
      TooLarge(p.view.ix.Bytes(k), Unit(cfg, g), cfg.ram.capacity);
    }
    Overflow.NothingStored(Recency, p, sched, c.host, keys);
    StepItems(cfg, Recency, sched, c, turn);
    assert |StepControl(cfg, Recency, sched, c, turn).host.entries| == |ItemsOf([])|;
  }

  lemma TooLarge(n: nat, u: Positive, capacity: nat)
    requires n >= 1 && n % u == 0 && capacity / u == 0
    ensures n > capacity
  {
    FloorOf(u, n);
    FloorOf(u, capacity);
    FitsIff(u, capacity, 0, n, n / u);
  }
}
