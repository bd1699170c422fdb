/** Hardware speeds do not steer the policies.

    With bytes per token fixed, a density of the adaptive policy is a reuse probability times one
    non-negative constant, and the constant is zero exactly when the tier is below break-even.  So two
    configurations on the same side of break-even admit, evict, restore and recompute the same blocks on
    every trace.  The other policies look at no price; only the one whose lifetimes are recompute times
    needs the same prefill rate. */
module Rates {
  import opened Base
  import opened Sorting
  import opened Trace
  import opened Config
  import opened Prefix
  import opened Leases
  import opened Policies
  import opened Hbm
  import opened Replay
  import opened HostFacts

  // ---- the constant ---------------------------------------------------------

  /** Seconds saved by restoring one byte rather than recomputing it, never negative. */
  function Saving(cost: CostModel, tier: Tier): real {
    assert cost.kvBytesPerToken * cost.prefillRate > 0.0;
    MaxReal(0.0, 1.0 / (cost.kvBytesPerToken * cost.prefillRate) - 1.0 / tier.BytesPerSecond())
  }

  lemma Inverse(x: real, y: real)
    requires y > 0.0
    ensures x / y == x * (1.0 / y)
  {
  }

  lemma TwoQuotients(x: real, y: real, z: real)
    requires y > 0.0 && z > 0.0
    ensures y * z > 0.0 && x / y / z == x / (y * z)
  {
    var q := x / y / z;
    assert q * z == x / y;
    assert q * z * y == x;
    Regroup(q, z, y);
    assert q * (y * z) == x;
  }

  lemma Regroup(q: real, z: real, y: real)
    ensures q * z * y == q * (y * z)
  {
  }

  lemma PositiveScale(x: real, d: real)
    requires x > 0.0
    ensures MaxReal(0.0, x * d) == x * MaxReal(0.0, d)
  {
  }

  lemma Cancel(x: real, d: real)
    requires x > 0.0
    ensures x * d / x == d
  {
  }

  lemma Distribute(x: real, a: real, b: real)
    ensures x * a - x * b == x * (a - b)
  {
  }

  /** The time saved on a block is its bytes times the constant. */
  lemma SavedSeconds(p: Probe, nbytes: nat)
    requires nbytes >= 1
    ensures MaxReal(0.0, p.RecomputeSeconds(nbytes) - p.RestoreSeconds(nbytes))
        == nbytes as real * Saving(p.cost, p.tier)
  {
    var x, kv, rate, bps := nbytes as real, p.cost.kvBytesPerToken, p.cost.prefillRate, p.tier.BytesPerSecond();
    TwoQuotients(x, kv, rate);
    Inverse(x, kv * rate);
    Inverse(x, bps);
    Distribute(x, 1.0 / (kv * rate), 1.0 / bps);
    PositiveScale(x, 1.0 / (kv * rate) - 1.0 / bps);
  }

  lemma InverseOrder(x: real, y: real)
    requires x > 0.0 && y > 0.0
    ensures 1.0 / x > 1.0 / y <==> y > x
  {
    assert 1.0 / x * x == 1.0 && 1.0 / y * y == 1.0;
    if y > x {
      if 1.0 / x <= 1.0 / y { ScaleMono(x, 1.0 / x, 1.0 / y); }
    }
    if y <= x { ScaleMono(y, 1.0 / x, 1.0 / y); InverseDown(x, y); }
  }

  lemma InverseDown(x: real, y: real)
    requires 0.0 < y <= x
    ensures 1.0 / x <= 1.0 / y
  {
  }

  /** The constant is positive exactly on the side of break-even where the tier pays. */
  lemma SavingIffWorth(cost: CostModel, tier: Tier)
    ensures Saving(cost, tier) > 0.0 <==> cost.IsWorthTier(tier)
  {
    var unit, bps := cost.kvBytesPerToken * cost.prefillRate, tier.BytesPerSecond();
    assert unit > 0.0;
    InverseOrder(unit, bps);
    assert unit / GIGA * GIGA == unit;
    assert tier.EffectiveGbs() > unit / GIGA <==> tier.EffectiveGbs() * GIGA > unit;
  }

  // ---- prices that are proportional -----------------------------------------

  ghost predicate Proportional(d: Pricing, q: Pricing, c: real, k: Key, n: nat) { d(k, n) == c * q(k, n) }

  /** `d` is `c` times `q` on every block that is not empty. */
  ghost predicate Scaled(d: Pricing, q: Pricing, c: real) {
    forall k, n: nat :: n >= 1 ==> Proportional(d, q, c, k, n)
  }

  ghost predicate NoneEmpty(items: seq<Item>) { forall i :: 0 <= i < |items| ==> items[i].nbytes >= 1 }

  lemma WorthStep(c: real, q: real, x: real, d: real, sum: real, sum': real)
    requires d == c * q && sum == c * sum'
    ensures d * x + sum == c * (q * x + sum')
  {
  }

  lemma {:induction false} WorthScales(d: Pricing, q: Pricing, c: real, items: seq<Item>)
    requires Scaled(d, q, c) && NoneEmpty(items)
    ensures Worth(d, items) == c * Worth(q, items)
  {
    if items != [] {
      var k, n := items[0].key, items[0].nbytes;
      WorthScales(d, q, c, items[1..]);
      assert Proportional(d, q, c, k, n);
      WorthStep(c, q(k, n), n as real, d(k, n), Worth(d, items[1..]), Worth(q, items[1..]));
    }
  }

  lemma ScaleMin(c: real, x: real, y: real, u: real, v: real)
    requires c >= 0.0 && u == c * x && v == c * y
    ensures MinReal(u, v) == c * MinReal(x, y)
  {
    if x <= y { ScaleMono(c, x, y); } else { ScaleMono(c, y, x); }
  }

  lemma {:induction false} WorstScales(d: Pricing, q: Pricing, c: real, es: seq<Entry>)
    requires Scaled(d, q, c) && c >= 0.0 && es != [] && NoneEmpty(ItemsOf(es))
    ensures Worst(d, es) == c * Worst(q, es)
  {
    var k, n := es[0].key, es[0].nbytes;
    assert ItemsOf(es)[0].nbytes == n;
    assert Proportional(d, q, c, k, n);
    if |es| > 1 {
      assert ItemsOf(es[1..]) == ItemsOf(es)[1..];
      WorstScales(d, q, c, es[1..]);
      ScaleMin(c, q(k, n), Worst(q, es[1..]), d(k, n), Worst(d, es[1..]));
    }
  }

  /** Two factors that are zero together. */
  ghost predicate SameSide(c: real, d: real) { c >= 0.0 && d >= 0.0 && (c > 0.0 <==> d > 0.0) }

  lemma Compare(c: real, x: real, y: real)
    requires c > 0.0
    ensures c * x <= c * y <==> x <= y
  {
    if x <= y { ScaleMono(c, x, y); }
    if x > y { assert c * (x - y) > 0.0; }
  }

  /** What scaling by a non-negative factor does to a comparison. */
  lemma ScaledOrder(c: real, x: real, y: real, u: real, v: real)
    requires c >= 0.0 && u == c * x && v == c * y
    ensures u <= v <==> c == 0.0 || x <= y
  {
    if c > 0.0 { Compare(c, x, y); }
  }

  lemma ScaleQuotient(c: real, x: real, y: real, u: real)
    requires y > 0.0 && u == c * x
    ensures u / y == c * (x / y)
  {
  }

  /** Bytes-weighted value of a chain, per byte. */
  function Bid(price: Pricing, items: seq<Item>): real { Worth(price, items) / MaxInt(1, ItemBytes(items)) as real }

  function Reserve(price: Pricing, es: seq<Entry>): real { if es == [] then 0.0 else Worst(price, es) }

  lemma BidScales(d: Pricing, q: Pricing, c: real, items: seq<Item>)
    requires Scaled(d, q, c) && NoneEmpty(items)
    ensures Bid(d, items) == c * Bid(q, items)
  {
    WorthScales(d, q, c, items);
    ScaleQuotient(c, Worth(q, items), MaxInt(1, ItemBytes(items)) as real, Worth(d, items));
  }

  lemma OutbidScales(d: Pricing, q: Pricing, c: real, es: seq<Entry>, items: seq<Item>)
    requires Scaled(d, q, c) && c >= 0.0 && NoneEmpty(items) && NoneEmpty(ItemsOf(es))
    ensures Outbids(d, es, items) <==> c == 0.0 || Outbids(q, es, items)
  {
    BidScales(d, q, c, items);
    if es != [] { WorstScales(d, q, c, es); }
    assert Outbids(d, es, items) <==> Reserve(d, es) <= Bid(d, items);
    ScaledOrder(c, Reserve(q, es), Bid(q, items), Reserve(d, es), Bid(d, items));
  }

  /** Proportional prices admit the same chains. */
  lemma SameBids(d: Pricing, e: Pricing, q: Pricing, c: real, c': real, es: seq<Entry>, items: seq<Item>)
    requires Scaled(d, q, c) && Scaled(e, q, c') && SameSide(c, c') && NoneEmpty(items) && NoneEmpty(ItemsOf(es))
    ensures Outbids(d, es, items) == Outbids(e, es, items)
  {
    OutbidScales(d, q, c, es, items);
    OutbidScales(e, q, c', es, items);
  }

  lemma ChainScales(d: Pricing, q: Pricing, c: real, es: seq<Entry>)
    requires Scaled(d, q, c) && NoneEmpty(ItemsOf(es))
    ensures ChainDensity(d, es) == c * ChainDensity(q, es)
  {
    WorthScales(d, q, c, ItemsOf(es));
    if Bytes(es) != 0 { ScaleQuotient(c, Worth(q, ItemsOf(es)), Bytes(es) as real, Worth(d, ItemsOf(es))); }
  }

  lemma RankScales(d: Pricing, q: Pricing, c: real, a: seq<Entry>, b: seq<Entry>)
    requires Scaled(d, q, c) && c >= 0.0 && NoneEmpty(ItemsOf(a)) && NoneEmpty(ItemsOf(b))
    ensures ChainDensity(d, a) <= ChainDensity(d, b) <==> c == 0.0 || ChainDensity(q, a) <= ChainDensity(q, b)
  {
    ChainScales(d, q, c, a);
    ChainScales(d, q, c, b);
    ScaledOrder(c, ChainDensity(q, a), ChainDensity(q, b), ChainDensity(d, a), ChainDensity(d, b));
  }

  /** Proportional prices rank chains the same way. */
  lemma SameRank(d: Pricing, e: Pricing, q: Pricing, c: real, c': real, a: seq<Entry>, b: seq<Entry>)
    requires Scaled(d, q, c) && Scaled(e, q, c') && SameSide(c, c') && NoneEmpty(ItemsOf(a)) && NoneEmpty(ItemsOf(b))
    ensures ChainDensity(d, a) <= ChainDensity(d, b) <==> ChainDensity(e, a) <= ChainDensity(e, b)
  {
    RankScales(d, q, c, a, b);
    RankScales(e, q, c', a, b);
  }

  // ---- densities ------------------------------------------------------------

  /** The reuse probability as a price. */
  function Likelihood(kind: Kind, v: View): Pricing
    requires kind.Adaptive?
  {
    (k: Key, n: nat) => v.ReuseProb(k, kind.horizon, kind.priors, kind.defaultPrior)
  }

  lemma PerByte(q: real, saved: real, x: real, c: real)
    requires x >= 1.0 && saved == x * c
    ensures q * saved / x == c * q
  {
    assert q * saved == x * (c * q);
    Cancel(x, c * q);
  }

  /** Density is the constant times reuse probability. */
  lemma DensityIsScaled(kind: Kind, p: Probe, k: Key, n: nat)
    requires kind.Adaptive? && n >= 1
    ensures Proportional(PricingOf(kind, p), Likelihood(kind, p.view), Saving(p.cost, p.tier), k, n)
  {
    var q := p.view.ReuseProb(k, kind.horizon, kind.priors, kind.defaultPrior);
    var saved := MaxReal(0.0, p.RecomputeSeconds(n) - p.RestoreSeconds(n));
    SavedSeconds(p, n);
    PerByte(q, saved, n as real, Saving(p.cost, p.tier));
    PriceIs(kind, p, k, n, q, saved);
    LikelihoodIs(kind, p.view, k, n);
  }

  lemma PriceIs(kind: Kind, p: Probe, k: Key, n: nat, q: real, saved: real)
    requires kind.Adaptive? && n >= 1
    requires q == p.view.ReuseProb(k, kind.horizon, kind.priors, kind.defaultPrior)
    requires saved == MaxReal(0.0, p.RecomputeSeconds(n) - p.RestoreSeconds(n))
    ensures PricingOf(kind, p)(k, n) == q * saved / n as real
  {
    assert MaxInt(1, n) == n;
    var product := q * saved;
    assert Density(kind, p, k, n) == product / n as real;
  }

  lemma LikelihoodIs(kind: Kind, v: View, k: Key, n: nat)
    requires kind.Adaptive?
    ensures Likelihood(kind, v)(k, n) == v.ReuseProb(k, kind.horizon, kind.priors, kind.defaultPrior)
  {
  }

  lemma DensitiesScale(kind: Kind, p: Probe)
    requires kind.Adaptive?
    ensures Scaled(PricingOf(kind, p), Likelihood(kind, p.view), Saving(p.cost, p.tier))
  {
    forall k, n: nat | n >= 1
      ensures Proportional(PricingOf(kind, p), Likelihood(kind, p.view), Saving(p.cost, p.tier), k, n)
    {
      DensityIsScaled(kind, p, k, n);
    }
  }

  // ---- decisions ------------------------------------------------------------

  /** Two probes that show a policy the same workload and, if it looks at prices, the same side of break-even. */
  ghost predicate SamePlan(kind: Kind, p: Probe, r: Probe) {
    && SameLives(kind, p, r) && p.tier.capacity == r.tier.capacity
    && (kind.Adaptive? ==> SameSide(Saving(p.cost, p.tier), Saving(r.cost, r.tier)))
  }

  /** And, if its lifetimes are recompute times, the same recompute times. */
  ghost predicate SameLives(kind: Kind, p: Probe, r: Probe) {
    && p.view == r.view
    && (kind.Continuum? ==>
          p.cost.kvBytesPerToken == r.cost.kvBytesPerToken && p.cost.prefillRate == r.cost.prefillRate)
  }

  lemma {:induction false} AddToMembers(gs: seq<Group>, id: ChainId, e: Entry, es: seq<Entry>)
    requires e in es && forall g :: g in gs ==> forall m :: m in g.members ==> m in es
    ensures forall g :: g in AddTo(gs, id, e) ==> forall m :: m in g.members ==> m in es
  {
    if gs != [] && gs[0].id != id {
      AddToMembers(gs[1..], id, e, es);
    }
  }

  lemma {:induction false} GroupMembers(v: View, es: seq<Entry>)
    ensures forall g :: g in Groups(v, es) ==> forall m :: m in g.members ==> m in es
  {
    if es != [] {
      var n := |es| - 1;
      GroupMembers(v, es[..n]);
      AddToMembers(Groups(v, es[..n]), ChainIdOf(v, es[n].key), es[n], es);
    }
  }

  lemma PartNoneEmpty(es: seq<Entry>, part: seq<Entry>)
    requires NoneEmpty(ItemsOf(es)) && forall m :: m in part ==> m in es
    ensures NoneEmpty(ItemsOf(part))
  {
    forall i | 0 <= i < |part|
      ensures ItemsOf(part)[i].nbytes >= 1
    {
      assert part[i] in es;
      var j :| 0 <= j < |es| && es[j] == part[i];
      assert ItemsOf(es)[j].nbytes >= 1;
    }
  }

  /** The eviction order does not depend on the speeds. */
  lemma SameOrder(kind: Kind, p: Probe, r: Probe, es: seq<Entry>)
    requires SamePlan(kind, p, r) && NoneEmpty(ItemsOf(es))
    ensures EvictionOrder(kind, p, es) == EvictionOrder(kind, r, es)
  {
    if kind.Adaptive? {
      var gs := Groups(p.view, es);
      GroupMembers(p.view, es);
      forall a, b | a in gs && b in gs
        ensures GroupOrder(kind, p)(a, b) == GroupOrder(kind, r)(a, b)
      {
        PartNoneEmpty(es, a.members);
        PartNoneEmpty(es, b.members);
        SameGroupOrder(kind, p, r, a, b);
      }
      SortCongruent(gs, GroupOrder(kind, p), GroupOrder(kind, r));
    }
  }

  lemma SameGroupOrder(kind: Kind, p: Probe, r: Probe, a: Group, b: Group)
    requires kind.Adaptive? && SamePlan(kind, p, r) && NoneEmpty(ItemsOf(a.members)) && NoneEmpty(ItemsOf(b.members))
    ensures GroupBefore(kind, p, a, b) == GroupBefore(kind, r, a, b)
  {
    DensitiesScale(kind, p);
    DensitiesScale(kind, r);
    SameRank(PricingOf(kind, p), PricingOf(kind, r), Likelihood(kind, p.view),
             Saving(p.cost, p.tier), Saving(r.cost, r.tier), a.members, b.members);
  }

  lemma SameAdmission(kind: Kind, p: Probe, r: Probe, es: seq<Entry>, items: seq<Item>)
    requires SamePlan(kind, p, r) && NoneEmpty(ItemsOf(es)) && NoneEmpty(items)
    ensures Admitted(kind, p, es, p.tier.capacity, items) == Admitted(kind, r, es, r.tier.capacity, items)
  {
    if kind.Adaptive? {
      DensitiesScale(kind, p);
      DensitiesScale(kind, r);
      SameBids(PricingOf(kind, p), PricingOf(kind, r), Likelihood(kind, p.view),
               Saving(p.cost, p.tier), Saving(r.cost, r.tier), es, items);
    }
  }

  lemma SameEviction(kind: Kind, p: Probe, r: Probe, es: seq<Entry>, needed: int, protected: set<Key>)
    requires SamePlan(kind, p, r) && NoneEmpty(ItemsOf(es))
    ensures Evicted(kind, p, es, needed, protected) == Evicted(kind, r, es, needed, protected)
  {
    var current := Current(kind, p, es);
    UnexpiredSub(es, p.view.now);
    WithoutSub(current, protected);
    PartNoneEmpty(es, Without(current, protected));
    SameOrder(kind, p, r, Without(current, protected));
  }

  lemma SameInsert(kind: Kind, p: Probe, r: Probe, sched: Schedule, es: seq<Entry>, item: Item)
    requires SameLives(kind, p, r)
    ensures InsertOne(kind, p, sched, es, item) == InsertOne(kind, r, sched, es, item)
  {
    assert Expiry(kind, p, item.key, item.nbytes) == Expiry(kind, r, item.key, item.nbytes);
    assert InsertItem(kind, p, es, item) == InsertItem(kind, r, es, item);
  }

  lemma {:induction false} SameInserts(kind: Kind, p: Probe, r: Probe, sched: Schedule, es: seq<Entry>,
          items: seq<Item>)
    requires SameLives(kind, p, r)
    ensures InsertAll(kind, p, sched, es, items) == InsertAll(kind, r, sched, es, items)
    decreases |items|
  {
    if items != [] {
      SameInsert(kind, p, r, sched, es, items[0]);
      SameInserts(kind, p, r, sched, InsertOne(kind, p, sched, es, items[0]), items[1..]);
    }
  }

  lemma {:induction false} SameTouch(kind: Kind, p: Probe, r: Probe, es: seq<Entry>, keys: seq<Key>)
    requires SameLives(kind, p, r)
    ensures TouchKeys(kind, p, es, keys) == TouchKeys(kind, r, es, keys)
    decreases |keys|
  {
    if keys != [] {
      assert forall e: Entry :: Touched(kind, p, e) == Touched(kind, r, e);
      assert TouchKey(kind, p, es, keys[0]) == TouchKey(kind, r, es, keys[0]);
      SameTouch(kind, p, r, TouchKey(kind, p, es, keys[0]), keys[1..]);
    }
  }

  /** Storing a turn's blocks does not depend on the speeds. */
  lemma {:induction false} SameStore(kind: Kind, p: Probe, r: Probe, sched: Schedule, host: Host, keys: seq<Key>)
    requires SamePlan(kind, p, r) && NoneEmpty(ItemsOf(host.entries))
    requires NoneEmpty(Candidates(p.view.ix, host.entries, keys))
    ensures StoreToHost(kind, p, sched, host, keys) == StoreToHost(kind, r, sched, host, keys)
  {
    var es, items := host.entries, Candidates(p.view.ix, host.entries, keys);
    SameAdmission(kind, p, r, es, items);
    var incoming := Fresh(kind, p, es, keys);
    SameEviction(kind, p, r, es, ItemBytes(incoming) - Spare(p.tier.capacity, es), KeySet(ItemKeys(incoming)));
    assert MakeRoom(kind, p, es, incoming) == MakeRoom(kind, r, es, incoming);
    SameSettle(kind, p, r, sched, host, incoming, MakeRoom(kind, p, es, incoming));
  }

  lemma SameSettle(kind: Kind, p: Probe, r: Probe, sched: Schedule, host: Host, incoming: seq<Item>, ev: Eviction)
    requires SameLives(kind, p, r) && p.tier.capacity == r.tier.capacity
    ensures Settle(kind, p, sched, host, incoming, ev) == Settle(kind, r, sched, host, incoming, ev)
  {
    if ev.victims.Some? {
      SameInserts(kind, p, r, sched, ev.rest, Accepted(p, host.entries, incoming, ev.victims.value));
    }
  }

  // ---- runs -----------------------------------------------------------------

  /** Two configurations that differ in speeds and overheads only: for the policy that looks at prices on the
      same side of break-even, for the one whose lifetimes are recompute times at the same prefill rate. */
  ghost predicate Twins(kind: Kind, a: SimConfig, b: SimConfig) {
    && a.hbmPoolTokens == b.hbmPoolTokens && a.blockTokens == b.blockTokens && a.thrashWindow == b.thrashWindow
    && a.exp == b.exp && a.cost.kvBytesPerToken == b.cost.kvBytesPerToken && a.ram.capacity == b.ram.capacity
    && (kind.Adaptive? ==> (a.cost.IsWorthTier(a.ram) <==> b.cost.IsWorthTier(b.ram)))
    && (kind.Continuum? ==> a.cost.prefillRate == b.cost.prefillRate)
  }

  lemma SameRegister(g: Geometry, h: Geometry, blocks: map<Key, BlockInfo>, part: Part, turn: Turn)
    requires g.cost.kvBytesPerToken == h.cost.kvBytesPerToken
    ensures Register(g, blocks, part, turn) == Register(h, blocks, part, turn)
  {
    assert g.cost.BlockBytes(part.tokens) == h.cost.BlockBytes(part.tokens);
  }

  lemma SamePath(g: Geometry, h: Geometry, turn: Turn)
    requires g.width == h.width
    ensures ChainOf(g, turn) == ChainOf(h, turn) && PathOf(g, turn) == PathOf(h, turn)
  {
  }

  lemma SameBlocks(g: Geometry, h: Geometry, ix: IndexState, turn: Turn)
    requires g.width == h.width && g.cost.kvBytesPerToken == h.cost.kvBytesPerToken
    ensures TouchedBlocks(g, ix, turn) == TouchedBlocks(h, ix, turn)
  {
    SamePath(g, h, turn);
    forall k | k in PathOf(g, turn)
      ensures Register(g, ix.blocks, ChainOf(g, turn)[k.pos], turn)
          == Register(h, ix.blocks, ChainOf(g, turn)[k.pos], turn)
    {
      SameRegister(g, h, ix.blocks, ChainOf(g, turn)[k.pos], turn);
    }
  }

  /** The index does not depend on the speeds. */
  lemma SameTouchedIndex(g: Geometry, h: Geometry, ix: IndexState, turn: Turn)
    requires g.width == h.width && g.cost.kvBytesPerToken == h.cost.kvBytesPerToken
    ensures PathOf(g, turn) == PathOf(h, turn) && Touch(g, ix, turn) == Touch(h, ix, turn)
  {
    SamePath(g, h, turn);
    SameBlocks(g, h, ix, turn);
  }

  lemma TwinPlans(kind: Kind, a: SimConfig, b: SimConfig, c: Control, turn: Turn)
    requires Twins(kind, a, b)
    ensures SamePlan(kind, ProbeOf(a, c, turn), ProbeOf(b, c, turn))
  {
    SameTouchedIndex(a.Shape(), b.Shape(), c.ix, turn);
    SavingIffWorth(a.cost, a.ram);
    SavingIffWorth(b.cost, b.ram);
  }

  lemma {:induction false} PathNotEmpty(geo: Geometry, ix: IndexState, es: seq<Entry>, turn: Turn)
    requires Sound(geo, ix)
    ensures NoneEmpty(Candidates(Touch(geo, ix, turn), es, PathOf(geo, turn)))
  {
    var r, keys := Touch(geo, ix, turn), PathOf(geo, turn);
    TouchSound(geo, ix, turn);
    CandidatesApart(r, es, keys);
    var items := Candidates(r, es, keys);
    forall i | 0 <= i < |items|
      ensures items[i].nbytes >= 1
    {
      assert items[i] in items;
      assert BlockSized(geo, items[i].key, r.blocks[items[i].key]);
    }
  }

  lemma StepTwins(a: SimConfig, b: SimConfig, kind: Kind, sched: Schedule, c: Control, turn: Turn)
    requires Twins(kind, a, b) && Sound(a.Shape(), c.ix) && Housed(c.ix, c.host.entries)
    ensures StepControl(a, kind, sched, c, turn) == StepControl(b, kind, sched, c, turn)
  {
    var p, r, keys := ProbeOf(a, c, turn), ProbeOf(b, c, turn), PathOf(a.Shape(), turn);
    TwinPlans(kind, a, b, c, turn);
    SameTouchedIndex(a.Shape(), b.Shape(), c.ix, turn);
    PathNotEmpty(a.Shape(), c.ix, c.host.entries, turn);
    SameStore(kind, p, r, sched, c.host, keys);
    SameTouch(kind, p, r, StoreToHost(kind, p, sched, c.host, keys).entries, keys);
  }

  /** The index and the host tier of a whole run do not depend on tier bandwidth, efficiency, decode rate or
      overhead, nor, but for the policy whose lifetimes are recompute times, on the prefill rate; for the
      adaptive policy as long as both configurations are on the same side of break-even. */
  lemma {:induction false} ControlIgnoresRates(a: SimConfig, b: SimConfig, kind: Kind, sched: Schedule,
          turns: seq<Turn>)
    requires Twins(kind, a, b)
    ensures RunControl(a, kind, sched, turns) == RunControl(b, kind, sched, turns)
  {
    if turns != [] {
      var n := |turns| - 1;
      ControlIgnoresRates(a, b, kind, sched, turns[..n]);
      RunHoused(a, kind, sched, turns[..n]);
      StepTwins(a, b, kind, sched, RunControl(a, kind, sched, turns[..n]), turns[n]);
    }
  }

  ghost predicate SameWork(x: seq<Metric>, y: seq<Metric>) {
    |x| == |y| && forall i :: 0 <= i < |x| ==>
      x[i].recompute == y[i].recompute && x[i].restoreBytes == y[i].restoreBytes
  }

  /** Everything but the servers' clocks. */
  ghost predicate SameMoves(x: Sim, y: Sim) {
    && x.control == y.control && x.hbm == y.hbm && x.leftHbm == y.leftHbm && x.demotions == y.demotions
    && x.thrash == y.thrash && x.peakRam == y.peakRam && SameWork(x.metrics, y.metrics)
  }

  lemma SameWorkNow(kind: Kind, a: SimConfig, b: SimConfig, x: Sim, y: Sim, turn: Turn)
    requires Twins(kind, a, b) && SameMoves(x, y)
    ensures MetricOf(a, x, turn).recompute == MetricOf(b, y, turn).recompute
    ensures MetricOf(a, x, turn).restoreBytes == MetricOf(b, y, turn).restoreBytes
  {
    SameTouchedIndex(a.Shape(), b.Shape(), x.control.ix, turn);
  }

  lemma SamePoolNow(kind: Kind, a: SimConfig, b: SimConfig, ix: IndexState, hbm: seq<Item>, keys: seq<Key>)
    requires Twins(kind, a, b)
    ensures StepHbm(a, ix, hbm, keys) == StepHbm(b, ix, hbm, keys)
    ensures StepEvicted(a, ix, hbm, keys) == StepEvicted(b, ix, hbm, keys)
  {
    assert a.HbmBytes() == b.HbmBytes();
  }

  lemma TurnTwins(a: SimConfig, b: SimConfig, kind: Kind, sched: Schedule, x: Sim, y: Sim, turn: Turn)
    requires Twins(kind, a, b) && SameMoves(x, y)
    requires StepControl(a, kind, sched, x.control, turn) == StepControl(b, kind, sched, y.control, turn)
    ensures SameMoves(OneTurn(a, kind, sched, x, turn), OneTurn(b, kind, sched, y, turn))
  {
    SamePath(a.Shape(), b.Shape(), turn);
    SameWorkNow(kind, a, b, x, y, turn);
    SamePoolNow(kind, a, b, StepControl(a, kind, sched, x.control, turn).ix, x.hbm, PathOf(a.Shape(), turn));
    WorkAdded(x.metrics, y.metrics, MetricOf(a, x, turn), MetricOf(b, y, turn));
  }

  lemma WorkAdded(x: seq<Metric>, y: seq<Metric>, m: Metric, n: Metric)
    requires SameWork(x, y) && m.recompute == n.recompute && m.restoreBytes == n.restoreBytes
    ensures SameWork(x + [m], y + [n])
  {
  }

  /** Every turn recomputes and restores the same, and the same blocks move. */
  lemma {:induction false} RunsIgnoreRates(a: SimConfig, b: SimConfig, kind: Kind, sched: Schedule, turns: seq<Turn>)
    requires Twins(kind, a, b)
    ensures SameMoves(Run(a, kind, sched, turns), Run(b, kind, sched, turns))
  {
    if turns != [] {
      var n := |turns| - 1;
      RunsIgnoreRates(a, b, kind, sched, turns[..n]);
      ControlIsIndependent(a, kind, sched, turns[..n]);
      RunHoused(a, kind, sched, turns[..n]);
      StepTwins(a, b, kind, sched, RunControl(a, kind, sched, turns[..n]), turns[n]);
      TurnTwins(a, b, kind, sched, Run(a, kind, sched, turns[..n]), Run(b, kind, sched, turns[..n]), turns[n]);
    }
  }
}
