/** Which configurations can take the host tier past its capacity.

    A block is stored part full, grows in the index, and is then given up: the room it is credited with
    is its index bytes, more than the bytes it held.  So a trace can do it exactly when blocks can grow
    and the tier has room for the smallest one. */
module Overflow {
  import opened Base
  import opened Trace
  import opened Config
  import opened Prefix
  import opened Leases
  import opened Policies
  import opened Replay
  import opened HostFacts
  import opened Belady
  import opened Evictions
  import opened Bounds
  import opened Lifetimes
  import opened Capacity
  import Rates
  import Uncontended

  // ---- blocks of which nothing is known yet ---------------------------------

  /** A private block that was only ever used at time zero, by role zero and its own session. */
  predicate Even(k: Key, b: BlockInfo) {
    k.Private? && b.gap.None? && b.lastUse == 0.0 && b.roles == {0} && b.refs <= {k.session}
  }

  ghost predicate AllEven(ix: IndexState) { forall k :: k in ix.blocks ==> Even(k, ix.blocks[k]) }

  function EvenProb(priors: map<Role, real>, defaultPrior: Option<real>): real {
    MaxReal(if 0 in priors then priors[0] else if defaultPrior.Some? then defaultPrior.value else 0.05, 0.05)
  }

  lemma NoAbsence(v: View, k: Key)
    requires v.eta == map[]
    ensures v.SessionEta(k) == 0.0
  {
  }

  lemma EvenLive(v: View, k: Key, horizon: real)
    requires k in v.ix.blocks && Even(k, v.ix.blocks[k])
    ensures LiveReuseProb(v.exp, v.ix, k, v.now, horizon) == 0.05
  {
    var live := LiveLeases(v.ix, k, v.now);
    assert live <= {k.session};
    Smaller(live, {k.session});
  }

  /** All such blocks are as likely to be reused. */
  lemma EvenReuse(v: View, k: Key, horizon: real, priors: map<Role, real>, defaultPrior: Option<real>)
    requires v.eta == map[] && k in v.ix.blocks && Even(k, v.ix.blocks[k])
    ensures v.ReuseProb(k, horizon, priors, defaultPrior) == EvenProb(priors, defaultPrior)
  {
    EvenLive(v, k, horizon);
    NoAbsence(v, k);
    assert MinOf({0}) == 0;
  }

  lemma EvenPrice(kind: Kind, p: Probe, k: Key, n: nat)
    requires kind.Adaptive? && n >= 1 && p.view.eta == map[] && k in p.view.ix.blocks && Even(k, p.view.ix.blocks[k])
    ensures PricingOf(kind, p)(k, n) == Rates.Saving(p.cost, p.tier) * EvenProb(kind.priors, kind.defaultPrior)
  {
    Rates.DensityIsScaled(kind, p, k, n);
    Rates.LikelihoodIs(kind, p.view, k, n);
    EvenReuse(p.view, k, kind.horizon, kind.priors, kind.defaultPrior);
  }

  // ---- a flat price ---------------------------------------------------------

  ghost predicate Costs(price: Pricing, c: real, item: Item) { price(item.key, item.nbytes) == c }

  ghost predicate Flat(price: Pricing, c: real, items: seq<Item>) {
    forall i :: 0 <= i < |items| ==> Costs(price, c, items[i])
  }

  lemma AddScaled(c: real, x: real, y: real)
    ensures c * x + c * y == c * (x + y)
  {
  }

  lemma {:induction false} FlatWorth(price: Pricing, c: real, items: seq<Item>)
    requires Flat(price, c, items)
    ensures Worth(price, items) == c * ItemBytes(items) as real
  {
    if items != [] {
      assert Costs(price, c, items[0]);
      FlatWorth(price, c, items[1..]);
      AddScaled(c, items[0].nbytes as real, ItemBytes(items[1..]) as real);
    }
  }

  lemma {:induction false} FlatWorst(price: Pricing, c: real, es: seq<Entry>)
    requires es != [] && Flat(price, c, ItemsOf(es))
    ensures Worst(price, es) == c
  {
    assert Costs(price, c, ItemsOf(es)[0]);
    if |es| > 1 {
      assert ItemsOf(es)[1..] == ItemsOf(es[1..]);
      FlatWorst(price, c, es[1..]);
    }
  }

  lemma FlatBid(c: real, worth: real, n: nat)
    requires n >= 1 && worth == c * n as real
    ensures worth / MaxInt(1, n) as real == c
  {
  }

  /** At a flat price no chain is outbid. */
  lemma {:induction false} FlatOutbids(price: Pricing, c: real, es: seq<Entry>, items: seq<Item>)
    requires es != [] && ItemBytes(items) >= 1
    requires Flat(price, c, ItemsOf(es)) && Flat(price, c, items)
    ensures Outbids(price, es, items)
  {
    FlatWorth(price, c, items);
    FlatWorst(price, c, es);
    FlatBid(c, Worth(price, items), ItemBytes(items));
  }

  /** Blocks of the index that are not empty. */
  ghost predicate Indexed(ix: IndexState, items: seq<Item>) {
    forall i :: 0 <= i < |items| ==> items[i].key in ix.blocks && items[i].nbytes >= 1
  }

  /** No policy refuses a chain among such blocks. */
  lemma AdmitsEven(kind: Kind, p: Probe, es: seq<Entry>, items: seq<Item>)
    requires (kind.Adaptive? ==> p.view.eta == map[]) && AllEven(p.view.ix)
    requires Indexed(p.view.ix, ItemsOf(es)) && Indexed(p.view.ix, items)
    ensures Admitted(kind, p, es, p.tier.capacity, items) == items
  {
    if kind.Adaptive? && items != [] && es != [] {
      var price, c := PricingOf(kind, p), Rates.Saving(p.cost, p.tier) * EvenProb(kind.priors, kind.defaultPrior);
      FlatIndexed(kind, p, ItemsOf(es));
      FlatIndexed(kind, p, items);
      FlatOutbids(price, c, es, items);
    }
  }

  lemma FlatIndexed(kind: Kind, p: Probe, items: seq<Item>)
    requires kind.Adaptive? && p.view.eta == map[] && AllEven(p.view.ix) && Indexed(p.view.ix, items)
    ensures Flat(PricingOf(kind, p), Rates.Saving(p.cost, p.tier) * EvenProb(kind.priors, kind.defaultPrior), items)
  {
    forall i | 0 <= i < |items|
      ensures Costs(PricingOf(kind, p), Rates.Saving(p.cost, p.tier) * EvenProb(kind.priors, kind.defaultPrior),
                    items[i])
    {
      EvenPrice(kind, p, items[i].key, items[i].nbytes);
    }
  }

  // ---- private turns at time zero -------------------------------------------

  function Ask(session: Session, prompt: nat): Turn { Turn(0.0, session, 0, prompt, 0, 0, None, false) }

  /** The path of a private prompt. */
  lemma AskPath(geo: Geometry, turn: Turn, i: nat)
    requires turn.sharedPrefix == 0 && i < |ChainOf(geo, turn)|
    ensures PathOf(geo, turn)[i] == ChainOf(geo, turn)[i].key == Private(turn.session, i)
  {
    NoBlocks(geo.width);
    assert ChainOf(geo, turn)[i] == PromptOf(turn).PartAt(geo.width, i);
  }

  lemma EvenTouch(geo: Geometry, ix: IndexState, session: Session, prompt: nat)
    requires AllEven(ix)
    ensures AllEven(Touch(geo, ix, Ask(session, prompt)))
  {
    var turn := Ask(session, prompt);
    var r := Touch(geo, ix, turn);
    forall k | k in r.blocks
      ensures Even(k, r.blocks[k])
    {
      if k in PathOf(geo, turn) {
        AskPath(geo, turn, k.pos);
        EvenRegister(geo, ix, ChainOf(geo, turn)[k.pos], turn);
      } else {
        assert Even(k, ix.blocks[k]);
      }
    }
  }

  lemma EvenRegister(geo: Geometry, ix: IndexState, part: Part, turn: Turn)
    requires AllEven(ix) && part.key.Private? && part.key.session == turn.session && turn.t == 0.0 && turn.role == 0
    ensures Even(part.key, Register(geo, ix.blocks, part, turn))
  {
    if part.key in ix.blocks { assert Even(part.key, ix.blocks[part.key]); }
  }

  lemma OnePrivatePath(geo: Geometry, turn: Turn, size: nat)
    requires OneBlock(geo, turn, size) && turn.sharedPrefix == 0
    ensures PathOf(geo, turn) == [Private(turn.session, 0)]
    ensures ChainOf(geo, turn) == [Part(Private(turn.session, 0), size, false)]
  {
    OneBlockPath(geo, turn, size);
    NoBlocks(geo.width);
    assert ChainOf(geo, turn)[0] == PromptOf(turn).PartAt(geo.width, 0);
  }

  // ---- sessions with a block that was stored part full ----------------------

  /** The index knows one private block of each of `n` sessions; those of the first `grown` are full and
      the others hold one token. */
  ghost predicate Blocks(geo: Geometry, ix: IndexState, n: nat, grown: nat) {
    && (forall s: nat :: s < n ==> Private(s, 0) in ix.blocks)
    && forall k :: k in ix.blocks ==>
         k.Private? && k.pos == 0 && k.session < n
         && ix.blocks[k].tokens == if k.session < grown then geo.width else 1
  }

  lemma NewBlock(geo: Geometry, ix: IndexState, n: nat)
    requires Blocks(geo, ix, n, n)
    ensures Blocks(geo, Touch(geo, ix, Ask(n, 1)), n + 1, n)
  {
    OnePrivatePath(geo, Ask(n, 1), 1);
    TouchedOne(geo, ix, n, 1);
  }

  lemma GrownBlock(geo: Geometry, ix: IndexState, n: nat)
    requires geo.width >= 2 && Blocks(geo, ix, n + 1, n)
    ensures Blocks(geo, Touch(geo, ix, Ask(n, geo.width)), n + 1, n + 1)
  {
    OnePrivatePath(geo, Ask(n, geo.width), geo.width);
    TouchedOne(geo, ix, n, geo.width);
    assert Private(n, 0) in ix.blocks && ix.blocks[Private(n, 0)].tokens == 1;
  }

  lemma TouchedOne(geo: Geometry, ix: IndexState, n: nat, size: nat)
    requires 1 <= size <= geo.width
    ensures var r, k := Touch(geo, ix, Ask(n, size)).blocks, Private(n, 0);
            && r.Keys == ix.blocks.Keys + {k}
            && (forall j :: j in r && j != k ==> r[j].tokens == ix.blocks[j].tokens)
            && (k !in ix.blocks || ix.blocks[k].tokens < size ==> r[k].tokens == size)
  {
    OnePrivatePath(geo, Ask(n, size), size);
    var keys := PathOf(geo, Ask(n, size));
    assert Private(n, 0) == keys[0] && forall j :: j != Private(n, 0) ==> j !in keys;
  }

  function Partials(n: nat, size: nat): (items: seq<Item>)
    ensures |items| == n && forall s :: 0 <= s < n ==> items[s] == Item(Private(s, 0), size)
  {
    seq(n, s requires 0 <= s < n => Item(Private(s, 0), size))
  }

  /** The tier holds those blocks at one token each, none of them expired at time zero. */
  ghost predicate Holding(cfg: SimConfig, kind: Kind, c: Control, n: nat) {
    && ItemsOf(c.host.entries) == Partials(n, cfg.cost.BlockBytes(1)) && c.host.leftAt == map[]
    && (kind.Adaptive? ==> c.eta == map[]) && forall e :: e in c.host.entries ==> Alive(e, 0.0)
  }

  /** A turn that announces an absence. */
  function Leaving(eta: Option<real>, session: Session, prompt: nat): Turn { Ask(session, prompt).(toolEta := eta) }

  /** The index does not look at announcements. */
  lemma LeavingTouch(geo: Geometry, ix: IndexState, eta: Option<real>, session: Session, prompt: nat)
    ensures Touch(geo, ix, Leaving(eta, session, prompt)) == Touch(geo, ix, Ask(session, prompt))
    ensures PathOf(geo, Leaving(eta, session, prompt)) == PathOf(geo, Ask(session, prompt))
  {
    var a, b := Leaving(eta, session, prompt), Ask(session, prompt);
    assert ChainOf(geo, a) == ChainOf(geo, b);
    forall part, blocks | true
      ensures Register(geo, blocks, part, a) == Register(geo, blocks, part, b)
    {
    }
    assert TouchedBlocks(geo, ix, a) == TouchedBlocks(geo, ix, b);
  }

  /** The policy grants the smallest block a lifetime when its session announces this absence. */
  predicate Grants(cfg: SimConfig, kind: Kind, eta: Option<real>) {
    match kind
    case FixedTtl(base, perGib) => base + perGib * (cfg.cost.BlockBytes(1) as real / GIB) > 0.0
    case Continuum(_, minimum, maximum) => eta.Some? && eta.value + MinReal(maximum, minimum) > 0.0
    case Adaptive(_, _, _) => eta.None?
    case _ => true
  }

  lemma SeenNow(v: View, s: Session, k: Key)
    requires s in LiveLeases(v.ix, k, v.now)
    ensures v.SessionEta(k) >= v.Eta(s)
  {
  }

  lemma Outlives(cfg: SimConfig, kind: Kind, p: Probe, s: Session, k: Key, eta: Option<real>)
    requires Grants(cfg, kind, eta) && p.view.now == 0.0 && s in LiveLeases(p.view.ix, k, 0.0)
    requires eta.Some? ==> p.view.Eta(s) == eta.value
    ensures At(0.0).Before(Expiry(kind, p, k, cfg.cost.BlockBytes(1)))
  {
    SeenNow(p.view, s, k);
  }

  /** The session that asks is a live lessee of its block. */
  lemma AskerLives(geo: Geometry, ix: IndexState, session: Session, size: nat)
    requires 1 <= size <= geo.width
    ensures session in LiveLeases(Touch(geo, ix, Ask(session, size)), Private(session, 0), 0.0)
  {
    OnePrivatePath(geo, Ask(session, size), size);
    assert Private(session, 0) == PathOf(geo, Ask(session, size))[0];
  }

  /** After a turn on one of the blocks the entries are still alive. */
  lemma StillAlive(cfg: SimConfig, kind: Kind, sched: Schedule, c: Control, n: nat, eta: Option<real>,
          session: Session, size: nat)
    requires Grants(cfg, kind, eta) && UniqueKeys(c.host.entries) && Holding(cfg, kind, c, n)
    requires 1 <= size <= cfg.Shape().width
    requires var r := StepControl(cfg, kind, sched, c, Leaving(eta, session, size)).host.entries;
             ItemsOf(r) == Partials(|r|, cfg.cost.BlockBytes(1))
    ensures forall e :: e in StepControl(cfg, kind, sched, c, Leaving(eta, session, size)).host.entries ==>
        Alive(e, 0.0)
  {
    var turn := Leaving(eta, session, size);
    var r, p := StepControl(cfg, kind, sched, c, turn).host.entries, ProbeOf(cfg, c, turn);
    StepRenews(cfg, kind, sched, c, turn);
    OnePrivatePath(cfg.Shape(), turn, size);
    LeavingTouch(cfg.Shape(), c.ix, eta, session, size);
    AskerLives(cfg.Shape(), c.ix, session, size);
    Outlives(cfg, kind, p, session, Private(session, 0), eta);
    forall e | e in r
      ensures Alive(e, 0.0)
    {
      var i :| 0 <= i < |r| && r[i] == e;
      assert ItemsOf(r)[i].nbytes == cfg.cost.BlockBytes(1);
    }
  }

  // ---- building the state up ------------------------------------------------

  /** A fresh one-block turn that fits is stored, whatever the policy. */
  lemma StoresNext(cfg: SimConfig, kind: Kind, sched: Schedule, c: Control, eta: Option<real>, session: Session,
          size: nat)
    requires 1 <= size <= cfg.Shape().width && Sound(cfg.Shape(), c.ix) && Housed(c.ix, c.host.entries)
    requires AllEven(c.ix) && c.host.leftAt == map[] && (kind.Adaptive? ==> c.eta == map[] && eta.None?)
    requires !HasKey(c.host.entries, Private(session, 0)) && Private(session, 0) !in c.ix.blocks
    requires Bytes(c.host.entries) + cfg.cost.BlockBytes(size) <= cfg.ram.capacity
    ensures var r := StepControl(cfg, kind, sched, c, Leaving(eta, session, size));
            && ItemsOf(r.host.entries)
              == ItemsOf(c.host.entries) + [Item(Private(session, 0), cfg.cost.BlockBytes(size))]
            && r.host.leftAt == map[] && r.eta == Announce(c.eta, Leaving(eta, session, size))
  {
    var turn, k := Leaving(eta, session, size), Private(session, 0);
    var p, es, incoming := ProbeOf(cfg, c, turn), c.host.entries, [Item(k, cfg.cost.BlockBytes(size))];
    OnePrivatePath(cfg.Shape(), turn, size);
    LeavingTouch(cfg.Shape(), c.ix, eta, session, size);
    BytesOfNew(cfg.Shape(), c.ix, session, size);
    EvenTouch(cfg.Shape(), c.ix, session, size);
    assert Candidates(p.view.ix, es, [k]) == incoming;
    IndexedHoused(cfg.Shape(), c, turn);
    AdmitsEven(kind, p, es, incoming);
    assert ItemBytes(incoming) == cfg.cost.BlockBytes(size);
    Uncontended.SettlesAll(kind, p, sched, c.host, incoming);
    StepItems(cfg, kind, sched, c, turn);
  }

  lemma BytesOfNew(geo: Geometry, ix: IndexState, session: Session, size: nat)
    requires Sound(geo, ix) && 1 <= size <= geo.width && Private(session, 0) !in ix.blocks
    ensures var r, k := Touch(geo, ix, Ask(session, size)), Private(session, 0);
            k in r.blocks && r.Bytes(k) == geo.cost.BlockBytes(size) && r.Bytes(k) >= 1
  {
    var r, k := Touch(geo, ix, Ask(session, size)), Private(session, 0);
    TouchSound(geo, ix, Ask(session, size));
    TouchedOne(geo, ix, session, size);
    assert BlockSized(geo, k, r.blocks[k]);
  }

  /** Residents are blocks of the index, and not empty. */
  lemma IndexedHoused(geo: Geometry, c: Control, turn: Turn)
    requires Sound(geo, c.ix) && Housed(c.ix, c.host.entries)
    ensures Housed(Touch(geo, c.ix, turn), c.host.entries)
    ensures Indexed(Touch(geo, c.ix, turn), ItemsOf(c.host.entries))
  {
    TouchGrows(geo, c.ix, turn);
    HousedGrows(c.ix, Touch(geo, c.ix, turn), c.host.entries);
  }

  /** A turn whose block is resident leaves the tier's blocks and bytes as they are. */
  lemma KeepsBytes(cfg: SimConfig, kind: Kind, sched: Schedule, c: Control, eta: Option<real>, session: Session,
          size: nat)
    requires 1 <= size <= cfg.Shape().width && HasKey(c.host.entries, Private(session, 0))
    ensures var r := StepControl(cfg, kind, sched, c, Leaving(eta, session, size));
            && ItemsOf(r.host.entries) == ItemsOf(c.host.entries) && r.host.leftAt == c.host.leftAt
            && r.eta == Announce(c.eta, Leaving(eta, session, size))
  {
    var turn := Leaving(eta, session, size);
    var p, es := ProbeOf(cfg, c, turn), c.host.entries;
    OnePrivatePath(cfg.Shape(), turn, size);
    assert Candidates(p.view.ix, es, [Private(session, 0)]) == [];
    StepItems(cfg, kind, sched, c, turn);
  }

  /** `n` sessions with their one-token blocks in the tier; `grown` of those blocks are full by now. */
  ghost predicate Ready(cfg: SimConfig, kind: Kind, c: Control, n: nat, grown: nat) {
    && Sound(cfg.Shape(), c.ix) && Housed(c.ix, c.host.entries) && AllEven(c.ix)
    && Blocks(cfg.Shape(), c.ix, n, grown) && Holding(cfg, kind, c, n)
  }

  lemma {:induction false} PartialBytes(es: seq<Entry>, n: nat, size: nat)
    requires ItemsOf(es) == Partials(n, size)
    ensures |es| == n && Bytes(es) == n * size && forall s: nat :: HasKey(es, Private(s, 0)) <==> s < n
  {
    assert |es| == |ItemsOf(es)|;
    forall i | 0 <= i < |es|
      ensures es[i].key == Private(i, 0) && es[i].nbytes == size
    {
      assert ItemsOf(es)[i] == Partials(n, size)[i];
    }
    EqualBytes(es, size);
    forall s: nat
      ensures HasKey(es, Private(s, 0)) <==> s < n
    {
      if s < n { assert es[s].key == Private(s, 0); }
    }
  }

  lemma OneMore(n: nat, size: nat, capacity: nat)
    requires (n + 1) * size <= capacity
    ensures n * size + size <= capacity
  {
  }

  lemma NextPartial(n: nat, size: nat)
    ensures Partials(n + 1, size) == Partials(n, size) + [Item(Private(n, 0), size)]
  {
  }

  lemma LeavingArrives(geo: Geometry, ix: IndexState, eta: Option<real>, n: nat)
    requires AllEven(ix) && Blocks(geo, ix, n, n)
    ensures var r := Touch(geo, ix, Leaving(eta, n, 1)); AllEven(r) && Blocks(geo, r, n + 1, n)
  {
    LeavingTouch(geo, ix, eta, n, 1);
    EvenTouch(geo, ix, n, 1);
    NewBlock(geo, ix, n);
  }

  lemma LeavingGrows(geo: Geometry, ix: IndexState, eta: Option<real>, n: nat)
    requires geo.width >= 2 && AllEven(ix) && Blocks(geo, ix, n + 1, n)
    ensures var r := Touch(geo, ix, Leaving(eta, n, geo.width)); AllEven(r) && Blocks(geo, r, n + 1, n + 1)
  {
    LeavingTouch(geo, ix, eta, n, geo.width);
    EvenTouch(geo, ix, n, geo.width);
    GrownBlock(geo, ix, n);
  }

  /** One token of the next session. */
  lemma Arrives(cfg: SimConfig, kind: Kind, sched: Schedule, c: Control, eta: Option<real>, n: nat)
    requires Grants(cfg, kind, eta) && Ready(cfg, kind, c, n, n)
    requires (n + 1) * cfg.cost.BlockBytes(1) <= cfg.ram.capacity
    ensures Ready(cfg, kind, StepControl(cfg, kind, sched, c, Leaving(eta, n, 1)), n + 1, n)
  {
    var b, r := cfg.cost.BlockBytes(1), StepControl(cfg, kind, sched, c, Leaving(eta, n, 1));
    PartialBytes(c.host.entries, n, b);
    OneMore(n, b, cfg.ram.capacity);
    StoresNext(cfg, kind, sched, c, eta, n, 1);
    StepHoused(cfg, kind, sched, c, Leaving(eta, n, 1));
    LeavingArrives(cfg.Shape(), c.ix, eta, n);
    NextPartial(n, b);
    assert |r.host.entries| == |ItemsOf(r.host.entries)|;
    StillAlive(cfg, kind, sched, c, n, eta, n, 1);
  }

  /** A full block of the same session: the index grows, the entry does not. */
  lemma Grows(cfg: SimConfig, kind: Kind, sched: Schedule, c: Control, eta: Option<real>, n: nat)
    requires Grants(cfg, kind, eta) && Ready(cfg, kind, c, n + 1, n) && cfg.Shape().width >= 2
    ensures Ready(cfg, kind, StepControl(cfg, kind, sched, c, Leaving(eta, n, cfg.Shape().width)), n + 1, n + 1)
  {
    var b, w := cfg.cost.BlockBytes(1), cfg.Shape().width;
    var r := StepControl(cfg, kind, sched, c, Leaving(eta, n, w));
    PartialBytes(c.host.entries, n + 1, b);
    KeepsBytes(cfg, kind, sched, c, eta, n, w);
    StepHoused(cfg, kind, sched, c, Leaving(eta, n, w));
    LeavingGrows(cfg.Shape(), c.ix, eta, n);
    assert |r.host.entries| == |ItemsOf(r.host.entries)|;
    StillAlive(cfg, kind, sched, c, n + 1, eta, n, w);
  }

  /** `n` sessions, each with a one-token turn and then a turn of a full block. */
  function Opening(eta: Option<real>, n: nat, width: nat): seq<Turn> {
    if n == 0 then []
    else Opening(eta, n - 1, width) + [Leaving(eta, n - 1, 1)] + [Leaving(eta, n - 1, width)]
  }

  lemma {:induction false} RunNext(cfg: SimConfig, kind: Kind, sched: Schedule, turns: seq<Turn>, turn: Turn)
    ensures RunControl(cfg, kind, sched, turns + [turn])
        == StepControl(cfg, kind, sched, RunControl(cfg, kind, sched, turns), turn)
  {
    assert (turns + [turn])[..|turns|] == turns;
  }

  lemma {:induction false} RunOne(cfg: SimConfig, kind: Kind, sched: Schedule, a: Turn)
    ensures RunControl(cfg, kind, sched, [a]) == StepControl(cfg, kind, sched, START, a)
  {
    assert [a][..0] == [];
  }

  lemma {:induction false} RunTwo(cfg: SimConfig, kind: Kind, sched: Schedule, a: Turn, b: Turn)
    ensures RunControl(cfg, kind, sched, [a, b]) == StepControl(cfg, kind, sched, RunControl(cfg, kind, sched, [a]), b)
  {
    assert [a, b][..1] == [a];
  }

  /** What a step does to a state, over a list of turns. */
  function Folded(step: (Control, Turn) -> Control, turns: seq<Turn>): Control {
    if turns == [] then START else step(Folded(step, turns[..|turns| - 1]), turns[|turns| - 1])
  }

  lemma {:induction false} FoldedNext(step: (Control, Turn) -> Control, turns: seq<Turn>, turn: Turn)
    ensures Folded(step, turns + [turn]) == step(Folded(step, turns), turn)
  {
    assert (turns + [turn])[..|turns|] == turns;
  }

  function StepOf(cfg: SimConfig, kind: Kind, sched: Schedule): (Control, Turn) -> Control {
    (c: Control, turn: Turn) => StepControl(cfg, kind, sched, c, turn)
  }

  lemma {:induction false} RunIsFolded(cfg: SimConfig, kind: Kind, sched: Schedule, turns: seq<Turn>)
    ensures RunControl(cfg, kind, sched, turns) == Folded(StepOf(cfg, kind, sched), turns)
  {
    if turns != [] { RunIsFolded(cfg, kind, sched, turns[..|turns| - 1]); }
  }

  /** The session `n` arrives, and its block grows. */
  ghost predicate Prepares(step: (Control, Turn) -> Control, ready: (Control, nat, nat) -> bool, eta: Option<real>,
                           width: nat, n: nat) {
    && (forall c :: ready(c, n, n) ==> ready(step(c, Leaving(eta, n, 1)), n + 1, n))
    && forall c :: ready(c, n + 1, n) ==> ready(step(c, Leaving(eta, n, width)), n + 1, n + 1)
  }

  lemma {:induction false} FoldedReady(step: (Control, Turn) -> Control, ready: (Control, nat, nat) -> bool,
                                       eta: Option<real>, width: nat, n: nat)
    requires ready(START, 0, 0) && forall m: nat :: m < n ==> Prepares(step, ready, eta, width, m)
    ensures ready(Folded(step, Opening(eta, n, width)), n, n)
  {
    if n > 0 {
      var before := Opening(eta, n - 1, width);
      FoldedReady(step, ready, eta, width, n - 1);
      assert Prepares(step, ready, eta, width, n - 1);
      FoldedNext(step, before, Leaving(eta, n - 1, 1));
      FoldedNext(step, before + [Leaving(eta, n - 1, 1)], Leaving(eta, n - 1, width));
    }
  }

  lemma {:induction false} OpenedIsReady(cfg: SimConfig, kind: Kind, sched: Schedule, eta: Option<real>, n: nat)
    requires Grants(cfg, kind, eta) && cfg.Shape().width >= 2 && n * cfg.cost.BlockBytes(1) <= cfg.ram.capacity
    ensures Ready(cfg, kind, RunControl(cfg, kind, sched, Opening(eta, n, cfg.Shape().width)), n, n)
  {
    var step, ready := StepOf(cfg, kind, sched), (c: Control, m: nat, grown: nat) => Ready(cfg, kind, c, m, grown);
    NoneReady(cfg, kind);
    forall m: nat | m < n
      ensures Prepares(step, ready, eta, cfg.Shape().width, m)
    {
      MulMono(cfg.cost.BlockBytes(1), m + 1, n);
      forall c | ready(c, m, m) { Arrives(cfg, kind, sched, c, eta, m); }
      forall c | ready(c, m + 1, m) { Grows(cfg, kind, sched, c, eta, m); }
    }
    FoldedReady(step, ready, eta, cfg.Shape().width, n);
    RunIsFolded(cfg, kind, sched, Opening(eta, n, cfg.Shape().width));
  }

  lemma NoneReady(cfg: SimConfig, kind: Kind)
    ensures Ready(cfg, kind, START, 0, 0)
  {
    assert ItemsOf([]) == Partials(0, cfg.cost.BlockBytes(1));
  }

  // ---- the turn that passes the capacity ------------------------------------

  lemma WholeCount(blocks: nat, width: Positive)
    ensures BlockCount(blocks * width, width) == blocks
    ensures forall i: nat :: i < blocks ==> TokensAt(blocks * width, width, i) == width
  {
    DivUnique(blocks * width + (width as int - 1), width, blocks, width as int - 1);
    forall i: nat | i < blocks
      ensures TokensAt(blocks * width, width, i) == width
    {
      MulMono(width, i + 1, blocks);
    }
  }

  lemma WholePrompt(geo: Geometry, session: Session, blocks: nat)
    ensures var turn := Ask(session, blocks * geo.width);
            && |ChainOf(geo, turn)| == |PathOf(geo, turn)| == blocks
            && forall i :: 0 <= i < blocks ==> ChainOf(geo, turn)[i] == Part(Private(session, i), geo.width, false)
  {
    NoBlocks(geo.width);
    WholeCount(blocks, geo.width);
    PromptParts(geo, Ask(session, blocks * geo.width), blocks);
  }

  lemma PromptParts(geo: Geometry, turn: Turn, blocks: nat)
    requires turn.sharedPrefix == 0 && BlockCount(0, geo.width) == 0 && BlockCount(turn.prompt, geo.width) == blocks
    requires forall i: nat :: i < blocks ==> TokensAt(turn.prompt, geo.width, i) == geo.width
    ensures |ChainOf(geo, turn)| == blocks
    ensures forall i :: 0 <= i < blocks ==> ChainOf(geo, turn)[i] == Part(Private(turn.session, i), geo.width, false)
  {
    forall i | 0 <= i < blocks
      ensures ChainOf(geo, turn)[i] == Part(Private(turn.session, i), geo.width, false)
    {
      assert ChainOf(geo, turn)[i] == PromptOf(turn).PartAt(geo.width, i);
    }
  }

  /** After a prompt of whole blocks by a new session every block of the index is full. */
  lemma AllFull(geo: Geometry, ix: IndexState, n: nat, blocks: nat)
    requires Sound(geo, ix) && Blocks(geo, ix, n, n)
    ensures var r := Touch(geo, ix, Ask(n, blocks * geo.width));
            forall k :: k in r.blocks ==> r.Bytes(k) == geo.cost.BlockBytes(geo.width)
  {
    var turn := Ask(n, blocks * geo.width);
    var r := Touch(geo, ix, turn);
    TouchSound(geo, ix, turn);
    WholePrompt(geo, n, blocks);
    forall k | k in r.blocks
      ensures r.Bytes(k) == geo.cost.BlockBytes(geo.width)
    {
      assert BlockSized(geo, k, r.blocks[k]);
      if k in PathOf(geo, turn) {
        assert ChainOf(geo, turn)[k.pos].key == k;
        assert k !in ix.blocks;
      }
    }
  }

  lemma {:induction false} AllMissing(ix: IndexState, es: seq<Entry>, keys: seq<Key>)
    requires forall k :: k in keys ==> !HasKey(es, k)
    ensures Candidates(ix, es, keys) == PathItems(ix, keys)
  {
    if keys != [] {
      assert keys[0] in keys && forall k :: k in keys[1..] ==> k in keys;
      AllMissing(ix, es, keys[1..]);
    }
  }

  lemma OnceMore(n: nat, size: nat)
    requires n >= 1
    ensures n * size == (n - 1) * size + size && (n - 1) * size >= 0
  {
  }

  lemma {:induction false} FitEqual(items: seq<Item>, size: nat, room: int, n: nat)
    requires AllOfSize(items, size) && n <= |items| && n * size <= room
    ensures ItemBytes(Fit(items, room)) >= n * size
  {
    if n > 0 {
      OnceMore(n, size);
      FitEqual(items[1..], size, room - size, n - 1);
      assert Fit(items, room)[1..] == Fit(items[1..], room - size);
    }
  }

  lemma {:induction false} EqualIndexBytes(ix: IndexState, keys: seq<Key>, size: nat)
    requires forall k :: k in keys ==> ix.Bytes(k) == size
    ensures PathBytes(ix, keys) == |keys| * size
  {
    if keys != [] {
      assert keys[0] in keys && forall k :: k in keys[1..] ==> k in keys;
      EqualIndexBytes(ix, keys[1..], size);
      OnceMore(|keys|, size);
    }
  }

  /** When full blocks of the residents come to more than the capacity, a prompt of at least as many new
      blocks overfills the tier. */
  lemma LongPromptOverfills(cfg: SimConfig, kind: Kind, c: Control, n: nat)
    requires Ready(cfg, kind, c, n, n) && n >= 1 && n * cfg.cost.BlockBytes(cfg.Shape().width) > cfg.ram.capacity
    ensures TurnOverfills(cfg, kind, c, Ask(n, n * cfg.Shape().width))
  {
    var geo, turn, size := cfg.Shape(), Ask(n, n * cfg.Shape().width), cfg.cost.BlockBytes(cfg.Shape().width);
    var p, es, keys := ProbeOf(cfg, c, turn), c.host.entries, PathOf(cfg.Shape(), turn);
    UnexpiredIff(es, 0.0);
    PartialBytes(es, n, cfg.cost.BlockBytes(1));
    FreshAreFull(cfg, kind, c, n);
    ResidentsAreFull(cfg, kind, c, n);
    FitEqual(Fresh(kind, p, es, keys), size, FullRoom(kind, p, es), n);
  }

  /** Every block of the prompt is missing, and full. */
  lemma PromptIsMissing(geo: Geometry, c: Control, n: nat)
    requires Sound(geo, c.ix) && Housed(c.ix, c.host.entries) && Blocks(geo, c.ix, n, n)
    ensures var turn := Ask(n, n * geo.width);
            var items := Candidates(Touch(geo, c.ix, turn), c.host.entries, PathOf(geo, turn));
            |items| == n && AllOfSize(items, geo.cost.BlockBytes(geo.width)) && Indexed(Touch(geo, c.ix, turn), items)
  {
    var turn, es := Ask(n, n * geo.width), c.host.entries;
    var ix, keys := Touch(geo, c.ix, turn), PathOf(geo, turn);
    WholePrompt(geo, n, n);
    AllFull(geo, c.ix, n, n);
    forall k | k in keys
      ensures !HasKey(es, k) && k in ix.blocks
    {
      assert k == ChainOf(geo, turn)[k.pos].key;
      forall i | 0 <= i < |es|
        ensures es[i].key != k
      {
        assert es[i].key in c.ix.blocks;
      }
    }
    AllMissing(ix, es, keys);
  }

  /** So it is fresh: no policy refuses it. */
  lemma FreshAreFull(cfg: SimConfig, kind: Kind, c: Control, n: nat)
    requires Ready(cfg, kind, c, n, n)
    ensures var incoming := FreshOf(cfg, kind, c, Ask(n, n * cfg.Shape().width));
            |incoming| == n && AllOfSize(incoming, cfg.cost.BlockBytes(cfg.Shape().width))
  {
    var turn := Ask(n, n * cfg.Shape().width);
    var p := ProbeOf(cfg, c, turn);
    PromptIsMissing(cfg.Shape(), c, n);
    EvenTouch(cfg.Shape(), c.ix, n, n * cfg.Shape().width);
    IndexedHoused(cfg.Shape(), c, turn);
    AdmitsEven(kind, p, c.host.entries, Candidates(p.view.ix, c.host.entries, PathOf(cfg.Shape(), turn)));
  }

  lemma ResidentsAreFull(cfg: SimConfig, kind: Kind, c: Control, n: nat)
    requires Ready(cfg, kind, c, n, n)
    ensures PathBytes(Touch(cfg.Shape(), c.ix, Ask(n, n * cfg.Shape().width)), EntryKeys(c.host.entries))
         == n * cfg.cost.BlockBytes(cfg.Shape().width)
  {
    var geo, es := cfg.Shape(), c.host.entries;
    PartialBytes(es, n, cfg.cost.BlockBytes(1));
    AllFull(geo, c.ix, n, n);
    IndexedHoused(geo, c, Ask(n, n * geo.width));
    FullResidents(Touch(geo, c.ix, Ask(n, n * geo.width)), es, cfg.cost.BlockBytes(geo.width));
  }

  lemma {:induction false} FullResidents(ix: IndexState, es: seq<Entry>, size: nat)
    requires Housed(ix, es) && forall k :: k in ix.blocks ==> ix.Bytes(k) == size
    ensures PathBytes(ix, EntryKeys(es)) == |es| * size
  {
    EqualIndexBytes(ix, EntryKeys(es), size);
  }

  // ---- when it can happen ---------------------------------------------------

  lemma TwoTokens(cost: CostModel, width: nat)
    requires width >= 2
    ensures cost.BlockBytes(width) >= 2 * cost.BlockBytes(1)
  {
    var f := cost.BlockBytes(1);
    assert f as real <= cost.kvBytesPerToken;
    assert (2 * f) as real <= 2.0 * cost.kvBytesPerToken;
    BytesMono(cost, 2, width);
  }

  /** As many one-token blocks as fit would be more than the capacity if they were full. */
  lemma SlotsPass(capacity: nat, one: nat, full: nat)
    requires 1 <= one <= capacity && full >= 2 * one
    ensures var n := capacity / one; n >= 1 && n * one <= capacity < n * full
  {
    var n := capacity / one;
    SlotsFit(capacity, one);
    MulMono(n, 2 * one, full);
    assert n * (2 * one) == n * one + n * one;
    MulMono(one, 1, n);
  }

  function OneTokenSlots(cfg: SimConfig): nat { cfg.ram.capacity / cfg.cost.BlockBytes(1) }

  /** As many sessions as fit at one token each grow their block; then another asks for as many blocks. */
  function Passing(cfg: SimConfig, eta: Option<real>): seq<Turn> {
    var n, w := OneTokenSlots(cfg), cfg.Shape().width;
    Opening(eta, n, w) + [Ask(n, n * w)]
  }

  lemma {:induction false} PassingPasses(cfg: SimConfig, kind: Kind, sched: Schedule, eta: Option<real>)
    requires Grants(cfg, kind, eta) && cfg.Shape().width >= 2 && cfg.cost.BlockBytes(1) <= cfg.ram.capacity
    ensures Bytes(RunControl(cfg, kind, sched, Passing(cfg, eta)).host.entries) > cfg.ram.capacity
  {
    var n, w := OneTokenSlots(cfg), cfg.Shape().width;
    TwoTokens(cfg.cost, w);
    SlotsPass(cfg.ram.capacity, cfg.cost.BlockBytes(1), cfg.cost.BlockBytes(w));
    OpenedIsReady(cfg, kind, sched, eta, n);
    var c := RunControl(cfg, kind, sched, Opening(eta, n, w));
    PartialBytes(c.host.entries, n, cfg.cost.BlockBytes(1));
    LongPromptOverfills(cfg, kind, c, n);
    StepPasses(cfg, kind, sched, c, Ask(n, n * w));
    RunNext(cfg, kind, sched, Opening(eta, n, w), Ask(n, n * w));
  }

  lemma PassingInTime(cfg: SimConfig, eta: Option<real>)
    ensures InTime(Passing(cfg, eta))
  {
    OpeningAtZero(eta, OneTokenSlots(cfg), cfg.Shape().width);
  }

  /** The turns come in order of time, as the simulator sorts them. */
  ghost predicate InTime(turns: seq<Turn>) { forall i, j :: 0 <= i < j < |turns| ==> turns[i].t <= turns[j].t }

  lemma {:induction false} OpeningAtZero(eta: Option<real>, n: nat, width: nat)
    ensures forall i :: 0 <= i < |Opening(eta, n, width)| ==> Opening(eta, n, width)[i].t == 0.0
  {
    if n > 0 { OpeningAtZero(eta, n - 1, width); }
  }

  /** A tier too small for the smallest block stays empty. */
  lemma {:induction false} StaysEmpty(cfg: SimConfig, kind: Kind, sched: Schedule, turns: seq<Turn>)
    requires cfg.ram.capacity < cfg.cost.BlockBytes(1)
    ensures RunControl(cfg, kind, sched, turns).host.entries == []
  {
    if turns != [] {
      var n := |turns| - 1;
      StaysEmpty(cfg, kind, sched, turns[..n]);
      RunHoused(cfg, kind, sched, turns[..n]);
      StepStaysEmpty(cfg, kind, sched, RunControl(cfg, kind, sched, turns[..n]), turns[n]);
    }
  }

  lemma StepStaysEmpty(cfg: SimConfig, kind: Kind, sched: Schedule, c: Control, turn: Turn)
    requires cfg.ram.capacity < cfg.cost.BlockBytes(1) && Sound(cfg.Shape(), c.ix) && c.host.entries == []
    ensures StepControl(cfg, kind, sched, c, turn).host.entries == []
  {
    var p, keys := ProbeOf(cfg, c, turn), PathOf(cfg.Shape(), turn);
    TouchSound(cfg.Shape(), c.ix, turn);
    forall k | k in keys
      ensures p.view.ix.Bytes(k) > cfg.ram.capacity
    {
      assert BlockSized(cfg.Shape(), k, p.view.ix.blocks[k]);
      BytesMono(cfg.cost, 1, p.view.ix.blocks[k].tokens);
    }
    NothingStored(kind, p, sched, c.host, keys);
    StepItems(cfg, kind, sched, c, turn);
    assert |StepControl(cfg, kind, sched, c, turn).host.entries| == |ItemsOf([])|;
  }

  lemma NothingStored(kind: Kind, p: Probe, sched: Schedule, host: Host, keys: seq<Key>)
    requires host.entries == [] && Distinct(keys) && forall k :: k in keys ==> p.view.ix.Bytes(k) > p.tier.capacity
    ensures StoreToHost(kind, p, sched, host, keys).entries == []
  {
    var incoming := Fresh(kind, p, [], keys);
    Round(kind, p, [], keys);
    if incoming != [] {
      assert incoming[0] in incoming && ItemBytes(incoming) > p.tier.capacity;
      RoundBytes(kind, p, [], incoming);
    }
  }

  // ---- lifetimes that are over at once --------------------------------------

  /** The policy grants no block a lifetime. */
  predicate Fleeting(kind: Kind) { kind.FixedTtl? && kind.base == 0.0 && kind.perGib == 0.0 }

  lemma FleetingExpiry(kind: Kind, p: Probe, k: Key, n: nat)
    requires Fleeting(kind)
    ensures Expiry(kind, p, k, n) == At(p.view.now)
  {
  }

  /** Under such a policy no entry is alive after the time it was last touched. */
  lemma {:induction false} NoneOutlives(cfg: SimConfig, kind: Kind, sched: Schedule, turns: seq<Turn>, n: nat,
          now: real)
    requires Fleeting(kind) && n <= |turns| && forall i :: 0 <= i < n ==> turns[i].t <= now
    ensures forall e :: e in RunControl(cfg, kind, sched, turns[..n]).host.entries ==> !Alive(e, now)
  {
    if n > 0 {
      var c, turn := RunControl(cfg, kind, sched, turns[..n - 1]), turns[n - 1];
      NoneOutlives(cfg, kind, sched, turns, n - 1, now);
      RunHoused(cfg, kind, sched, turns[..n - 1]);
      RunLast(cfg, kind, sched, turns, n - 1);
      StepRenews(cfg, kind, sched, c, turn);
      FleetingStep(kind, ProbeOf(cfg, c, turn), StepControl(cfg, kind, sched, c, turn).host.entries, c.host.entries,
          PathOf(cfg.Shape(), turn), now);
    }
  }

  lemma FleetingStep(kind: Kind, p: Probe, r: seq<Entry>, es: seq<Entry>, keys: seq<Key>, now: real)
    requires Fleeting(kind) && p.view.now <= now && forall e :: e in es ==> !Alive(e, now)
    requires forall e :: e in r ==>
               if e.key in keys then e.lastTouch == p.view.now && e.expiresAt == Expiry(kind, p, e.key, e.nbytes)
               else e in es
    ensures forall e :: e in r ==> !Alive(e, now)
  {
    forall e | e in r
      ensures !Alive(e, now)
    {
      FleetingExpiry(kind, p, e.key, e.nbytes);
    }
  }

  /** So there is never anything to give up, and the tier stays within its capacity. */
  lemma {:induction false} FleetingFits(cfg: SimConfig, kind: Kind, sched: Schedule, turns: seq<Turn>)
    requires Fleeting(kind) && InTime(turns)
    ensures Bytes(RunControl(cfg, kind, sched, turns).host.entries) <= cfg.ram.capacity
  {
    forall n | 0 <= n < |turns|
      ensures !OverfillsAt(cfg, kind, sched, turns, n)
    {
      NoneOutlives(cfg, kind, sched, turns, n, turns[n].t);
      NoneAlive(RunControl(cfg, kind, sched, turns[..n]).host.entries, turns[n].t);
    }
    StaysWithin(cfg, kind, sched, turns, |turns|);
    assert turns[..|turns|] == turns;
  }

  // ---- the configurations ---------------------------------------------------

  /** The parameters of the flat lifetime are durations. */
  predicate Durations(kind: Kind) { kind.FixedTtl? ==> kind.base >= 0.0 && kind.perGib >= 0.0 }

  /** An absence long enough for the policy to keep the smallest block. */
  function Patience(kind: Kind): Option<real> {
    if kind.Continuum? then Some(1.0 - MinReal(kind.maximum, kind.minimum)) else None
  }

  lemma PatienceGrants(cfg: SimConfig, kind: Kind)
    requires Durations(kind) && !Fleeting(kind)
    ensures Grants(cfg, kind, Patience(kind))
  {
    if kind.FixedTtl? {
      assert cfg.cost.BlockBytes(1) as real / GIB > 0.0;
      PositiveLife(kind.base, kind.perGib, cfg.cost.BlockBytes(1) as real / GIB);
    }
  }

  lemma PositiveLife(base: real, perGib: real, x: real)
    requires base >= 0.0 && perGib >= 0.0 && (base > 0.0 || perGib > 0.0) && x > 0.0
    ensures base + perGib * x > 0.0
  {
  }

  /** For every configuration and every policy: some trace, in order of time, takes the tier past its capacity
      exactly when blocks can grow, the tier has room for the smallest, and the policy does not let every
      block expire at once. */
  lemma CapacityCanBePassed(cfg: SimConfig, kind: Kind, sched: Schedule)
    requires Durations(kind)
    ensures (exists turns :: InTime(turns)
                && Bytes(RunControl(cfg, kind, sched, turns).host.entries) > cfg.ram.capacity)
       <==> cfg.Shape().width >= 2 && cfg.cost.BlockBytes(1) <= cfg.ram.capacity && !Fleeting(kind)
  {
    if cfg.Shape().width >= 2 && cfg.cost.BlockBytes(1) <= cfg.ram.capacity && !Fleeting(kind) {
      PatienceGrants(cfg, kind);
      PassingPasses(cfg, kind, sched, Patience(kind));
      PassingInTime(cfg, Patience(kind));
    } else {
      forall turns | InTime(turns)
        ensures Bytes(RunControl(cfg, kind, sched, turns).host.entries) <= cfg.ram.capacity
      {
        NeverPassed(cfg, kind, sched, turns);
      }
    }
  }

  lemma {:induction false} NeverPassed(cfg: SimConfig, kind: Kind, sched: Schedule, turns: seq<Turn>)
    requires cfg.Shape().width == 1 || cfg.cost.BlockBytes(1) > cfg.ram.capacity || (Fleeting(kind) && InTime(turns))
    ensures Bytes(RunControl(cfg, kind, sched, turns).host.entries) <= cfg.ram.capacity
  {
    if cfg.Shape().width == 1 {
      WholeBlocksFit(cfg, kind, sched, turns);
    } else if cfg.cost.BlockBytes(1) > cfg.ram.capacity {
      StaysEmpty(cfg, kind, sched, turns);
    } else {
      FleetingFits(cfg, kind, sched, turns);
    }
  }
}
