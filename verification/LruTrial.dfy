/** Five turns of one session that tell two LRU tiers apart.

    The first prompt fills the smaller tier; for one block more it gives up the first block of the session,
    which the larger tier keeps.  A long prompt then makes the smaller tier store that block again, while
    the larger one, of which nothing is newer than the rest, gives it up.  An empty prompt takes it out of
    the pool, and the last turn asks for it. */
module LruTrial {
  import opened Base
  import opened Sorting
  import opened Trace
  import opened Config
  import opened Prefix
  import opened Leases
  import opened Policies
  import opened Replay
  import opened HostFacts
  import opened Bounds
  import opened ChainEviction
  import opened LruStack
  import opened LruUnits
  import opened Uncontended
  import Capacity
  import Lifetimes
  import Overflow
  import PrefixKept

  // ---- prompts of one session -----------------------------------------------

  function Visit(t: nat, tokens: nat): Turn { Overflow.Ask(0, tokens).(t := t as real) }

  /** The first blocks of the session. */
  function Leading(n: nat): (keys: seq<Key>)
    ensures |keys| == n && forall i :: 0 <= i < n ==> keys[i] == Private(0, i)
  {
    seq(n, i requires 0 <= i < n => Private(0, i))
  }

  lemma VisitPath(geo: Geometry, t: nat, tokens: nat)
    ensures PathOf(geo, Visit(t, tokens)) == Leading(BlockCount(tokens, geo.width))
    ensures forall i :: 0 <= i < BlockCount(tokens, geo.width) ==>
              ChainOf(geo, Visit(t, tokens))[i] == Part(Private(0, i), TokensAt(tokens, geo.width, i), false)
  {
    NoBlocks(geo.width);
    var turn := Visit(t, tokens);
    forall i | 0 <= i < |ChainOf(geo, turn)|
      ensures ChainOf(geo, turn)[i] == Part(Private(0, i), TokensAt(tokens, geo.width, i), false)
    {
      assert ChainOf(geo, turn)[i] == PromptOf(turn).PartAt(geo.width, i);
    }
  }

  lemma VisitKeys(geo: Geometry, t: nat, tokens: nat)
    ensures PathOf(geo, Visit(t, tokens)) == Leading(BlockCount(tokens, geo.width))
  {
    VisitPath(geo, t, tokens);
  }

  /** A block that the prompt fills is as large as any. */
  lemma FilledIsMost(geo: Geometry, ix: IndexState, t: nat, tokens: nat, i: nat, k: Key)
    requires Sound(geo, ix) && (i + 1) * geo.width <= tokens
    ensures Touch(geo, ix, Visit(t, tokens)).Bytes(k) <= Touch(geo, ix, Visit(t, tokens)).Bytes(Private(0, i))
  {
    var r, x := Touch(geo, ix, Visit(t, tokens)), Private(0, i);
    TouchSound(geo, ix, Visit(t, tokens));
    VisitPath(geo, t, tokens);
    Filled(tokens, geo.width, i);
    RegisteredTokens(geo, ix, Visit(t, tokens), i);
    assert x in r.blocks && BlockSized(geo, x, r.blocks[x]);
    if k in r.blocks {
      assert BlockSized(geo, k, r.blocks[k]);
      BytesMono(geo.cost, r.blocks[k].tokens, geo.width);
    }
  }

  lemma Filled(n: nat, width: Positive, i: nat)
    requires (i + 1) * width <= n
    ensures i < BlockCount(n, width) && TokensAt(n, width, i) == width
  {
    Overflow.WholeCount(i + 1, width);
    CountMono((i + 1) * width, n, width);
  }

  // ---- the tier holds the first blocks of the session -----------------------

  /** The entries are the first `n` blocks, in order. */
  ghost predicate Row(es: seq<Entry>, n: nat) { |es| == n && forall i :: 0 <= i < n ==> es[i].key == Private(0, i) }

  ghost predicate Stamped(es: seq<Entry>, t: real) { forall i :: 0 <= i < |es| ==> es[i].lastTouch == t }

  lemma RowHas(es: seq<Entry>, n: nat, m: nat)
    requires Row(es, n) && n <= m
    ensures ResidentPrefix(es, Leading(m), n)
  {
    forall i | 0 <= i < m
      ensures HasKey(es, Leading(m)[i]) <==> i < n
    {
      if i < n { assert es[i].key == Private(0, i); }
    }
  }

  /** The fresh blocks of a longer prompt. */
  function Beyond(ix: IndexState, n: nat, m: nat): seq<Item>
    requires n <= m
  {
    PathItems(ix, Leading(m))[n..]
  }

  lemma RowFresh(cfg: SimConfig, c: Control, turn: Turn, n: nat, m: nat)
    requires Row(c.host.entries, n) && n <= m && PathOf(cfg.Shape(), turn) == Leading(m)
    ensures PrefixKept.FreshBlocks(cfg, Recency, c, turn) == Beyond(ProbeOf(cfg, c, turn).view.ix, n, m)
  {
    RowHas(c.host.entries, n, m);
    PrefixKept.MissingTail(ProbeOf(cfg, c, turn).view.ix, c.host.entries, Leading(m), n);
  }

  /** When nothing must go, the fresh blocks are added. */
  lemma FitsAll(cfg: SimConfig, sched: Schedule, c: Control, turn: Turn)
    requires UniqueKeys(c.host.entries) && PrefixKept.Needed(cfg, Recency, c, turn) <= 0
    ensures ItemsOf(StepControl(cfg, Recency, sched, c, turn).host.entries)
         == ItemsOf(c.host.entries) + PrefixKept.FreshBlocks(cfg, Recency, c, turn)
  {
    PrefixKept.TurnItems(cfg, Recency, sched, c, turn);
    AcceptsAll(ProbeOf(cfg, c, turn), c.host.entries, PrefixKept.FreshBlocks(cfg, Recency, c, turn));
  }

  lemma {:induction false} RowGrows(es: seq<Entry>, r: seq<Entry>, ix: IndexState, n: nat, m: nat)
    requires Row(es, n) && n <= m && ItemsOf(r) == ItemsOf(es) + Beyond(ix, n, m)
    ensures Row(r, m) && Bytes(r) == Bytes(es) + ItemBytes(Beyond(ix, n, m))
  {
    assert |r| == |ItemsOf(r)| == m;
    forall i | 0 <= i < m
      ensures r[i].key == Private(0, i)
    {
      assert ItemsOf(r)[i] == if i < n then ItemsOf(es)[i] else Beyond(ix, n, m)[i - n];
    }
    BytesOfItems(es);
    BytesOfItems(r);
    ItemBytesConcat(ItemsOf(es), Beyond(ix, n, m));
  }

  lemma {:induction false} TurnStamps(cfg: SimConfig, sched: Schedule, c: Control, turn: Turn, m: nat)
    requires UniqueKeys(c.host.entries) && PathOf(cfg.Shape(), turn) == Leading(m)
    requires Row(StepControl(cfg, Recency, sched, c, turn).host.entries, m)
    ensures Stamped(StepControl(cfg, Recency, sched, c, turn).host.entries, turn.t)
  {
    var r := StepControl(cfg, Recency, sched, c, turn).host.entries;
    Lifetimes.StepRenews(cfg, Recency, sched, c, turn);
    forall i | 0 <= i < |r|
      ensures r[i].lastTouch == turn.t
    {
      assert r[i] in r && r[i].key == Leading(m)[i];
    }
  }

  /** A longer prompt that fits extends the row. */
  lemma Extends(cfg: SimConfig, sched: Schedule, c: Control, turn: Turn, n: nat, m: nat)
    requires UniqueKeys(c.host.entries) && Row(c.host.entries, n) && n <= m && PathOf(cfg.Shape(), turn) == Leading(m)
    requires Bytes(c.host.entries) + ItemBytes(Beyond(ProbeOf(cfg, c, turn).view.ix, n, m)) <= cfg.ram.capacity
    ensures var r := StepControl(cfg, Recency, sched, c, turn).host.entries;
            && Row(r, m) && Stamped(r, turn.t)
            && Bytes(r) == Bytes(c.host.entries) + ItemBytes(Beyond(ProbeOf(cfg, c, turn).view.ix, n, m))
  {
    RowFresh(cfg, c, turn, n, m);
    FitsAll(cfg, sched, c, turn);
    RowGrows(c.host.entries, StepControl(cfg, Recency, sched, c, turn).host.entries, ProbeOf(cfg, c, turn).view.ix,
        n, m);
    TurnStamps(cfg, sched, c, turn, m);
  }

  // ---- what a round gives up first, and what a turn stores first ------------

  /** Entries last touched at one time go in the order in which they were inserted. */
  lemma {:induction false} StampedOrder(es: seq<Entry>, t: real)
    requires Stamped(es, t)
    ensures StableSort(es, EntryOrder(Recency)) == es
  {
    if es != [] {
      StampedOrder(es[1..], t);
      if |es| > 1 { assert es[1..][0].lastTouch == t; }
    }
  }

  lemma GivesUpFirst(cfg: SimConfig, sched: Schedule, c: Control, turn: Turn, n: nat, t: real)
    requires UniqueKeys(c.host.entries) && Row(c.host.entries, n) && 0 < n && Stamped(c.host.entries, t)
    requires PrefixKept.HasRound(cfg, Recency, c, turn)
    ensures !HasKey(StepControl(cfg, Recency, sched, c, turn).host.entries, Private(0, 0))
  {
    StampedOrder(c.host.entries, t);
    RowHas(c.host.entries, n, n);
    assert HasKey(c.host.entries, Leading(n)[0]);
    PrefixKept.LosesIff(cfg, Recency, c, turn, Private(0, 0));
    PrefixKept.StoredAreMissing(cfg, Recency, sched, c, turn);
    PrefixKept.TurnHolds(cfg, Recency, sched, c, turn);
  }

  /** On a longer prompt that does not fit the row loses its first block. */
  lemma RowLoses(cfg: SimConfig, sched: Schedule, c: Control, turn: Turn, n: nat, m: nat, t: real)
    requires UniqueKeys(c.host.entries) && Row(c.host.entries, n) && 0 < n <= m && Stamped(c.host.entries, t)
    requires PathOf(cfg.Shape(), turn) == Leading(m)
    requires ItemBytes(Beyond(ProbeOf(cfg, c, turn).view.ix, n, m)) > Spare(cfg.ram.capacity, c.host.entries)
    ensures !HasKey(StepControl(cfg, Recency, sched, c, turn).host.entries, Private(0, 0))
  {
    RowFresh(cfg, c, turn, n, m);
    GivesUpFirst(cfg, sched, c, turn, n, t);
  }

  lemma RoomOfOne(p: Probe, es: seq<Entry>, k: Key)
    requires HasKey(es, k)
    ensures Capacity.FullRoom(Recency, p, es) >= p.view.ix.Bytes(k)
  {
    var i :| 0 <= i < |es| && es[i].key == k;
    Capacity.IndexBytesOut(p.view.ix, es, i);
  }

  /** The first missing block is stored when some resident is as large in the index. */
  lemma StoresFirst(cfg: SimConfig, sched: Schedule, c: Control, turn: Turn, i: nat, k: Key)
    requires Sound(cfg.Shape(), c.ix) && Housed(c.ix, c.host.entries) && HasKey(c.host.entries, k)
    requires var es, keys := c.host.entries, PathOf(cfg.Shape(), turn);
             i < |keys| && !HasKey(es, keys[i]) && forall j :: 0 <= j < i ==> HasKey(es, keys[j])
    requires var ix := ProbeOf(cfg, c, turn).view.ix; ix.Bytes(PathOf(cfg.Shape(), turn)[i]) <= ix.Bytes(k)
    ensures HasKey(StepControl(cfg, Recency, sched, c, turn).host.entries, PathOf(cfg.Shape(), turn)[i])
  {
    var p, es, keys := ProbeOf(cfg, c, turn), c.host.entries, PathOf(cfg.Shape(), turn);
    Overflow.IndexedHoused(cfg.Shape(), c, turn);
    PrefixKept.FirstMissing(p.view.ix, es, keys, i);
    FirstSized(cfg, c, turn);
    RoomOfOne(p, es, k);
    PrefixKept.IdleIff(cfg, Recency, c, turn);
    FirstStored(cfg, sched, c, turn);
    PrefixKept.TurnHolds(cfg, Recency, sched, c, turn);
  }

  lemma FirstSized(cfg: SimConfig, c: Control, turn: Turn)
    requires PrefixKept.FreshBlocks(cfg, Recency, c, turn) != []
    ensures var x := PrefixKept.FreshBlocks(cfg, Recency, c, turn)[0];
            x.nbytes == ProbeOf(cfg, c, turn).view.ix.Bytes(x.key)
  {
    var incoming := PrefixKept.FreshBlocks(cfg, Recency, c, turn);
    CandidatesApart(ProbeOf(cfg, c, turn).view.ix, c.host.entries, PathOf(cfg.Shape(), turn));
    assert incoming[0] in incoming;
  }

  lemma FirstStored(cfg: SimConfig, sched: Schedule, c: Control, turn: Turn)
    requires UniqueKeys(c.host.entries) && PrefixKept.StoredBlocks(cfg, Recency, c, turn) != []
    ensures PrefixKept.FreshBlocks(cfg, Recency, c, turn) != []
    ensures PrefixKept.FreshBlocks(cfg, Recency, c, turn)[0].key
         in ItemKeys(PrefixKept.StoredBlocks(cfg, Recency, c, turn))
  {
    PrefixKept.TurnItems(cfg, Recency, sched, c, turn);
    var taken := PrefixKept.StoredBlocks(cfg, Recency, c, turn);
    assert ItemKeys(taken)[0] == taken[0].key == PrefixKept.FreshBlocks(cfg, Recency, c, turn)[0].key;
  }

  // ---- five turns -----------------------------------------------------------

  /** Blocks of the first prompt and of the third, and bytes of the first prompt and of the block that the
      second adds. */
  datatype Plan = Plan(n: nat, m: nat, used: nat, extra: nat)

  /** The smaller tier has room for the first prompt only; the larger one for the second too, though not for
      the third. */
  ghost predicate Tells(plan: Plan, capacity: nat, large: bool) {
    && 1 <= plan.n && plan.n + 2 <= plan.m && plan.used <= capacity
    && if large then plan.used + plan.extra <= capacity < plan.m - (plan.n + 1) else capacity < plan.used + plan.extra
  }

  /** A row, last touched at one time, of so many bytes. */
  ghost predicate RowOf(es: seq<Entry>, n: nat, t: real, nbytes: nat) {
    Row(es, n) && Stamped(es, t) && Bytes(es) == nbytes
  }

  /** What a tier holds before turn `i`. */
  ghost predicate Stage(plan: Plan, large: bool, es: seq<Entry>, i: nat) {
    && (i == 0 ==> es == [])
    && (i == 1 ==> RowOf(es, plan.n, 0.0, plan.used))
    && (i == 2 && large ==> RowOf(es, plan.n + 1, 1.0, plan.used + plan.extra))
    && (i == 2 && !large ==> !HasKey(es, Private(0, 0)) && HasKey(es, Private(0, plan.n)))
    && (i == 3 || i == 4 ==> (HasKey(es, Private(0, 0)) <==> !large))
  }

  /** Turn `i`: three growing prompts of the session, an empty one, and one of its first block. */
  ghost predicate Asks(plan: Plan, geo: Geometry, ix: IndexState, turn: Turn, i: nat) {
    var r, path, first, added := Touch(geo, ix, turn), PathOf(geo, turn), Private(0, 0), Private(0, plan.n);
    && turn.t == i as real
    && (i == 0 ==> path == Leading(plan.n) && ItemBytes(Beyond(r, 0, plan.n)) == plan.used)
    && (i == 1 ==> path == Leading(plan.n + 1) && ItemBytes(Beyond(r, plan.n, plan.n + 1)) == plan.extra
                   && r.Bytes(added) <= r.Bytes(first))
    && (i == 2 ==> path == Leading(plan.m) && r.Bytes(first) <= r.Bytes(added))
    && (i == 3 ==> path == [])
    && (i == 4 ==> path == [first])
  }

  /** The smaller tier gives up its first block for the new one. */
  lemma SmallSecond(cfg: SimConfig, sched: Schedule, plan: Plan, c: Control, turn: Turn)
    requires Sound(cfg.Shape(), c.ix) && Housed(c.ix, c.host.entries) && Tells(plan, cfg.ram.capacity, false)
    requires Stage(plan, false, c.host.entries, 1) && Asks(plan, cfg.Shape(), c.ix, turn, 1)
    ensures Stage(plan, false, StepControl(cfg, Recency, sched, c, turn).host.entries, 2)
  {
    RowLoses(cfg, sched, c, turn, plan.n, plan.n + 1, 0.0);
    RowHas(c.host.entries, plan.n, plan.n + 1);
    assert HasKey(c.host.entries, Leading(plan.n + 1)[0]);
    StoresFirst(cfg, sched, c, turn, plan.n, Private(0, 0));
  }

  ghost predicate NothingEmpty(items: seq<Item>) { forall b :: b in items ==> b.nbytes >= 1 }

  lemma {:induction false} BytesAtLeast(items: seq<Item>)
    requires NothingEmpty(items)
    ensures ItemBytes(items) >= |items|
  {
    if items != [] {
      assert items[0] in items && forall b :: b in items[1..] ==> b in items;
      BytesAtLeast(items[1..]);
    }
  }

  lemma {:induction false} PathNone(geo: Geometry, ix: IndexState, turn: Turn)
    requires Sound(geo, ix)
    ensures NothingEmpty(PathItems(Touch(geo, ix, turn), PathOf(geo, turn)))
  {
    var r, keys := Touch(geo, ix, turn), PathOf(geo, turn);
    TouchSound(geo, ix, turn);
    forall b | b in PathItems(r, keys)
      ensures b.nbytes >= 1
    {
      var i :| 0 <= i < |keys| && PathItems(r, keys)[i] == b;
      assert keys[i] in keys && keys[i] in r.blocks;
      assert BlockSized(geo, keys[i], r.blocks[keys[i]]);
    }
  }

  lemma BeyondIsLong(geo: Geometry, ix: IndexState, turn: Turn, n: nat, m: nat)
    requires Sound(geo, ix) && PathOf(geo, turn) == Leading(m) && n <= m
    ensures ItemBytes(Beyond(Touch(geo, ix, turn), n, m)) >= m - n
  {
    PathNone(geo, ix, turn);
    BytesAtLeast(Beyond(Touch(geo, ix, turn), n, m));
  }

  lemma LongPromptLoses(cfg: SimConfig, sched: Schedule, c: Control, turn: Turn, n: nat, m: nat, t: real)
    requires UniqueKeys(c.host.entries) && Row(c.host.entries, n) && 0 < n <= m && Stamped(c.host.entries, t)
    requires PathOf(cfg.Shape(), turn) == Leading(m)
    requires ItemBytes(Beyond(Touch(cfg.Shape(), c.ix, turn), n, m)) >= m - n > cfg.ram.capacity
    ensures !HasKey(StepControl(cfg, Recency, sched, c, turn).host.entries, Private(0, 0))
  {
    RowLoses(cfg, sched, c, turn, n, m, t);
  }

  /** The larger one gives up its first block for the third prompt. */
  lemma LargeThird(cfg: SimConfig, sched: Schedule, plan: Plan, c: Control, turn: Turn)
    requires Sound(cfg.Shape(), c.ix) && Housed(c.ix, c.host.entries) && Tells(plan, cfg.ram.capacity, true)
    requires Stage(plan, true, c.host.entries, 2) && Asks(plan, cfg.Shape(), c.ix, turn, 2)
    ensures Stage(plan, true, StepControl(cfg, Recency, sched, c, turn).host.entries, 3)
  {
    var k := plan.n + 1;
    BeyondIsLong(cfg.Shape(), c.ix, turn, k, plan.m);
    LongPromptLoses(cfg, sched, c, turn, k, plan.m, 1.0);
  }

  /** An empty prompt leaves the host tier as it is. */
  lemma EmptyTurn(cfg: SimConfig, sched: Schedule, c: Control, turn: Turn, k: Key)
    requires UniqueKeys(c.host.entries) && PathOf(cfg.Shape(), turn) == []
    ensures HasKey(StepControl(cfg, Recency, sched, c, turn).host.entries, k) <==> HasKey(c.host.entries, k)
  {
    PrefixKept.TurnHolds(cfg, Recency, sched, c, turn);
  }

  lemma StageNext(cfg: SimConfig, sched: Schedule, plan: Plan, large: bool, c: Control, turn: Turn, i: nat)
    requires Sound(cfg.Shape(), c.ix) && Housed(c.ix, c.host.entries) && Tells(plan, cfg.ram.capacity, large)
    requires i < 4 && Stage(plan, large, c.host.entries, i) && Asks(plan, cfg.Shape(), c.ix, turn, i)
    ensures Stage(plan, large, StepControl(cfg, Recency, sched, c, turn).host.entries, i + 1)
  {
    if i == 0 {
      Extends(cfg, sched, c, turn, 0, plan.n);
    } else if i == 1 {
      if large {
        Extends(cfg, sched, c, turn, plan.n, plan.n + 1);
      } else {
        SmallSecond(cfg, sched, plan, c, turn);
      }
    } else if i == 2 {
      if large {
        LargeThird(cfg, sched, plan, c, turn);
      } else {
        StoresFirst(cfg, sched, c, turn, 0, Private(0, plan.n));
      }
    } else {
      EmptyTurn(cfg, sched, c, turn, Private(0, 0));
    }
  }

  /** The turns are those of the plan. */
  ghost predicate Planned(plan: Plan, geo: Geometry, turns: seq<Turn>) {
    |turns| == 5 && forall i :: 0 <= i < 5 ==> Asks(plan, geo, IndexAfter(geo, turns[..i]), turns[i], i)
  }

  lemma {:induction false} StageOfRun(cfg: SimConfig, sched: Schedule, plan: Plan, large: bool, before: seq<Turn>,
          turn: Turn, i: nat)
    requires Tells(plan, cfg.ram.capacity, large) && i < 4 && Stage(plan, large, EntriesAfter(cfg, sched, before), i)
    requires Asks(plan, cfg.Shape(), IndexAfter(cfg.Shape(), before), turn, i)
    ensures Stage(plan, large, EntriesAfter(cfg, sched, before + [turn]), i + 1)
  {
    RunHoused(cfg, Recency, sched, before);
    ViewIsIndependent(cfg, Recency, sched, before);
    StageNext(cfg, sched, plan, large, RunControl(cfg, Recency, sched, before), turn, i);
    Overflow.RunNext(cfg, Recency, sched, before, turn);
  }

  lemma LastOf<T>(s: seq<T>, i: nat)
    requires i < |s|
    ensures s[..i + 1] == s[..i] + [s[i]]
  {
  }

  lemma {:induction false} Stages(cfg: SimConfig, sched: Schedule, plan: Plan, large: bool, turns: seq<Turn>, i: nat)
    requires Planned(plan, cfg.Shape(), turns) && Tells(plan, cfg.ram.capacity, large) && i <= 4
    ensures Stage(plan, large, EntriesAfter(cfg, sched, turns[..i]), i)
  {
    if i > 0 {
      var before, turn := turns[..i - 1], turns[i - 1];
      LastOf(turns, i - 1);
      Stages(cfg, sched, plan, large, turns, i - 1);
      assert Asks(plan, cfg.Shape(), IndexAfter(cfg.Shape(), before), turn, i - 1);
      StageOfRun(cfg, sched, plan, large, before, turn, i - 1);
    }
  }

  // ---- the plan of a grain --------------------------------------------------

  function FirstTokens(geo: Geometry, g: Grain, slots: nat): nat { if g.Blocks? then slots * geo.width else slots }

  function FirstBlocks(geo: Geometry, g: Grain, slots: nat): nat { BlockCount(FirstTokens(geo, g, slots), geo.width) }

  function AddedTokens(geo: Geometry, g: Grain): nat { if g.Blocks? then geo.width else 1 }

  function SecondTokens(geo: Geometry, g: Grain, slots: nat): nat {
    FirstBlocks(geo, g, slots) * geo.width + AddedTokens(geo, g)
  }

  /** As many blocks as are more than the pool and the tier beside the first two prompts. */
  function ThirdBlocks(cfg: SimConfig, g: Grain, slots: nat): nat {
    FirstBlocks(cfg.Shape(), g, slots) + 2 + cfg.ram.capacity + cfg.HbmBytes()
  }

  /** The first prompt fills `slots` units, and the second adds one. */
  function PlanOf(cfg: SimConfig, g: Grain, slots: nat): Plan {
    Plan(FirstBlocks(cfg.Shape(), g, slots), ThirdBlocks(cfg, g, slots), slots * Unit(cfg, g), Unit(cfg, g))
  }

  function TokensIn(cfg: SimConfig, g: Grain, slots: nat, i: nat): nat {
    var geo := cfg.Shape();
    if i == 0 then FirstTokens(geo, g, slots) else if i == 1 then SecondTokens(geo, g, slots)
    else if i == 2 then ThirdBlocks(cfg, g, slots) * geo.width else if i == 3 then 0 else geo.width
  }

  function Visits(cfg: SimConfig, g: Grain, slots: nat): (turns: seq<Turn>)
    ensures |turns| == 5 && forall i :: 0 <= i < 5 ==> turns[i] == Visit(i, TokensIn(cfg, g, slots, i))
  {
    seq(5, i requires 0 <= i < 5 => Visit(i, TokensIn(cfg, g, slots, i)))
  }

  lemma NewBlock(geo: Geometry, ix: IndexState, t: nat, tokens: nat, i: nat)
    requires Private(0, i) !in ix.blocks && i < BlockCount(tokens, geo.width)
    ensures var r := Touch(geo, ix, Visit(t, tokens));
            && r.Tokens(Private(0, i)) == TokensAt(tokens, geo.width, i)
            && r.Bytes(Private(0, i)) == geo.cost.BlockBytes(TokensAt(tokens, geo.width, i))
  {
    VisitPath(geo, t, tokens);
    assert Private(0, i) == PathOf(geo, Visit(t, tokens))[i];
  }

  lemma {:induction false} SizedBytes(items: seq<Item>, size: nat)
    requires AllOfSize(items, size)
    ensures ItemBytes(items) == |items| * size
  {
    if items != [] {
      SizedBytes(items[1..], size);
      Overflow.OnceMore(|items|, size);
    }
  }

  lemma {:induction false} TokenItems(ix: IndexState, keys: seq<Key>, u: nat)
    requires forall k :: k in keys ==> ix.Bytes(k) == ix.Tokens(k) * u
    ensures ItemBytes(PathItems(ix, keys)) == TokensOf(ix, keys) * u
  {
    if keys != [] {
      assert keys[0] in keys && forall k :: k in keys[1..] ==> k in keys;
      TokenItems(ix, keys[1..], u);
      PathTail(ix, keys);
      Distribute(ix.Tokens(keys[0]), TokensOf(ix, keys[1..]), u);
    }
  }

  lemma PathTail(ix: IndexState, keys: seq<Key>)
    requires keys != []
    ensures ItemBytes(PathItems(ix, keys)) == ix.Bytes(keys[0]) + ItemBytes(PathItems(ix, keys[1..]))
  {
    PrefixKept.PathItemsTail(ix, keys);
  }

  lemma Distribute(a: nat, b: nat, u: nat)
    ensures a * u + b * u == (a + b) * u
  {
  }

  lemma {:induction false} SameTokens(ix: IndexState, parts: seq<Part>)
    requires forall i :: 0 <= i < |parts| ==> ix.Tokens(parts[i].key) == parts[i].tokens
    ensures TokensOf(ix, KeysOf(parts)) == Total(parts)
  {
    if parts != [] {
      var n := |parts| - 1;
      SameTokens(ix, parts[..n]);
      assert KeysOf(parts)[..n] == KeysOf(parts[..n]);
      TokensSnoc(ix, KeysOf(parts));
    }
  }

  /** What the first prompt comes to, token by token. */
  lemma FirstInTokens(geo: Geometry, tokens: nat)
    requires geo.cost.kvBytesPerToken == geo.cost.BlockBytes(1) as real
    ensures ItemBytes(Beyond(Touch(geo, EMPTY, Visit(0, tokens)), 0, BlockCount(tokens, geo.width)))
         == tokens * geo.cost.BlockBytes(1)
  {
    var ix, parts := Touch(geo, EMPTY, Visit(0, tokens)), ChainOf(geo, Visit(0, tokens));
    VisitPath(geo, 0, tokens);
    forall i | 0 <= i < |parts|
      ensures ix.Tokens(parts[i].key) == parts[i].tokens
      ensures ix.Bytes(parts[i].key) == ix.Tokens(parts[i].key) * geo.cost.BlockBytes(1)
    {
      NewBlock(geo, EMPTY, 0, tokens, i);
      TokenBytes(geo.cost, parts[i].tokens);
    }
    SameTokens(ix, parts);
    ChainHoldsPrompt(geo, Visit(0, tokens));
    TokenItems(ix, KeysOf(parts), geo.cost.BlockBytes(1));
  }

  /** And block by block. */
  lemma FirstInBlocks(geo: Geometry, slots: nat)
    ensures ItemBytes(Beyond(Touch(geo, EMPTY, Visit(0, slots * geo.width)), 0, slots))
         == slots * geo.cost.BlockBytes(geo.width)
  {
    var ix := Touch(geo, EMPTY, Visit(0, slots * geo.width));
    Overflow.WholeCount(slots, geo.width);
    forall i | 0 <= i < slots
      ensures Beyond(ix, 0, slots)[i].nbytes == geo.cost.BlockBytes(geo.width)
    {
      NewBlock(geo, EMPTY, 0, slots * geo.width, i);
    }
    SizedBytes(Beyond(ix, 0, slots), geo.cost.BlockBytes(geo.width));
  }

  lemma FirstBytes(cfg: SimConfig, g: Grain, slots: nat)
    requires Exact(cfg, g)
    ensures ItemBytes(Beyond(Touch(cfg.Shape(), EMPTY, Visit(0, FirstTokens(cfg.Shape(), g, slots))), 0,
                             FirstBlocks(cfg.Shape(), g, slots)))
         == slots * Unit(cfg, g)
  {
    match g
    case Blocks =>
      Overflow.WholeCount(slots, cfg.Shape().width);
      FirstInBlocks(cfg.Shape(), slots);
    case Tokens => FirstInTokens(cfg.Shape(), slots);
  }

  /** The one block that the second prompt adds. */
  lemma SecondAdds(geo: Geometry, ix: IndexState, tokens: nat, n: nat)
    requires Private(0, n) !in ix.blocks && BlockCount(tokens, geo.width) == n + 1
    ensures ItemBytes(Beyond(Touch(geo, ix, Visit(1, tokens)), n, n + 1))
         == geo.cost.BlockBytes(TokensAt(tokens, geo.width, n))
  {
    var r := Touch(geo, ix, Visit(1, tokens));
    NewBlock(geo, ix, 1, tokens, n);
    assert Beyond(r, n, n + 1) == [Item(Private(0, n), r.Bytes(Private(0, n)))];
  }

  lemma LastBlock(width: Positive, n: nat, r: nat)
    requires 1 <= r <= width
    ensures BlockCount(n * width + r, width) == n + 1 && TokensAt(n * width + r, width, n) == r
  {
    var a: nat := n * width + r + width - 1;
    assert a == (n + 1) * width + (r - 1);
    DivUnique(a, width, n + 1, r - 1);
  }

  lemma AsksFirst(cfg: SimConfig, g: Grain, slots: nat)
    requires Exact(cfg, g)
    ensures Asks(PlanOf(cfg, g, slots), cfg.Shape(), EMPTY, Visit(0, FirstTokens(cfg.Shape(), g, slots)), 0)
  {
    VisitKeys(cfg.Shape(), 0, FirstTokens(cfg.Shape(), g, slots));
    FirstBytes(cfg, g, slots);
  }

  /** The second prompt fills the first block, and adds one. */
  lemma AsksMore(plan: Plan, geo: Geometry, ix: IndexState, tokens: nat)
    requires Sound(geo, ix) && Private(0, plan.n) !in ix.blocks
    requires geo.width <= tokens && BlockCount(tokens, geo.width) == plan.n + 1
    requires plan.extra == geo.cost.BlockBytes(TokensAt(tokens, geo.width, plan.n))
    ensures Asks(plan, geo, ix, Visit(1, tokens), 1)
  {
    VisitKeys(geo, 1, tokens);
    SecondAdds(geo, ix, tokens, plan.n);
    FilledIsMost(geo, ix, 1, tokens, 0, Private(0, plan.n));
  }

  lemma AsksSecond(cfg: SimConfig, g: Grain, slots: nat, ix: IndexState)
    requires slots >= 1 && Sound(cfg.Shape(), ix) && Private(0, FirstBlocks(cfg.Shape(), g, slots)) !in ix.blocks
    ensures Asks(PlanOf(cfg, g, slots), cfg.Shape(), ix, Visit(1, SecondTokens(cfg.Shape(), g, slots)), 1)
  {
    var w, n := cfg.Shape().width, FirstBlocks(cfg.Shape(), g, slots);
    SomeBlock(cfg.Shape(), g, slots);
    LastBlock(w, n, AddedTokens(cfg.Shape(), g));
    MulMono(w, 1, n);
    AsksMore(PlanOf(cfg, g, slots), cfg.Shape(), ix, SecondTokens(cfg.Shape(), g, slots));
  }

  lemma SomeBlock(geo: Geometry, g: Grain, slots: nat)
    requires slots >= 1
    ensures FirstBlocks(geo, g, slots) >= 1
  {
    MulMono(geo.width, 1, slots);
    CountBounds(FirstTokens(geo, g, slots), geo.width);
  }

  /** The third fills the block that the second added. */
  lemma AsksLong(plan: Plan, geo: Geometry, ix: IndexState, tokens: nat)
    requires Sound(geo, ix) && (plan.n + 1) * geo.width <= tokens && BlockCount(tokens, geo.width) == plan.m
    ensures Asks(plan, geo, ix, Visit(2, tokens), 2)
  {
    VisitKeys(geo, 2, tokens);
    FilledIsMost(geo, ix, 2, tokens, plan.n, Private(0, 0));
  }

  lemma ThirdIsLong(width: Positive, n: nat, m: nat)
    requires n + 2 <= m
    ensures BlockCount(m * width, width) == m && (n + 1) * width <= m * width
  {
    Overflow.WholeCount(m, width);
    MulMono(width, n + 1, m);
  }

  lemma AsksThird(cfg: SimConfig, g: Grain, slots: nat, ix: IndexState)
    requires Sound(cfg.Shape(), ix)
    ensures Asks(PlanOf(cfg, g, slots), cfg.Shape(), ix, Visit(2, ThirdBlocks(cfg, g, slots) * cfg.Shape().width), 2)
  {
    var plan := PlanOf(cfg, g, slots);
    ThirdIsLong(cfg.Shape().width, plan.n, plan.m);
    AsksLong(plan, cfg.Shape(), ix, plan.m * cfg.Shape().width);
  }

  lemma AsksNothing(plan: Plan, geo: Geometry, ix: IndexState)
    ensures Asks(plan, geo, ix, Visit(3, 0), 3)
  {
    VisitKeys(geo, 3, 0);
    NoBlocks(geo.width);
  }

  lemma AsksOne(plan: Plan, geo: Geometry, ix: IndexState)
    ensures Asks(plan, geo, ix, Visit(4, geo.width), 4)
  {
    VisitKeys(geo, 4, geo.width);
    Overflow.WholeCount(1, geo.width);
  }

  /** After the first prompt the index knows its blocks only. */
  lemma {:induction false} IndexOfOne(cfg: SimConfig, g: Grain, slots: nat)
    ensures Private(0, FirstBlocks(cfg.Shape(), g, slots))
        !in IndexAfter(cfg.Shape(), Visits(cfg, g, slots)[..1]).blocks
  {
    var turns := Visits(cfg, g, slots);
    assert turns[..1][..0] == [];
    VisitKeys(cfg.Shape(), 0, FirstTokens(cfg.Shape(), g, slots));
  }

  lemma VisitsArePlanned(cfg: SimConfig, g: Grain, slots: nat)
    requires slots >= 1 && Exact(cfg, g)
    ensures Planned(PlanOf(cfg, g, slots), cfg.Shape(), Visits(cfg, g, slots))
  {
    forall i | 0 <= i < 5
      ensures Asks(PlanOf(cfg, g, slots), cfg.Shape(), IndexAfter(cfg.Shape(), Visits(cfg, g, slots)[..i]),
                   Visits(cfg, g, slots)[i], i)
    {
      AsksAt(cfg, g, slots, i);
    }
  }

  lemma {:induction false} AsksAt(cfg: SimConfig, g: Grain, slots: nat, i: nat)
    requires slots >= 1 && Exact(cfg, g) && i < 5
    ensures Asks(PlanOf(cfg, g, slots), cfg.Shape(), IndexAfter(cfg.Shape(), Visits(cfg, g, slots)[..i]),
                 Visits(cfg, g, slots)[i], i)
  {
    var ix := IndexAfter(cfg.Shape(), Visits(cfg, g, slots)[..i]);
    IndexSound(cfg.Shape(), Visits(cfg, g, slots)[..i]);
    if i == 0 {
      AsksFirst(cfg, g, slots);
    } else if i == 1 {
      IndexOfOne(cfg, g, slots);
      AsksSecond(cfg, g, slots, ix);
    } else if i == 2 {
      AsksThird(cfg, g, slots, ix);
    } else if i == 3 {
      AsksNothing(PlanOf(cfg, g, slots), cfg.Shape(), ix);
    } else {
      AsksOne(PlanOf(cfg, g, slots), cfg.Shape(), ix);
    }
  }

  /** The visits may occur in a trace of the grain. */
  lemma VisitsAreTrace(cfg: SimConfig, g: Grain, slots: nat)
    ensures TraceOf(cfg.Shape(), g, Visits(cfg, g, slots))
  {
    VisitsInTime(cfg, g, slots);
    if g.Blocks? { VisitsAreWhole(cfg, slots); }
  }

  lemma VisitsInTime(cfg: SimConfig, g: Grain, slots: nat)
    ensures Overflow.InTime(Visits(cfg, g, slots))
  {
  }

  lemma VisitsAreWhole(cfg: SimConfig, slots: nat)
    ensures Grained(cfg.Shape(), Blocks, Visits(cfg, Blocks, slots))
  {
    forall i | 0 <= i < 5
      ensures WholeBlocks(cfg.Shape(), Visits(cfg, Blocks, slots)[i])
    {
      WholeTokens(cfg, slots, i);
      WholeVisit(cfg.Shape(), i, TokensIn(cfg, Blocks, slots, i));
    }
  }

  lemma WholeVisit(geo: Geometry, t: nat, tokens: nat)
    requires tokens % geo.width == 0
    ensures WholeBlocks(geo, Visit(t, tokens))
  {
    Multiple(0, geo.width);
  }

  lemma WholeTokens(cfg: SimConfig, slots: nat, i: nat)
    requires i < 5
    ensures TokensIn(cfg, Blocks, slots, i) % cfg.Shape().width == 0
  {
    var w, n := cfg.Shape().width, FirstBlocks(cfg.Shape(), Blocks, slots);
    Multiple(0, w);
    Multiple(1, w);
    Multiple(slots, w);
    Multiple(n, w);
    AddUnits(w, n * w, w);
    Multiple(ThirdBlocks(cfg, Blocks, slots), w);
  }

  /** The plan tells two tiers apart. */
  lemma PlanTells(small: SimConfig, large: SimConfig, g: Grain)
    requires LargerTier(small, large) && 1 <= Slots(small, g) < Slots(large, g)
    ensures Tells(PlanOf(large, g, Slots(small, g)), small.ram.capacity, false)
    ensures Tells(PlanOf(large, g, Slots(small, g)), large.ram.capacity, true)
  {
    SomeBlock(large.Shape(), g, Slots(small, g));
    UnitsBetween(Unit(small, g), small.ram.capacity, large.ram.capacity, Slots(small, g), Slots(large, g));
  }

  lemma UnitsBetween(u: Positive, c: nat, d: nat, m: nat, n: nat)
    requires m == c / u && n == d / u && m < n
    ensures Floors(u, c, m) && m * u + u <= d
  {
    FloorOf(u, c);
    FloorOf(u, d);
    OneMoreFits(u, d, n, m);
  }

  lemma OneMoreFits(u: Positive, d: nat, n: nat, m: nat)
    requires Floors(u, d, n) && m < n
    ensures m * u + u <= d
  {
    Next(m, u);
    FitsIff(u, d, n, m * u + u, m + 1);
  }

  lemma Next(m: nat, u: nat)
    ensures (m + 1) * u == m * u + u
  {
  }

  lemma FewerSlots(small: SimConfig, large: SimConfig, g: Grain)
    requires LargerTier(small, large)
    ensures Slots(small, g) <= Slots(large, g)
  {
    MoreSlots(small.ram.capacity, large.ram.capacity, Unit(small, g));
  }
}
