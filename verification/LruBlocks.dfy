/** When a larger LRU tier holds all a smaller one holds, and when it never costs recompute tokens.

    A round does not protect the resident part of the path it makes room for.  So the larger tier can give
    up a block that the smaller one has just had to store again.  In units of blocks, or of tokens, it can
    do so on some trace unless the smaller tier has no slot or as many as the larger one; then on that
    trace a later turn, and the whole report, cost more in the larger tier, whatever the pool. */
module LruBlocks {
  import opened Base
  import opened Trace
  import opened Config
  import opened Prefix
  import opened Leases
  import opened Policies
  import opened Replay
  import opened LruStack
  import opened LruTrial
  import opened LruUnits
  import opened Uncontended
  import Hbm
  import HbmInclusion
  import Lifetimes

  /** The larger tier holds all the smaller one holds. */
  ghost predicate Includes(small: SimConfig, large: SimConfig, sched: Schedule, turns: seq<Turn>) {
    forall k :: HasKey(EntriesAfter(small, sched, turns), k) ==> HasKey(EntriesAfter(large, sched, turns), k)
  }

  // ---- inclusion ------------------------------------------------------------

  lemma IncludedWhen(small: SimConfig, large: SimConfig, g: Grain, sched: Schedule, turns: seq<Turn>)
    requires LargerTier(small, large) && Exact(small, g) && Grained(small.Shape(), g, turns)
    requires Slots(small, g) == 0 || Slots(small, g) == Slots(large, g)
    ensures Includes(small, large, sched, turns)
  {
    if Slots(small, g) == 0 { NoSlot(small, g, sched, turns); } else { SameRuns(small, large, g, sched, turns); }
  }

  /** The plan for two tiers, and its turns. */
  function Trial(small: SimConfig, large: SimConfig, g: Grain): seq<Turn> { Visits(large, g, Slots(small, g)) }

  lemma TrialStages(small: SimConfig, large: SimConfig, g: Grain, sched: Schedule, i: nat)
    requires LargerTier(small, large) && Exact(small, g) && 1 <= Slots(small, g) < Slots(large, g) && i <= 4
    ensures Stage(PlanOf(large, g, Slots(small, g)), false, EntriesAfter(small, sched, Trial(small, large, g)[..i]), i)
    ensures Stage(PlanOf(large, g, Slots(small, g)), true, EntriesAfter(large, sched, Trial(small, large, g)[..i]), i)
  {
    PlanTells(small, large, g);
    VisitsArePlanned(large, g, Slots(small, g));
    Stages(small, sched, PlanOf(large, g, Slots(small, g)), false, Trial(small, large, g), i);
    Stages(large, sched, PlanOf(large, g, Slots(small, g)), true, Trial(small, large, g), i);
  }

  lemma NotIncluded(small: SimConfig, large: SimConfig, g: Grain, sched: Schedule)
    requires LargerTier(small, large) && Exact(small, g) && 1 <= Slots(small, g) < Slots(large, g)
    ensures TraceOf(small.Shape(), g, Trial(small, large, g)[..3])
    ensures !Includes(small, large, sched, Trial(small, large, g)[..3])
  {
    VisitsAreTrace(large, g, Slots(small, g));
    TrialStages(small, large, g, sched, 3);
  }

  /** Stack inclusion of the host tier under LRU, in units of blocks or of tokens: the larger tier holds all
      the smaller one holds after every trace exactly when the smaller one has no slot or as many. */
  lemma InclusionIff(small: SimConfig, large: SimConfig, g: Grain, sched: Schedule)
    requires LargerTier(small, large) && Exact(small, g)
    ensures (forall turns :: TraceOf(small.Shape(), g, turns) ==> Includes(small, large, sched, turns))
       <==> Slots(small, g) == 0 || Slots(small, g) == Slots(large, g)
  {
    FewerSlots(small, large, g);
    if Slots(small, g) == 0 || Slots(small, g) == Slots(large, g) {
      forall turns | TraceOf(small.Shape(), g, turns) { IncludedWhen(small, large, g, sched, turns); }
    } else {
      NotIncluded(small, large, g, sched);
    }
  }

  // ---- recompute ------------------------------------------------------------

  /** How many leading blocks are in the pool or among the entries. */
  function CutOf(hbm: seq<Item>, es: seq<Entry>, keys: seq<Key>): (n: nat)
    ensures n <= |keys|
  {
    if keys == [] || !Lifetimes.Resident(hbm, es, keys[0]) then 0 else 1 + CutOf(hbm, es, keys[1..])
  }

  lemma {:induction false} ServeCut(window: real, hbm: seq<Item>, left: map<Key, real>, es: seq<Entry>,
          keys: seq<Key>, now: real)
    ensures Serve(window, hbm, left, es, keys, now).cut == CutOf(hbm, es, keys)
  {
    if keys != [] { ServeCut(window, hbm, left, es, keys[1..], now); }
  }

  /** What a turn recomputes, from the pool, the index and the entries it finds. */
  function RecomputeFrom(geo: Geometry, hbm: seq<Item>, ix: IndexState, es: seq<Entry>, turn: Turn): nat {
    TokensOf(Touch(geo, ix, turn), PathOf(geo, turn)[CutOf(hbm, es, PathOf(geo, turn))..])
  }

  /** What turn `turn` recomputes after the turns of a run. */
  function RecomputeAfter(cfg: SimConfig, sched: Schedule, turns: seq<Turn>, turn: Turn): nat {
    Recompute(cfg, Run(cfg, Recency, sched, turns), turn)
  }

  lemma {:induction false} RecomputeIs(cfg: SimConfig, sched: Schedule, turns: seq<Turn>, turn: Turn)
    ensures RecomputeAfter(cfg, sched, turns, turn)
         == RecomputeFrom(cfg.Shape(), PoolAfter(cfg, turns), IndexAfter(cfg.Shape(), turns),
                          EntriesAfter(cfg, sched, turns), turn)
  {
    var s := Run(cfg, Recency, sched, turns);
    PoolIs(cfg, Recency, sched, turns);
    ControlIsIndependent(cfg, Recency, sched, turns);
    ServeCut(cfg.thrashWindow, s.hbm, s.leftHbm, s.control.host.entries, PathOf(cfg.Shape(), turn), turn.t);
  }

  /** All the entries hold is in the pool or among `more`. */
  ghost predicate Supplied(hbm: seq<Item>, es: seq<Entry>, more: seq<Entry>) {
    forall k :: HasKey(es, k) ==> Hbm.Holds(hbm, k) || HasKey(more, k)
  }

  lemma {:induction false} CutMore(hbm: seq<Item>, es: seq<Entry>, more: seq<Entry>, keys: seq<Key>)
    requires Supplied(hbm, es, more)
    ensures CutOf(hbm, es, keys) <= CutOf(hbm, more, keys)
  {
    if keys != [] { CutMore(hbm, es, more, keys[1..]); }
  }

  lemma RecomputeLess(geo: Geometry, hbm: seq<Item>, ix: IndexState, es: seq<Entry>, more: seq<Entry>, turn: Turn)
    requires Supplied(hbm, es, more)
    ensures RecomputeFrom(geo, hbm, ix, more, turn) <= RecomputeFrom(geo, hbm, ix, es, turn)
  {
    var keys := PathOf(geo, turn);
    CutMore(hbm, es, more, keys);
    HbmInclusion.TokensShrink(Touch(geo, ix, turn), keys, CutOf(hbm, es, keys), CutOf(hbm, more, keys));
  }

  /** Two tiers beside one pool. */
  lemma {:induction false} SuppliedRecomputesLess(a: SimConfig, b: SimConfig, sched: Schedule, turns: seq<Turn>,
          turn: Turn)
    requires b == a.(ram := b.ram)
    requires Supplied(PoolAfter(a, turns), EntriesAfter(a, sched, turns), EntriesAfter(b, sched, turns))
    ensures RecomputeAfter(b, sched, turns, turn) <= RecomputeAfter(a, sched, turns, turn)
  {
    RecomputeIs(a, sched, turns, turn);
    RecomputeIs(b, sched, turns, turn);
    if a.ram.capacity <= b.ram.capacity { SamePool(a, b, turns); } else { SamePool(b, a, turns); }
    RecomputeLess(a.Shape(), PoolAfter(a, turns), IndexAfter(a.Shape(), turns), EntriesAfter(a, sched, turns),
        EntriesAfter(b, sched, turns), turn);
  }

  /** A turn recomputes no more in a tier that holds more. */
  lemma IncludedRecomputesLess(small: SimConfig, large: SimConfig, sched: Schedule, turns: seq<Turn>, turn: Turn)
    requires LargerTier(small, large) && Includes(small, large, sched, turns)
    ensures RecomputeAfter(large, sched, turns, turn) <= RecomputeAfter(small, sched, turns, turn)
  {
    SuppliedRecomputesLess(small, large, sched, turns, turn);
  }

  // ---- the pool of the trial ------------------------------------------------

  lemma {:induction false} PoolUnique(cfg: SimConfig, turns: seq<Turn>)
    ensures Hbm.UniqueItems(PoolAfter(cfg, turns))
  {
    if turns != [] {
      var n := |turns| - 1;
      PoolUnique(cfg, turns[..n]);
      HbmInclusion.PoolShape(cfg, IndexAfter(cfg.Shape(), turns), PoolAfter(cfg, turns[..n]),
          PathOf(cfg.Shape(), turns[n]));
    }
  }

  /** The part of the pool that the path of a turn takes. */
  function PathPart(cfg: SimConfig, before: seq<Turn>, turn: Turn): seq<Item> {
    HbmInclusion.AsStored(PoolAfter(cfg, before), PathItems(IndexAfter(cfg.Shape(), before + [turn]),
                                                            PathOf(cfg.Shape(), turn)))
  }

  /** And what it leaves of the rest. */
  function OtherPart(cfg: SimConfig, before: seq<Turn>, turn: Turn): seq<Item> {
    HbmInclusion.Trim(Hbm.Rest(PoolAfter(cfg, before), KeySet(PathOf(cfg.Shape(), turn))),
                      ItemBytes(PathPart(cfg, before, turn)), cfg.HbmBytes())
  }

  lemma {:induction false} PoolParts(cfg: SimConfig, before: seq<Turn>, turn: Turn)
    ensures PoolAfter(cfg, before + [turn]) == OtherPart(cfg, before, turn) + PathPart(cfg, before, turn)
    ensures |PathPart(cfg, before, turn)| == |PathOf(cfg.Shape(), turn)|
    ensures forall i :: 0 <= i < |PathOf(cfg.Shape(), turn)| ==>
              PathPart(cfg, before, turn)[i].key == PathOf(cfg.Shape(), turn)[i]
  {
    var all := before + [turn];
    assert all[..|before|] == before;
    PoolUnique(cfg, before);
    HbmInclusion.PoolShape(cfg, IndexAfter(cfg.Shape(), all), PoolAfter(cfg, before), PathOf(cfg.Shape(), turn));
  }

  /** After a turn the pool holds its path. */
  lemma {:induction false} PoolHoldsPath(cfg: SimConfig, before: seq<Turn>, turn: Turn, k: Key)
    requires k in PathOf(cfg.Shape(), turn)
    ensures Hbm.Holds(PoolAfter(cfg, before + [turn]), k)
  {
    var i :| 0 <= i < |PathOf(cfg.Shape(), turn)| && PathOf(cfg.Shape(), turn)[i] == k;
    PoolParts(cfg, before, turn);
    assert PoolAfter(cfg, before + [turn])[|OtherPart(cfg, before, turn)| + i].key == k;
  }

  lemma {:induction false} ShedNone(blocks: seq<Item>, ks: set<Key>, over: int)
    requires NothingEmpty(blocks)
    ensures NothingEmpty(Hbm.Shed(blocks, ks, over))
  {
    if over > 0 && blocks != [] {
      assert blocks[0] in blocks && forall b :: b in blocks[1..] ==> b in blocks;
      if blocks[0].key in ks { ShedNone(blocks[1..], ks, over); } else { ShedNone(blocks[1..], ks,
          over - blocks[0].nbytes); }
    }
  }

  lemma {:induction false} StoredOne(blocks: seq<Item>, item: Item)
    ensures Hbm.Stored(blocks, item) == item || Hbm.Stored(blocks, item) in blocks
  {
    if blocks != [] && blocks[0].key != item.key { StoredOne(blocks[1..], item); }
  }

  lemma {:induction false} FillNone(blocks: seq<Item>, items: seq<Item>)
    requires NothingEmpty(blocks) && NothingEmpty(items)
    ensures NothingEmpty(Hbm.Fill(blocks, items))
    decreases |items|
  {
    if items != [] {
      assert items[0] in items && forall b :: b in items[1..] ==> b in items;
      HbmInclusion.RestApart(blocks, {items[0].key});
      StoredOne(blocks, items[0]);
      FillNone(Hbm.Place(blocks, items[0]), items[1..]);
    }
  }

  lemma {:induction false} PoolNone(cfg: SimConfig, turns: seq<Turn>)
    ensures NothingEmpty(PoolAfter(cfg, turns))
  {
    if turns != [] {
      var n := |turns| - 1;
      var ix, keys := IndexAfter(cfg.Shape(), turns), PathOf(cfg.Shape(), turns[n]);
      PoolNone(cfg, turns[..n]);
      IndexSound(cfg.Shape(), turns[..n]);
      PathNone(cfg.Shape(), IndexAfter(cfg.Shape(), turns[..n]), turns[n]);
      FillNone(PoolAfter(cfg, turns[..n]), PathItems(ix, keys));
      var filled := Hbm.Fill(PoolAfter(cfg, turns[..n]), PathItems(ix, keys));
      ShedNone(filled, KeySet(keys), ItemBytes(filled) - cfg.HbmBytes());
    }
  }

  lemma {:induction false} TrimAll(old': seq<Item>, kept: nat, capacity: nat)
    requires kept > capacity
    ensures HbmInclusion.Trim(old', kept, capacity) == []
  {
    if old' != [] { TrimAll(old'[1..], kept, capacity); }
  }

  lemma {:induction false} LongPart(pool: seq<Item>, rest: seq<Item>, path: seq<Item>, capacity: nat)
    requires pool == HbmInclusion.Trim(rest, ItemBytes(path), capacity) + path
    requires NothingEmpty(pool) && |path| > capacity
    ensures pool == path && ItemBytes(pool) > capacity
  {
    assert forall b :: b in path ==> b in pool;
    BytesAtLeast(path);
    TrimAll(rest, ItemBytes(path), capacity);
  }

  /** A path of more blocks than the pool has bytes is all that the pool holds. */
  lemma {:induction false} LongPathIsPool(cfg: SimConfig, before: seq<Turn>, turn: Turn)
    requires |PathOf(cfg.Shape(), turn)| > cfg.HbmBytes()
    ensures var pool := PoolAfter(cfg, before + [turn]);
            ItemBytes(pool) > cfg.HbmBytes() && pool != [] && pool[0].key == PathOf(cfg.Shape(), turn)[0]
  {
    PoolParts(cfg, before, turn);
    PoolNone(cfg, before + [turn]);
    LongPart(PoolAfter(cfg, before + [turn]), Hbm.Rest(PoolAfter(cfg, before), KeySet(PathOf(cfg.Shape(), turn))),
        PathPart(cfg, before, turn), cfg.HbmBytes());
  }

  /** An empty prompt then costs the pool its first block. */
  lemma {:induction false} EmptyTurnSheds(cfg: SimConfig, before: seq<Turn>, turn: Turn)
    requires PathOf(cfg.Shape(), turn) == []
    requires var pool := PoolAfter(cfg, before); pool != [] && ItemBytes(pool) > cfg.HbmBytes()
    ensures !Hbm.Holds(PoolAfter(cfg, before + [turn]), PoolAfter(cfg, before)[0].key)
  {
    var pool, cap := PoolAfter(cfg, before), cfg.HbmBytes();
    PoolUnique(cfg, before);
    PoolParts(cfg, before, turn);
    assert PathPart(cfg, before, turn) == [] && KeySet([]) == {};
    HbmInclusion.RestEmpty(pool);
    assert OtherPart(cfg, before, turn) == HbmInclusion.Trim(pool[1..], 0, cap);
    HbmInclusion.TrimIsSuffix(pool[1..], 0, cap);
    SuffixLacks(pool, HbmInclusion.Trim(pool[1..], 0, cap));
  }

  lemma SuffixLacks(pool: seq<Item>, left: seq<Item>)
    requires pool != [] && Hbm.UniqueItems(pool) && |left| < |pool| && left == pool[1..][|pool| - 1 - |left|..]
    ensures !Hbm.Holds(left, pool[0].key)
  {
    forall i | 0 <= i < |left|
      ensures left[i].key != pool[0].key
    {
      assert left[i] == pool[|pool| - |left| + i];
    }
  }

  // ---- a turn that the larger tier makes dearer -----------------------------

  /** A turn of one block that is not in the pool recomputes it exactly when the tier does not hold it. */
  lemma OneBlockFrom(geo: Geometry, hbm: seq<Item>, ix: IndexState, es: seq<Entry>, turn: Turn, k: Key)
    requires PathOf(geo, turn) == [k] && !Hbm.Holds(hbm, k) && Sound(geo, ix)
    ensures RecomputeFrom(geo, hbm, ix, es, turn) > 0 <==> !HasKey(es, k)
  {
    var r := Touch(geo, ix, turn);
    TouchSound(geo, ix, turn);
    assert k in PathOf(geo, turn) && BlockSized(geo, k, r.blocks[k]);
    assert PathOf(geo, turn)[1..] == [] && PathOf(geo, turn)[0..] == [k];
    assert CutOf(hbm, es, [k][1..]) == 0;
    assert TokensOf(r, [k]) == r.Tokens(k);
  }

  lemma {:induction false} OneBlockCosts(cfg: SimConfig, sched: Schedule, turns: seq<Turn>, turn: Turn, k: Key)
    requires PathOf(cfg.Shape(), turn) == [k] && !Hbm.Holds(PoolAfter(cfg, turns), k)
    ensures RecomputeAfter(cfg, sched, turns, turn) > 0 <==> !HasKey(EntriesAfter(cfg, sched, turns), k)
  {
    RecomputeIs(cfg, sched, turns, turn);
    IndexSound(cfg.Shape(), turns);
    OneBlockFrom(cfg.Shape(), PoolAfter(cfg, turns), IndexAfter(cfg.Shape(), turns), EntriesAfter(cfg, sched, turns),
        turn, k);
  }

  lemma NothingCosts(cfg: SimConfig, sched: Schedule, turns: seq<Turn>, turn: Turn)
    requires PathOf(cfg.Shape(), turn) == []
    ensures RecomputeAfter(cfg, sched, turns, turn) == 0
  {
  }

  /** Two turns after which the pool has lost the first block of the first of them. */
  lemma {:induction false} PoolLoses(cfg: SimConfig, before: seq<Turn>, a: Turn, b: Turn, m: nat)
    requires PathOf(cfg.Shape(), a) == Leading(m) && m > cfg.HbmBytes() && PathOf(cfg.Shape(), b) == []
    ensures !Hbm.Holds(PoolAfter(cfg, before + [a] + [b]), Private(0, 0))
  {
    LongPathIsPool(cfg, before, a);
    EmptyTurnSheds(cfg, before + [a], b);
  }

  lemma PlannedPaths(plan: Plan, geo: Geometry, turns: seq<Turn>)
    requires Planned(plan, geo, turns)
    ensures PathOf(geo, turns[2]) == Leading(plan.m) && PathOf(geo, turns[3]) == []
  {
    assert Asks(plan, geo, IndexAfter(geo, turns[..2]), turns[2], 2);
    assert Asks(plan, geo, IndexAfter(geo, turns[..3]), turns[3], 3);
  }

  lemma LastTwo<T>(s: seq<T>)
    requires |s| >= 4
    ensures s[..4] == s[..2] + [s[2]] + [s[3]]
  {
  }

  /** Before its last turn the trial has done so. */
  lemma {:induction false} PlanLoses(plan: Plan, cfg: SimConfig, turns: seq<Turn>)
    requires Planned(plan, cfg.Shape(), turns) && plan.m > cfg.HbmBytes()
    ensures !Hbm.Holds(PoolAfter(cfg, turns[..4]), Private(0, 0))
  {
    PlannedPaths(plan, cfg.Shape(), turns);
    LastTwo(turns);
    PoolLoses(cfg, turns[..2], turns[2], turns[3], plan.m);
  }

  lemma RowSupplied(es: seq<Entry>, n: nat, hbm: seq<Item>, more: seq<Entry>)
    requires Row(es, n)
    requires forall j :: 0 <= j < n ==> Hbm.Holds(hbm, Private(0, j)) || HasKey(more, Private(0, j))
    ensures Supplied(hbm, es, more)
  {
  }

  /** Before the third turn the pool holds what the larger tier does. */
  lemma {:induction false} PoolSupplies(plan: Plan, cfg: SimConfig, turns: seq<Turn>, es: seq<Entry>, more: seq<Entry>)
    requires Planned(plan, cfg.Shape(), turns) && Row(es, plan.n + 1)
    ensures Supplied(PoolAfter(cfg, turns[..2]), es, more)
  {
    LastOf(turns, 1);
    assert Asks(plan, cfg.Shape(), IndexAfter(cfg.Shape(), turns[..1]), turns[1], 1);
    forall j | 0 <= j < plan.n + 1
      ensures Hbm.Holds(PoolAfter(cfg, turns[..2]), Private(0, j))
    {
      assert Leading(plan.n + 1)[j] == Private(0, j);
      PoolHoldsPath(cfg, turns[..1], turns[1], Private(0, j));
    }
    RowSupplied(es, plan.n + 1, PoolAfter(cfg, turns[..2]), more);
  }

  /** Before the first three turns all the larger tier holds is in the pool or in the smaller one. */
  lemma {:induction false} EarlySupplies(plan: Plan, cfg: SimConfig, turns: seq<Turn>, es: seq<Entry>,
          more: seq<Entry>, i: nat)
    requires Planned(plan, cfg.Shape(), turns) && Stage(plan, true, es, i) && Stage(plan, false, more, i) && i < 3
    ensures Supplied(PoolAfter(cfg, turns[..i]), es, more)
  {
    if i == 1 {
      RowHas(more, plan.n, plan.n);
      forall j | 0 <= j < plan.n
        ensures HasKey(more, Private(0, j))
      {
        assert HasKey(more, Leading(plan.n)[j]);
      }
      RowSupplied(es, plan.n, PoolAfter(cfg, turns[..1]), more);
    } else if i == 2 {
      PoolSupplies(plan, cfg, turns, es, more);
    }
  }

  /** Before the last turn of the trial none costs less in the larger tier. */
  lemma EarlyTurns(small: SimConfig, large: SimConfig, g: Grain, sched: Schedule, i: nat)
    requires LargerTier(small, large) && Exact(small, g) && 1 <= Slots(small, g) < Slots(large, g) && i < 4
    ensures var turns := Trial(small, large, g);
            RecomputeAfter(small, sched, turns[..i], turns[i]) <= RecomputeAfter(large, sched, turns[..i], turns[i])
  {
    var plan, turns := PlanOf(large, g, Slots(small, g)), Trial(small, large, g);
    VisitsArePlanned(large, g, Slots(small, g));
    assert Asks(plan, large.Shape(), IndexAfter(large.Shape(), turns[..i]), turns[i], i);
    if i == 3 {
      NothingCosts(small, sched, turns[..i], turns[i]);
    } else {
      TrialStages(small, large, g, sched, i);
      EarlySupplies(plan, large, turns, EntriesAfter(large, sched, turns[..i]), EntriesAfter(small, sched, turns[..i]),
          i);
      SuppliedRecomputesLess(large, small, sched, turns[..i], turns[i]);
    }
  }

  lemma LastTurn(small: SimConfig, large: SimConfig, g: Grain, sched: Schedule)
    requires LargerTier(small, large) && Exact(small, g) && 1 <= Slots(small, g) < Slots(large, g)
    ensures var turns := Trial(small, large, g);
            RecomputeAfter(small, sched, turns[..4], turns[4]) == 0
              < RecomputeAfter(large, sched, turns[..4], turns[4])
  {
    var plan, turns := PlanOf(large, g, Slots(small, g)), Trial(small, large, g);
    VisitsArePlanned(large, g, Slots(small, g));
    assert Asks(plan, large.Shape(), IndexAfter(large.Shape(), turns[..4]), turns[4], 4);
    TrialStages(small, large, g, sched, 4);
    PlanLoses(plan, large, turns);
    SamePool(small, large, turns[..4]);
    OneBlockCosts(small, sched, turns[..4], turns[4], Private(0, 0));
    OneBlockCosts(large, sched, turns[..4], turns[4], Private(0, 0));
  }

  // ---- reports --------------------------------------------------------------

  /** The recompute tokens of the report. */
  function Reported(cfg: SimConfig, sched: Schedule, turns: seq<Turn>): nat {
    ReportOf(cfg, Run(cfg, Recency, sched, turns)).recomputeTokens
  }

  lemma {:induction false} TotalNext(ms: seq<Metric>, m: Metric)
    ensures TotalRecompute(ms + [m]) == TotalRecompute(ms) + m.recompute
  {
    if ms == [] {
      assert ms + [m] == [m];
    } else {
      TotalNext(ms[1..], m);
      assert (ms + [m])[1..] == ms[1..] + [m];
    }
  }

  lemma {:induction false} ReportedNext(cfg: SimConfig, sched: Schedule, turns: seq<Turn>, turn: Turn)
    ensures Reported(cfg, sched, turns + [turn])
         == Reported(cfg, sched, turns) + RecomputeAfter(cfg, sched, turns, turn)
  {
    var s := Run(cfg, Recency, sched, turns);
    assert (turns + [turn])[..|turns|] == turns;
    OneTurnParts(cfg, Recency, sched, s, turn);
    TotalNext(s.metrics, MetricOf(cfg, s, turn));
  }

  lemma {:induction false} EarlyReports(small: SimConfig, large: SimConfig, g: Grain, sched: Schedule, i: nat)
    requires LargerTier(small, large) && Exact(small, g) && 1 <= Slots(small, g) < Slots(large, g) && i <= 4
    ensures Reported(small, sched, Trial(small, large, g)[..i]) <= Reported(large, sched, Trial(small, large, g)[..i])
  {
    if i > 0 {
      var turns := Trial(small, large, g);
      EarlyReports(small, large, g, sched, i - 1);
      EarlyTurns(small, large, g, sched, i - 1);
      LastOf(turns, i - 1);
      ReportedNext(small, sched, turns[..i - 1], turns[i - 1]);
      ReportedNext(large, sched, turns[..i - 1], turns[i - 1]);
    }
  }

  lemma DearerReport(small: SimConfig, large: SimConfig, sched: Schedule, turns: seq<Turn>, turn: Turn)
    requires Reported(small, sched, turns) <= Reported(large, sched, turns)
    requires RecomputeAfter(small, sched, turns, turn) < RecomputeAfter(large, sched, turns, turn)
    ensures Reported(small, sched, turns + [turn]) < Reported(large, sched, turns + [turn])
  {
    ReportedNext(small, sched, turns, turn);
    ReportedNext(large, sched, turns, turn);
  }

  /** So a larger tier can make a turn dearer, and the whole report. */
  lemma LargerTierCanCostMore(small: SimConfig, large: SimConfig, g: Grain, sched: Schedule)
      returns (turns: seq<Turn>, turn: Turn)
    requires LargerTier(small, large) && Exact(small, g) && 1 <= Slots(small, g) < Slots(large, g)
    ensures TraceOf(small.Shape(), g, turns + [turn])
    ensures RecomputeAfter(small, sched, turns, turn) == 0 < RecomputeAfter(large, sched, turns, turn)
    ensures Reported(small, sched, turns + [turn]) < Reported(large, sched, turns + [turn])
  {
    turns, turn := Trial(small, large, g)[..4], Trial(small, large, g)[4];
    TrialEnds(small, large, g);
    LastTurn(small, large, g, sched);
    EarlyReports(small, large, g, sched, 4);
    DearerReport(small, large, sched, turns, turn);
  }

  lemma TrialEnds(small: SimConfig, large: SimConfig, g: Grain)
    requires LargerTier(small, large)
    ensures TraceOf(small.Shape(), g, Trial(small, large, g)[..4] + [Trial(small, large, g)[4]])
  {
    VisitsAreTrace(large, g, Slots(small, g));
    assert Trial(small, large, g)[..4] + [Trial(small, large, g)[4]] == Trial(small, large, g);
  }

  // ---- exactly when ---------------------------------------------------------

  ghost predicate NeverDearer(small: SimConfig, large: SimConfig, sched: Schedule, turns: seq<Turn>, turn: Turn) {
    RecomputeAfter(large, sched, turns, turn) <= RecomputeAfter(small, sched, turns, turn)
  }

  lemma NoDearerWhen(small: SimConfig, large: SimConfig, g: Grain, sched: Schedule, turns: seq<Turn>, turn: Turn)
    requires LargerTier(small, large) && Exact(small, g) && Grained(small.Shape(), g, turns + [turn])
    requires Slots(small, g) == 0 || Slots(small, g) == Slots(large, g)
    ensures NeverDearer(small, large, sched, turns, turn)
  {
    assert (turns + [turn])[..|turns|] == turns;
    EarlierGrained(small.Shape(), g, turns + [turn], |turns|);
    IncludedWhen(small, large, g, sched, turns);
    IncludedRecomputesLess(small, large, sched, turns, turn);
  }

  /** For every pool: under LRU no turn of any trace recomputes more in the larger tier exactly when the
      smaller one has no slot or as many. */
  lemma RecomputeIff(small: SimConfig, large: SimConfig, g: Grain, sched: Schedule)
    requires LargerTier(small, large) && Exact(small, g)
    ensures (forall turns, turn :: TraceOf(small.Shape(), g, turns + [turn]) ==>
              NeverDearer(small, large, sched, turns, turn))
       <==> Slots(small, g) == 0 || Slots(small, g) == Slots(large, g)
  {
    FewerSlots(small, large, g);
    if Slots(small, g) == 0 || Slots(small, g) == Slots(large, g) {
      forall turns, turn | TraceOf(small.Shape(), g, turns + [turn]) {
        NoDearerWhen(small, large, g, sched, turns, turn);
      }
    } else {
      var turns, turn := LargerTierCanCostMore(small, large, g, sched);
      assert !NeverDearer(small, large, sched, turns, turn);
    }
  }

  lemma {:induction false} ReportsLessWhen(small: SimConfig, large: SimConfig, g: Grain, sched: Schedule,
          turns: seq<Turn>)
    requires LargerTier(small, large) && Exact(small, g) && Grained(small.Shape(), g, turns)
    requires Slots(small, g) == 0 || Slots(small, g) == Slots(large, g)
    ensures Reported(large, sched, turns) <= Reported(small, sched, turns)
  {
    if turns != [] {
      var n := |turns| - 1;
      assert turns == turns[..n] + [turns[n]];
      ReportsLessWhen(small, large, g, sched, turns[..n]);
      NoDearerWhen(small, large, g, sched, turns[..n], turns[n]);
      ReportedNext(small, sched, turns[..n], turns[n]);
      ReportedNext(large, sched, turns[..n], turns[n]);
    }
  }

  /** And no report shows more recompute tokens in exactly these cases. */
  lemma ReportsIff(small: SimConfig, large: SimConfig, g: Grain, sched: Schedule)
    requires LargerTier(small, large) && Exact(small, g)
    ensures (forall turns :: TraceOf(small.Shape(), g, turns) ==>
              Reported(large, sched, turns) <= Reported(small, sched, turns))
       <==> Slots(small, g) == 0 || Slots(small, g) == Slots(large, g)
  {
    FewerSlots(small, large, g);
    if Slots(small, g) == 0 || Slots(small, g) == Slots(large, g) {
      forall turns | TraceOf(small.Shape(), g, turns) { ReportsLessWhen(small, large, g, sched, turns); }
    } else {
      var turns, turn := LargerTierCanCostMore(small, large, g, sched);
      assert !(Reported(large, sched, turns + [turn]) <= Reported(small, sched, turns + [turn]));
    }
  }
}
