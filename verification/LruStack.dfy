/** On one-block turns a larger host tier never misses more under LRU.

    First on maps from blocks to the time of their last request: what a smaller LRU cache holds, a larger
    one holds too, and what only the larger one holds is older.  Then for the simulator, on equal one-block
    turns at strictly increasing times. */
module LruStack {
  import opened Base
  import opened Sorting
  import opened Trace
  import opened Config
  import opened Prefix
  import opened Policies
  import opened Hbm
  import opened Replay
  import opened HostFacts
  import opened Foresight
  import opened Belady
  import opened Lifetimes
  import opened Uncontended
  import opened HbmInclusion

  // ---- the cache as a map ---------------------------------------------------

  /** When each held block was last requested. */
  type Stamps = map<Key, real>

  ghost predicate Oldest(m: Stamps, v: Key) { v in m && forall k :: k in m ==> m[v] <= m[k] }

  /** A request for `x` at `t` to an LRU cache of `slots` blocks. */
  ghost predicate LruStep(m: Stamps, m': Stamps, x: Key, t: real, slots: nat) {
    && Replaced(m, m'.Keys, x, slots)
    && x in m' && m'[x] == t && forall k :: k in m' && k != x ==> k in m && m'[k] == m[k]
  }

  ghost predicate Replaced(m: Stamps, keys: set<Key>, x: Key, slots: nat) {
    if x in m || |m.Keys| < slots then keys == m.Keys + {x}
    else exists v :: Oldest(m, v) && keys == m.Keys - {v} + {x}
  }

  /** No two blocks were last requested at the same time, and none at `t` or later. */
  ghost predicate Ordered(m: Stamps, t: real) {
    (forall k :: k in m ==> m[k] < t) && forall k, l :: k in m && l in m && k != l ==> m[k] != m[l]
  }

  /** What the smaller cache holds, the larger one holds too, with the same stamps. */
  ghost predicate Included(s: Stamps, l: Stamps) { forall k :: k in s ==> k in l && l[k] == s[k] }

  /** What only the larger one holds is older than all the smaller one holds. */
  ghost predicate OlderOutside(s: Stamps, l: Stamps) { forall k, e :: k in l && k !in s && e in s ==> l[k] < s[e] }

  /** A smaller cache that has a free slot lacks nothing. */
  ghost predicate LacksNothing(s: Stamps, l: Stamps, slots: nat) { |s.Keys| < slots ==> l.Keys <= s.Keys }

  ghost predicate Below(s: Stamps, l: Stamps, slots: nat) {
    |s.Keys| <= slots && Included(s, l) && OlderOutside(s, l) && LacksNothing(s, l, slots)
  }

  lemma StepOrdered(m: Stamps, m': Stamps, x: Key, t: real, slots: nat, t': real)
    requires Ordered(m, t) && LruStep(m, m', x, t, slots) && t < t'
    ensures Ordered(m', t')
  {
  }

  lemma SwapSize(s: set<Key>, v: Key, x: Key)
    requires v in s && x !in s
    ensures |s - {v} + {x}| == |s|
  {
    assert |s - {v} + {x}| == |s - {v}| + 1;
  }

  lemma SizeAfter(m: Stamps, keys: set<Key>, x: Key, slots: nat)
    requires |m.Keys| <= slots && 1 <= slots && Replaced(m, keys, x, slots)
    ensures |keys| <= slots && (|keys| < slots ==> |m.Keys| < slots)
  {
    if x in m {
      assert keys == m.Keys;
    } else if |m.Keys| < slots {
      assert |m.Keys + {x}| == |m.Keys| + 1;
    } else {
      var v :| Oldest(m, v) && keys == m.Keys - {v} + {x};
      SwapSize(m.Keys, v, x);
    }
  }

  /** When the smaller cache lacks nothing and has a free slot, the larger one has a free slot too. */
  lemma BothFree(s: Stamps, l: Stamps, few: nat)
    requires Below(s, l, few) && |s.Keys| < few
    ensures l.Keys == s.Keys
  {
  }

  /** What the larger cache gives up, the smaller one does not hold or gives up too. */
  lemma GivenUp(s: Stamps, l: Stamps, t: real, u: Key, v: Key)
    requires Included(s, l) && Ordered(l, t) && Oldest(l, u) && Oldest(s, v) && u in s
    ensures u == v
  {
    assert l[u] == s[u] && l[v] == s[v];
  }

  /** What the smaller cache keeps, the larger one keeps. */
  lemma KeepsKey(s: Stamps, keys: set<Key>, l: Stamps, keys': set<Key>, x: Key, t: real, few: nat, many: nat, k: Key)
    requires few <= many && Below(s, l, few) && Ordered(l, t)
    requires Replaced(s, keys, x, few) && Replaced(l, keys', x, many) && k in keys
    ensures k in keys'
  {
    if x !in l && |l.Keys| >= many {
      var u :| Oldest(l, u) && keys' == l.Keys - {u} + {x};
      if |s.Keys| < few { BothFree(s, l, few); }
      assert x !in s;
      var v :| Oldest(s, v) && keys == s.Keys - {v} + {x};
      if u in s { GivenUp(s, l, t, u, v); }
    }
  }

  /** What the smaller cache gives up is older than what it keeps. */
  lemma LeavesOlder(s: Stamps, keys: set<Key>, x: Key, t: real, few: nat, k: Key, e: Key)
    requires Ordered(s, t) && Replaced(s, keys, x, few) && k in s && k !in keys && e in s && e in keys
    ensures s[k] < s[e]
  {
    var v :| Oldest(s, v) && keys == s.Keys - {v} + {x};
  }

  lemma StepIncluded(s: Stamps, s': Stamps, l: Stamps, l': Stamps, x: Key, t: real, few: nat, many: nat)
    requires few <= many && Below(s, l, few) && Ordered(l, t)
    requires LruStep(s, s', x, t, few) && LruStep(l, l', x, t, many)
    ensures Included(s', l')
  {
    forall k | k in s'
      ensures k in l' && l'[k] == s'[k]
    {
      KeepsKey(s, s'.Keys, l, l'.Keys, x, t, few, many, k);
    }
  }

  lemma StepOlder(s: Stamps, s': Stamps, l: Stamps, l': Stamps, x: Key, t: real, few: nat, many: nat)
    requires few <= many && Below(s, l, few) && Ordered(l, t)
    requires LruStep(s, s', x, t, few) && LruStep(l, l', x, t, many)
    ensures OlderOutside(s', l')
  {
    forall k, e | k in l' && k !in s' && e in s'
      ensures l'[k] < s'[e]
    {
      assert k != x && k in l && l'[k] == l[k];
      if e != x {
        if k in s { LeavesOlder(s, s'.Keys, x, t, few, k, e); }
      }
    }
  }

  lemma StepLacks(s: Stamps, s': Stamps, l: Stamps, l': Stamps, x: Key, t: real, few: nat, many: nat)
    requires 1 <= few <= many && Below(s, l, few)
    requires LruStep(s, s', x, t, few) && LruStep(l, l', x, t, many)
    ensures |s'.Keys| <= few && LacksNothing(s', l', few)
  {
    SizeAfter(s, s'.Keys, x, few);
    if |s'.Keys| < few { BothFree(s, l, few); }
  }

  /** One request keeps the larger cache above the smaller one. */
  lemma StepBelow(s: Stamps, s': Stamps, l: Stamps, l': Stamps, x: Key, t: real, few: nat, many: nat)
    requires 1 <= few <= many && Below(s, l, few) && Ordered(l, t)
    requires LruStep(s, s', x, t, few) && LruStep(l, l', x, t, many)
    ensures Below(s', l', few)
  {
    StepIncluded(s, s', l, l', x, t, few, many);
    StepOlder(s, s', l, l', x, t, few, many);
    StepLacks(s, s', l, l', x, t, few, many);
  }

  // ---- the host tier under LRU ----------------------------------------------

  function StampsOf(es: seq<Entry>): (m: Stamps)
    ensures m.Keys == HostKeys(es)
  {
    map k | k in HostKeys(es) :: if HasKey(es, k) then Find(es, k).value.lastTouch else 0.0
  }

  lemma StampIs(es: seq<Entry>, e: Entry)
    requires UniqueKeys(es) && e in es
    ensures e.key in HostKeys(es) && StampsOf(es)[e.key] == e.lastTouch
  {
    var i :| 0 <= i < |es| && es[i] == e;
    assert EntryKeys(es)[i] == e.key && HasKey(es, e.key);
    var f := Find(es, e.key).value;
    var j :| 0 <= j < |es| && es[j] == f;
  }

  /** The first entry of the order is the oldest. */
  lemma {:induction false} FirstIsOldest(es: seq<Entry>)
    requires UniqueKeys(es) && es != []
    ensures var v := StableSort(es, EntryOrder(Recency))[0]; v in es && Oldest(StampsOf(es), v.key)
  {
    var order := StableSort(es, EntryOrder(Recency));
    EntryOrderTotal(Recency);
    SortIsSorted(es, EntryOrder(Recency));
    SortMembers(es, EntryOrder(Recency));
    assert order[0] in order;
    StampIs(es, order[0]);
    forall k | k in StampsOf(es)
      ensures order[0].lastTouch <= StampsOf(es)[k]
    {
      var i :| 0 <= i < |es| && EntryKeys(es)[i] == k;
      StampIs(es, es[i]);
      assert es[i] in order;
      var j :| 0 <= j < |order| && order[j] == es[i];
      if j > 0 { assert EntryOrder(Recency)(order[0], order[j]); }
    }
  }

  /** The keys after a turn are those of an LRU step. */
  lemma KeysReplaced(p: Probe, es: seq<Entry>, r: seq<Entry>, x: Key, n: nat, slots: nat)
    requires UniqueKeys(es) && |es| <= slots && 1 <= slots && Replaces(Recency, p, es, r, x, n, slots)
    requires forall i :: 0 <= i < |es| ==> es[i].nbytes == n
    ensures Replaced(StampsOf(es), HostKeys(r), x, slots)
  {
    ReplacedKeys(Recency, p, es, r, x, n, slots);
    HostKeysCount(es);
    HostKeysHas(es, x);
    if x !in HostKeys(es) && |es| >= slots {
      Absent(es, x);
      FirstIsOldest(es);
    }
  }

  /** And so are the stamps. */
  lemma StampsKept(es: seq<Entry>, r: seq<Entry>, x: Key, t: real)
    requires UniqueKeys(es) && UniqueKeys(r)
    requires forall e :: e in r ==> if e.key == x then e.lastTouch == t else e in es
    ensures x in HostKeys(r) ==> StampsOf(r)[x] == t
    ensures forall k :: k in HostKeys(r) && k != x ==> k in HostKeys(es) && StampsOf(r)[k] == StampsOf(es)[k]
  {
    forall k | k in HostKeys(r)
      ensures if k == x then StampsOf(r)[k] == t else k in HostKeys(es) && StampsOf(r)[k] == StampsOf(es)[k]
    {
      var i :| 0 <= i < |r| && EntryKeys(r)[i] == k;
      assert r[i] in r;
      StampIs(r, r[i]);
      if k != x { StampIs(es, r[i]); }
    }
  }

  function StampsAfter(cfg: SimConfig, sched: Schedule, turns: seq<Turn>): Stamps {
    StampsOf(RunControl(cfg, Recency, sched, turns).host.entries)
  }

  /** Each turn is a request to an LRU cache. */
  lemma TurnIsLruStep(cfg: SimConfig, sched: Schedule, all: seq<Turn>, size: nat, j: nat)
    requires UnitTrace(cfg, all, size) && j < |all|
    ensures LruStep(StampsAfter(cfg, sched, all[..j]), StampsAfter(cfg, sched, all[..j + 1]),
                    KeyOf(cfg.Shape(), all[j]), all[j].t, Slots(cfg, size))
  {
    var c, r := RunControl(cfg, Recency, sched, all[..j]), RunControl(cfg, Recency, sched, all[..j + 1]);
    var p, x := ProbeOf(cfg, c, all[j]), KeyOf(cfg.Shape(), all[j]);
    CacheStep(cfg, Recency, sched, all, size, j);
    ReplacedKeys(Recency, p, c.host.entries, r.host.entries, x, cfg.cost.BlockBytes(size), Slots(cfg, size));
    KeysReplaced(p, c.host.entries, r.host.entries, x, cfg.cost.BlockBytes(size), Slots(cfg, size));
    TurnStamps(cfg, sched, all, size, j);
    StampsKept(c.host.entries, r.host.entries, x, all[j].t);
  }

  lemma {:induction false} TurnStamps(cfg: SimConfig, sched: Schedule, all: seq<Turn>, size: nat, j: nat)
    requires UnitTrace(cfg, all, size) && j < |all|
    ensures var es, r := RunControl(cfg, Recency, sched, all[..j]).host.entries,
              RunControl(cfg, Recency, sched, all[..j + 1]).host.entries;
            forall e :: e in r ==> if e.key == KeyOf(cfg.Shape(), all[j]) then e.lastTouch == all[j].t else e in es
  {
    var c := RunControl(cfg, Recency, sched, all[..j]);
    OneBlockPath(cfg.Shape(), all[j], size);
    RunHoused(cfg, Recency, sched, all[..j]);
    StepRenews(cfg, Recency, sched, c, all[j]);
    assert all[..j + 1][..j] == all[..j];
  }

  lemma {:induction false} RunOrdered(cfg: SimConfig, sched: Schedule, all: seq<Turn>, size: nat, j: nat, t: real)
    requires UnitTrace(cfg, all, size) && Increasing(all) && j <= |all|
    requires forall i :: 0 <= i < j ==> all[i].t < t
    ensures Ordered(StampsAfter(cfg, sched, all[..j]), t)
  {
    if j == 0 {
      assert all[..0] == [] && StampsOf([]).Keys == {};
    } else {
      RunOrdered(cfg, sched, all, size, j - 1, all[j - 1].t);
      TurnIsLruStep(cfg, sched, all, size, j - 1);
      StepOrdered(StampsAfter(cfg, sched, all[..j - 1]), StampsAfter(cfg, sched, all[..j]),
          KeyOf(cfg.Shape(), all[j - 1]), all[j - 1].t, Slots(cfg, size), t);
    }
  }

  lemma MoreSlots(a: nat, b: nat, n: nat)
    requires 1 <= n && a <= b
    ensures a / n <= b / n
  {
    var q, r := a / n, b / n;
    assert a == n * q + a % n && b == n * r + b % n;
    if q > r { MulMono(n, r + 1, q); }
  }

  /** Two configurations that differ in the host tier only, the second with no less capacity. */
  ghost predicate LargerTier(small: SimConfig, large: SimConfig) {
    large == small.(ram := large.ram) && small.ram.capacity <= large.ram.capacity
  }

  /** Stack inclusion: after every turn the larger tier holds what the smaller one holds. */
  lemma {:induction false} TierInclusion(small: SimConfig, large: SimConfig, sched: Schedule, all: seq<Turn>,
          size: nat, j: nat)
    requires LargerTier(small, large) && UnitTrace(small, all, size) && Increasing(all) && j <= |all|
    ensures Below(StampsAfter(small, sched, all[..j]), StampsAfter(large, sched, all[..j]), Slots(small, size))
  {
    if j == 0 {
      assert all[..0] == [] && StampsOf([]).Keys == {};
    } else {
      TierInclusion(small, large, sched, all, size, j - 1);
      MoreSlots(small.ram.capacity, large.ram.capacity, small.cost.BlockBytes(size));
      SlotsFit(small.ram.capacity, small.cost.BlockBytes(size));
      RunOrdered(large, sched, all, size, j - 1, all[j - 1].t);
      TurnIsLruStep(small, sched, all, size, j - 1);
      TurnIsLruStep(large, sched, all, size, j - 1);
      StepBelow(StampsAfter(small, sched, all[..j - 1]), StampsAfter(small, sched, all[..j]),
          StampsAfter(large, sched, all[..j - 1]), StampsAfter(large, sched, all[..j]),
          KeyOf(small.Shape(), all[j - 1]), all[j - 1].t, Slots(small, size), Slots(large, size));
    }
  }

  lemma {:induction false} FewerMisses(xs: seq<Key>, a: seq<set<Key>>, b: seq<set<Key>>, n: nat)
    requires n <= |xs| < |a| && |xs| < |b| && forall j :: 0 <= j <= |xs| ==> a[j] <= b[j]
    ensures Misses(xs, b, n) <= Misses(xs, a, n)
  {
    if n > 0 { FewerMisses(xs, a, b, n - 1); }
  }

  /** So a larger tier has no more host misses. */
  lemma LargerTierMissesLess(small: SimConfig, large: SimConfig, sched: Schedule, all: seq<Turn>, size: nat)
    requires LargerTier(small, large) && UnitTrace(small, all, size) && Increasing(all)
    ensures HostMisses(large, Recency, sched, all) <= HostMisses(small, Recency, sched, all)
  {
    var xs, a, b := Requests(small.Shape(), all), Caches(small, Recency, sched, all),
        Caches(large, Recency, sched, all);
    forall j | 0 <= j <= |xs|
      ensures a[j] <= b[j]
    {
      TierInclusion(small, large, sched, all, size, j);
      assert a[j] == StampsAfter(small, sched, all[..j]).Keys && b[j] == StampsAfter(large, sched, all[..j]).Keys;
    }
    FewerMisses(xs, a, b, |xs|);
  }

  // ---- recompute ------------------------------------------------------------

  /** The pool after the turns of a trace, whatever the host tier does. */
  function PoolAfter(cfg: SimConfig, turns: seq<Turn>): seq<Item> {
    if turns == [] then []
    else
      var n := |turns| - 1;
      StepHbm(cfg, IndexAfter(cfg.Shape(), turns), PoolAfter(cfg, turns[..n]), PathOf(cfg.Shape(), turns[n]))
  }

  lemma {:induction false} PoolIs(cfg: SimConfig, kind: Kind, sched: Schedule, turns: seq<Turn>)
    ensures Run(cfg, kind, sched, turns).hbm == PoolAfter(cfg, turns)
    ensures Run(cfg, kind, sched, turns).control.ix == IndexAfter(cfg.Shape(), turns)
  {
    if turns != [] {
      var n := |turns| - 1;
      PoolIs(cfg, kind, sched, turns[..n]);
      OneTurnPool(cfg, kind, sched, Run(cfg, kind, sched, turns[..n]), turns[n]);
    }
  }

  lemma {:induction false} SamePool(small: SimConfig, large: SimConfig, turns: seq<Turn>)
    requires LargerTier(small, large)
    ensures PoolAfter(small, turns) == PoolAfter(large, turns)
  {
    if turns != [] { SamePool(small, large, turns[..|turns| - 1]); }
  }

  /** A turn of one block recomputes it exactly when it is in neither tier. */
  lemma OneBlockRecompute(cfg: SimConfig, s: Sim, turn: Turn, size: nat)
    requires OneBlock(cfg.Shape(), turn, size)
    ensures var x := KeyOf(cfg.Shape(), turn);
            Recompute(cfg, s, turn) == if Resident(s.hbm, s.control.host.entries, x) then 0
                                       else Touch(cfg.Shape(), s.control.ix, turn).Tokens(x)
  {
    var keys, ix := PathOf(cfg.Shape(), turn), Touch(cfg.Shape(), s.control.ix, turn);
    OneBlockPath(cfg.Shape(), turn, size);
    assert keys == [KeyOf(cfg.Shape(), turn)];
    ServedLongest(cfg.thrashWindow, s.hbm, s.leftHbm, s.control.host.entries, keys, turn.t);
    assert TokensOf(ix, keys[1..]) == 0;
    assert keys[0..] == keys;
  }

  /** With a larger host tier no turn recomputes more. */
  lemma {:induction false} LargerTierRecomputesLess(small: SimConfig, large: SimConfig, sched: Schedule,
          all: seq<Turn>, size: nat,
          j: nat)
    requires LargerTier(small, large) && UnitTrace(small, all, size) && Increasing(all) && j < |all|
    ensures Recompute(large, Run(large, Recency, sched, all[..j]), all[j])
         <= Recompute(small, Run(small, Recency, sched, all[..j]), all[j])
  {
    var s, l, x := Run(small, Recency, sched, all[..j]), Run(large, Recency, sched, all[..j]),
        KeyOf(small.Shape(), all[j]);
    SamePool(small, large, all[..j]);
    PoolIs(small, Recency, sched, all[..j]);
    PoolIs(large, Recency, sched, all[..j]);
    ControlIsIndependent(small, Recency, sched, all[..j]);
    ControlIsIndependent(large, Recency, sched, all[..j]);
    TierInclusion(small, large, sched, all, size, j);
    HostKeysHas(s.control.host.entries, x);
    HostKeysHas(l.control.host.entries, x);
    OneBlockRecompute(small, s, all[j], size);
    OneBlockRecompute(large, l, all[j], size);
  }
}
