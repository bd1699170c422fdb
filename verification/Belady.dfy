/** Belady's optimality of the oracle policy.

    First on plain request sequences: a cache that evicts the block needed farthest in the future
    misses no more often than any cache of the same size that admits every request.  Then for the
    simulator: on a trace of equal-sized one-block turns the oracle's host tier is such a cache. */
module Belady {
  import opened Base
  import opened Sorting
  import opened Trace
  import opened Config
  import opened Prefix
  import opened Leases
  import opened Policies
  import opened Replay
  import opened HostFacts
  import opened Foresight

  // ---- request sequences ----------------------------------------------------

  /** Index of the first request for `k` at or after `j`; the length when there is none. */
  function NextIndex(xs: seq<Key>, j: nat, k: Key): (i: nat)
    requires j <= |xs|
    ensures j <= i <= |xs|
    ensures i < |xs| ==> xs[i] == k
    ensures forall l :: j <= l < i ==> xs[l] != k
    decreases |xs| - j
  {
    if j == |xs| || xs[j] == k then j else NextIndex(xs, j + 1, k)
  }

  /** The blocks of `s` requested at `tau` or sooner, from `j` on. */
  ghost function Near(xs: seq<Key>, s: set<Key>, j: nat, tau: int): set<Key>
    requires j <= |xs|
  {
    set k | k in s && NextIndex(xs, j, k) <= tau
  }

  function Bit(b: bool): int { if b then 1 else 0 }

  lemma {:induction false} NearAdd(xs: seq<Key>, s: set<Key>, x: Key, j: nat, tau: int)
    requires j <= |xs| && x !in s
    ensures |Near(xs, s + {x}, j, tau)| == |Near(xs, s, j, tau)| + Bit(NextIndex(xs, j, x) <= tau)
  {
    if NextIndex(xs, j, x) <= tau {
      assert Near(xs, s + {x}, j, tau) == Near(xs, s, j, tau) + {x};
    } else {
      assert Near(xs, s + {x}, j, tau) == Near(xs, s, j, tau);
    }
  }

  lemma {:induction false} NearRemove(xs: seq<Key>, s: set<Key>, x: Key, j: nat, tau: int)
    requires j <= |xs|
    ensures |Near(xs, s - {x}, j, tau)| == |Near(xs, s, j, tau)| - Bit(x in s && NextIndex(xs, j, x) <= tau)
  {
    if x in s {
      NearAdd(xs, s - {x}, x, j, tau);
      assert (s - {x}) + {x} == s;
    } else {
      assert s - {x} == s;
    }
  }

  /** Blocks other than the one requested at `j` keep their next request. */
  lemma NearShift(xs: seq<Key>, s: set<Key>, j: nat, tau: int)
    requires j < |xs| && xs[j] !in s
    ensures Near(xs, s, j, tau) == Near(xs, s, j + 1, tau)
  {
  }

  lemma NearSubset(xs: seq<Key>, a: set<Key>, b: set<Key>, j: nat, tau: int)
    requires j <= |xs| && a <= b
    ensures |Near(xs, a, j, tau)| <= |Near(xs, b, j, tau)| && |Near(xs, a, j, tau)| <= |a|
  {
    Smaller(Near(xs, a, j, tau), Near(xs, b, j, tau));
    Smaller(Near(xs, a, j, tau), a);
  }

  lemma Smaller<T>(a: set<T>, b: set<T>)
    requires a <= b
    ensures |a| <= |b|
  {
    assert b == a + (b - a);
  }

  /** A step of a cache of at most `size` blocks that admits every request. */
  ghost predicate Demand(x: Key, size: nat, s: set<Key>, s': set<Key>) {
    s' <= s + {x} && x in s' && |s'| <= size
  }

  /** A step of a cache that evicts, when it must, a block requested farthest in the future. */
  ghost predicate Farthest(xs: seq<Key>, j: nat, size: nat, s: set<Key>, s': set<Key>)
    requires j < |xs|
  {
    var x := xs[j];
    if x in s then s' == s
    else if |s| < size then s' == s + {x}
    else exists v :: v in s && s' == s - {v} + {x}
           && forall w :: w in s ==> NextIndex(xs, j + 1, w) <= NextIndex(xs, j + 1, v)
  }

  /** The competitor holds at most `lead` more of the blocks requested at `tau` or sooner. */
  ghost predicate Within(xs: seq<Key>, j: nat, o: set<Key>, c: set<Key>, lead: int, tau: int)
    requires j <= |xs|
  {
    |Near(xs, c, j, tau)| - |Near(xs, o, j, tau)| <= lead
  }

  /** How far the competitor is ahead at any horizon is bounded by how often it missed more. */
  ghost predicate Ahead(xs: seq<Key>, j: nat, o: set<Key>, c: set<Key>, lead: int)
    requires j <= |xs|
  {
    lead >= 0 && forall tau: int :: Within(xs, j, o, c, lead, tau)
  }

  lemma {:induction false} CompetitorNear(xs: seq<Key>, j: nat, size: nat, c: set<Key>, c': set<Key>, tau: int)
    requires j < |xs| && Demand(xs[j], size, c, c')
    ensures var next := Bit(NextIndex(xs, j + 1, xs[j]) <= tau);
            && |Near(xs, c', j + 1, tau)| <= |Near(xs, c, j, tau)| - Bit(xs[j] in c && j <= tau) + next
            && |Near(xs, c', j + 1, tau)| <= size - 1 + next
  {
    var x := xs[j];
    var d := c' - {x};
    NearAdd(xs, d, x, j + 1, tau);
    assert d + {x} == c';
    NearShift(xs, d, j, tau);
    NearSubset(xs, d, c - {x}, j, tau);
    NearRemove(xs, c, x, j, tau);
    assert |c'| == |d| + 1;
  }

  lemma {:induction false} OracleNear(xs: seq<Key>, j: nat, size: nat, o: set<Key>, o': set<Key>, v: Key, tau: int)
    requires j < |xs| && xs[j] !in o && v in o && o' == o - {v} + {xs[j]}
    ensures |Near(xs, o', j + 1, tau)| == |Near(xs, o, j, tau)| - Bit(NextIndex(xs, j + 1, v) <= tau)
                                          + Bit(NextIndex(xs, j + 1, xs[j]) <= tau)
  {
    NearAdd(xs, o - {v}, xs[j], j + 1, tau);
    NearShift(xs, o - {v}, j, tau);
    NearRemove(xs, o, v, j, tau);
  }

  lemma {:induction false} OracleNearHit(xs: seq<Key>, j: nat, o: set<Key>, tau: int)
    requires j < |xs|
    ensures |Near(xs, o + {xs[j]}, j + 1, tau)| == |Near(xs, o, j, tau)| - Bit(xs[j] in o && j <= tau)
                                          + Bit(NextIndex(xs, j + 1, xs[j]) <= tau)
  {
    var d := o - {xs[j]};
    NearAdd(xs, d, xs[j], j + 1, tau);
    assert d + {xs[j]} == o + {xs[j]};
    NearShift(xs, d, j, tau);
    NearRemove(xs, o, xs[j], j, tau);
  }

  /** When the farthest block lies within the horizon, so does the whole cache. */
  lemma {:induction false} AllNear(xs: seq<Key>, j: nat, o: set<Key>, v: Key, tau: int)
    requires j < |xs| && xs[j] !in o && v in o && NextIndex(xs, j + 1, v) <= tau
    requires forall w :: w in o ==> NextIndex(xs, j + 1, w) <= NextIndex(xs, j + 1, v)
    ensures |Near(xs, o, j, tau)| == |o|
  {
    NearShift(xs, o, j, tau);
    assert Near(xs, o, j + 1, tau) == o;
  }

  lemma StepTau(xs: seq<Key>, j: nat, size: nat, o: set<Key>, o': set<Key>, c: set<Key>, c': set<Key>, lead: int,
          tau: int)
    requires j < |xs| && |o| <= size && Farthest(xs, j, size, o, o') && Demand(xs[j], size, c, c')
    requires Ahead(xs, j, o, c, lead) && lead >= Bit(xs[j] in c) - Bit(xs[j] in o)
    ensures Within(xs, j + 1, o', c', lead + Bit(xs[j] !in c) - Bit(xs[j] !in o), tau)
  {
    var x := xs[j];
    assert Within(xs, j, o, c, lead, tau);
    CompetitorNear(xs, j, size, c, c', tau);
    if x in o || |o| < size {
      OracleNearHit(xs, j, o, tau);
      assert o + {x} == o';
    } else {
      var v :| v in o && o' == o - {v} + {x} && forall w :: w in o ==>
        NextIndex(xs, j + 1, w) <= NextIndex(xs, j + 1, v);
      OracleNear(xs, j, size, o, o', v, tau);
      if NextIndex(xs, j + 1, v) <= tau { AllNear(xs, j, o, v, tau); }
    }
    if tau < j {
      assert Near(xs, c, j, tau) == {} && Near(xs, o, j, tau) == {};
    }
  }

  lemma LeadNow(xs: seq<Key>, j: nat, o: set<Key>, c: set<Key>, lead: int)
    requires j < |xs| && Ahead(xs, j, o, c, lead)
    ensures lead >= Bit(xs[j] in c) - Bit(xs[j] in o)
  {
    assert Within(xs, j, o, c, lead, j);
    assert forall k :: NextIndex(xs, j, k) <= j <==> k == xs[j];
    assert Near(xs, c, j, j) == if xs[j] in c then {xs[j]} else {};
    assert Near(xs, o, j, j) == if xs[j] in o then {xs[j]} else {};
  }

  lemma StepAhead(xs: seq<Key>, j: nat, size: nat, o: set<Key>, o': set<Key>, c: set<Key>, c': set<Key>, lead: int)
    requires j < |xs| && |o| <= size && Farthest(xs, j, size, o, o') && Demand(xs[j], size, c, c')
    requires Ahead(xs, j, o, c, lead)
    ensures Ahead(xs, j + 1, o', c', lead + Bit(xs[j] !in c) - Bit(xs[j] !in o))
  {
    LeadNow(xs, j, o, c, lead);
    var next, more := j + 1, lead + Bit(xs[j] !in c) - Bit(xs[j] !in o);
    forall tau: int
      ensures Within(xs, next, o', c', more, tau)
    {
      StepTau(xs, j, size, o, o', c, c', lead, tau);
    }
  }

  /** Requests not found in the cache, over the first `n` requests of a run. */
  ghost function Misses(xs: seq<Key>, caches: seq<set<Key>>, n: nat): int
    requires n <= |xs| < |caches|
  {
    if n == 0 then 0 else Misses(xs, caches, n - 1) + Bit(xs[n - 1] !in caches[n - 1])
  }

  ghost predicate FarthestRun(xs: seq<Key>, size: nat, os: seq<set<Key>>) {
    |os| == |xs| + 1 && os[0] == {} && forall j :: 0 <= j < |xs| ==>
      |os[j]| <= size && Farthest(xs, j, size, os[j], os[j + 1])
  }

  ghost predicate DemandRun(xs: seq<Key>, size: nat, cs: seq<set<Key>>) {
    |cs| == |xs| + 1 && cs[0] == {} && forall j :: 0 <= j < |xs| ==> Demand(xs[j], size, cs[j], cs[j + 1])
  }

  /** Belady: evicting the block requested farthest in the future misses least. */
  lemma {:induction false} FarthestMissesLeast(xs: seq<Key>, size: nat, os: seq<set<Key>>, cs: seq<set<Key>>, n: nat)
    requires FarthestRun(xs, size, os) && DemandRun(xs, size, cs) && n <= |xs|
    ensures Ahead(xs, n, os[n], cs[n], Misses(xs, cs, n) - Misses(xs, os, n))
    ensures Misses(xs, os, n) <= Misses(xs, cs, n)
  {
    if n == 0 {
      assert forall tau: int :: Within(xs, 0, {}, {}, 0, tau);
    } else {
      FarthestMissesLeast(xs, size, os, cs, n - 1);
      StepAhead(xs, n - 1, size, os[n - 1], os[n], cs[n - 1], cs[n], Misses(xs, cs, n - 1) - Misses(xs, os, n - 1));
    }
  }

  // ---- one-block turns ------------------------------------------------------

  /** A prompt of `size` tokens in a single block. */
  predicate OneBlock(geo: Geometry, turn: Turn, size: nat) {
    turn.prompt == size && 1 <= size <= geo.width && (turn.sharedPrefix == 0 || turn.sharedPrefix >= turn.prompt)
  }

  lemma OneBlockPath(geo: Geometry, turn: Turn, size: nat)
    requires OneBlock(geo, turn, size)
    ensures |PathOf(geo, turn)| == 1 && |ChainOf(geo, turn)| == 1 && ChainOf(geo, turn)[0].tokens == size
  {
    var p, w := PromptOf(turn), geo.width;
    NoBlocks(w);
    OneCount(size, w);
    assert ChainOf(geo, turn)[0] == p.PartAt(w, 0);
  }

  lemma OneCount(n: nat, width: Positive)
    requires 1 <= n <= width
    ensures BlockCount(n, width) == 1 && TokensAt(n, width, 0) == n
  {
    DivUnique(n + width - 1, width, 1, n - 1);
  }

  function KeyOf(geo: Geometry, turn: Turn): Key {
    var path := PathOf(geo, turn);
    if |path| == 1 then path[0] else Shared(0, 0)
  }

  function Requests(geo: Geometry, turns: seq<Turn>): (xs: seq<Key>)
    ensures |xs| == |turns| && forall i :: 0 <= i < |xs| ==> xs[i] == KeyOf(geo, turns[i])
  {
    seq(|turns|, i requires 0 <= i < |turns| => KeyOf(geo, turns[i]))
  }

  function HostKeys(es: seq<Entry>): set<Key> { KeySet(EntryKeys(es)) }

  lemma HostKeysHas(es: seq<Entry>, k: Key)
    ensures k in HostKeys(es) <==> HasKey(es, k)
  {
    assert forall i :: 0 <= i < |es| ==> EntryKeys(es)[i] == es[i].key;
  }

  lemma HostKeysCount(es: seq<Entry>)
    requires UniqueKeys(es)
    ensures |HostKeys(es)| == |es|
  {
    DistinctCount(EntryKeys(es));
  }

  /** Everything has the same size, and the tier has room for `slots` blocks. */
  ghost predicate Equal(c: Control, n: nat, slots: nat) {
    && (forall k :: k in c.ix.blocks ==> c.ix.Bytes(k) == n)
    && UniqueKeys(c.host.entries) && |c.host.entries| <= slots
    && forall i :: 0 <= i < |c.host.entries| ==> c.host.entries[i].nbytes == n && c.host.entries[i].key in c.ix.blocks
  }

  lemma {:induction false} EqualBytes(es: seq<Entry>, n: nat)
    requires forall i :: 0 <= i < |es| ==> es[i].nbytes == n
    ensures Bytes(es) == n * |es|
  {
    if es != [] { EqualBytes(es[1..], n); }
  }

  /** The policies that rank single entries and let nothing expire. */
  predicate Plain(kind: Kind) { kind.Recency? || kind.Frequency? || kind.Oracle? }

  /** What a turn's round does: nothing on a hit, fill a free slot, or replace the first of the order. */
  ghost predicate Replaces(kind: Kind, p: Probe, es: seq<Entry>, r: seq<Entry>, x: Key, n: nat, slots: nat) {
    if HasKey(es, x) then ItemsOf(r) == ItemsOf(es)
    else if |es| < slots then ItemsOf(r) == ItemsOf(es) + [Item(x, n)]
    else
      var order := StableSort(Without(es, {x}), EntryOrder(kind));
      order != [] && ItemsOf(r) == ItemsOf(Without(es, {order[0].key})) + [Item(x, n)]
  }

  lemma StoreReplaces(kind: Kind, p: Probe, sched: Schedule, host: Host, x: Key, n: nat, slots: nat)
    requires Plain(kind) && UniqueKeys(host.entries) && |host.entries| <= slots
    requires forall i :: 0 <= i < |host.entries| ==>
        host.entries[i].nbytes == n && p.view.ix.Bytes(host.entries[i].key) == n
    requires p.view.ix.Bytes(x) == n && 1 <= n && 1 <= slots && slots * n <= p.tier.capacity < slots * n + n
    ensures Replaces(kind, p, host.entries, StoreToHost(kind, p, sched, host, [x]).entries, x, n, slots)
  {
    var es := host.entries;
    if HasKey(es, x) {
      assert Candidates(p.view.ix, es, [x]) == [];
    } else {
      var incoming := [Item(x, n)];
      assert Candidates(p.view.ix, es, [x]) == incoming;
      assert Fresh(kind, p, es, [x]) == incoming;
      Round(kind, p, es, [x]);
      EqualBytes(es, n);
      if |es| < slots {
        FreeSlot(n, |es|, slots, p.tier.capacity);
        assert ItemBytes(incoming) == n && Spare(p.tier.capacity, es) == p.tier.capacity - Bytes(es);
        var ev := Eviction(Some([]), es);
        assert MakeRoom(kind, p, es, incoming) == ev;
        SettleItems(kind, p, sched, host, incoming, ev);
        assert Accepted(p, es, incoming, []) == incoming;
      } else {
        FullReplaces(kind, p, sched, host, x, n, slots);
      }
    }
  }

  lemma FreeSlot(n: nat, used: nat, slots: nat, capacity: nat)
    requires used < slots && slots * n <= capacity
    ensures n * used + n <= capacity
  {
    MulMono(n, used + 1, slots);
  }

  lemma FullReplaces(kind: Kind, p: Probe, sched: Schedule, host: Host, x: Key, n: nat, slots: nat)
    requires Plain(kind) && UniqueKeys(host.entries) && |host.entries| == slots && !HasKey(host.entries, x)
    requires forall i :: 0 <= i < |host.entries| ==>
        host.entries[i].nbytes == n && p.view.ix.Bytes(host.entries[i].key) == n
    requires 1 <= n && 1 <= slots && slots * n <= p.tier.capacity < slots * n + n
    requires Leaves(host.entries, MakeRoom(kind, p, host.entries, [Item(x, n)])) && Apart(host.entries, [Item(x, n)])
    ensures Replaces(kind, p, host.entries,
                     Settle(kind, p, sched, host, [Item(x, n)], MakeRoom(kind, p, host.entries, [Item(x, n)])).entries,
                         x, n, slots)
  {
    var es, incoming := host.entries, [Item(x, n)];
    EqualBytes(es, n);
    var needed := n - Spare(p.tier.capacity, es);
    assert ItemBytes(incoming) == n;
    assert 0 < needed <= n;
    assert KeySet(ItemKeys(incoming)) == {x};
    FirstOfOrder(kind, p, es, x, needed, n);
    var v := StableSort(Without(es, {x}), EntryOrder(kind))[0];
    var ev := MakeRoom(kind, p, es, incoming);
    assert ev == Evicted(kind, p, es, needed, {x});
    SettleItems(kind, p, sched, host, incoming, ev);
    assert ev.victims.value == [v.key];
    assert PathBytes(p.view.ix, [v.key]) == p.view.ix.Bytes(v.key) + PathBytes(p.view.ix, []);
    assert Accepted(p, es, incoming, [v.key]) == incoming;
  }

  /** One victim suffices, and it is the first of the order. */
  lemma {:induction false} FirstOfOrder(kind: Kind, p: Probe, es: seq<Entry>, x: Key, needed: int, n: nat)
    requires Plain(kind) && UniqueKeys(es) && es != [] && !HasKey(es, x) && 0 < needed <= n
    requires forall i :: 0 <= i < |es| ==> es[i].nbytes == n && p.view.ix.Bytes(es[i].key) == n
    ensures var order := StableSort(Without(es, {x}), EntryOrder(kind));
            && order != [] && order[0] in es && p.view.ix.Bytes(order[0].key) == n
            && Evicted(kind, p, es, needed, {x}) == Eviction(Some([order[0].key]), Without(es, {order[0].key}))
  {
    Absent(es, x);
    var order := StableSort(es, EntryOrder(kind));
    SortMember(es, EntryOrder(kind), order[0]);
    var i :| 0 <= i < |es| && es[i] == order[0];
    var taken := Taken(kind, order, needed);
    assert taken == [order[0]];
    assert EntryKeys(taken) == [order[0].key];
    assert KeySet([order[0].key]) == {order[0].key};
  }

  // ---- the host tier as a cache ---------------------------------------------

  lemma TouchEqual(geo: Geometry, c: Control, turn: Turn, size: nat)
    requires Sound(geo, c.ix) && OneBlock(geo, turn, size)
    requires forall k :: k in c.ix.blocks ==> c.ix.Bytes(k) == geo.cost.BlockBytes(size)
    ensures forall k :: k in Touch(geo, c.ix, turn).blocks ==>
        Touch(geo, c.ix, turn).Bytes(k) == geo.cost.BlockBytes(size)
  {
    OneBlockPath(geo, turn, size);
    var r := Touch(geo, c.ix, turn);
    forall k | k in r.blocks
      ensures r.Bytes(k) == geo.cost.BlockBytes(size)
    {
      if k in PathOf(geo, turn) {
        assert ChainOf(geo, turn)[k.pos].key == k;
        if k in c.ix.blocks { assert c.ix.Bytes(k) == geo.cost.BlockBytes(size); }
      } else {
        assert r.blocks[k].nbytes == c.ix.blocks[k].nbytes;
        assert c.ix.Bytes(k) == geo.cost.BlockBytes(size);
      }
    }
  }

  /** The set of resident blocks after a replacement. */
  lemma {:induction false} ReplacedKeys(kind: Kind, p: Probe, es: seq<Entry>, r: seq<Entry>, x: Key, n: nat, slots: nat)
    requires UniqueKeys(es) && |es| <= slots && 1 <= slots && Replaces(kind, p, es, r, x, n, slots)
    requires forall i :: 0 <= i < |es| ==> es[i].nbytes == n
    ensures UniqueKeys(r) && |r| <= slots && forall i :: 0 <= i < |r| ==> r[i].nbytes == n
    ensures var s, s' := HostKeys(es), HostKeys(r);
            if x in s then s' == s
            else if |s| < slots then s' == s + {x}
            else var v := StableSort(Without(es, {x}), EntryOrder(kind));
                 v != [] && v[0] in es && s' == s - {v[0].key} + {x}
  {
    HostKeysCount(es);
    HostKeysHas(es, x);
    if HasKey(es, x) {
      SameItems(es, r);
    } else if |es| < slots {
      AppendedItem(es, r, x, n);
    } else {
      Absent(es, x);
      var order := StableSort(es, EntryOrder(kind));
      SortMember(es, EntryOrder(kind), order[0]);
      WithoutSub(es, {order[0].key});
      WithoutKey(es, order[0]);
      AppendedItem(Without(es, {order[0].key}), r, x, n);
    }
  }

  lemma SameItems(es: seq<Entry>, r: seq<Entry>)
    requires ItemsOf(r) == ItemsOf(es)
    ensures |r| == |es| && HostKeys(r) == HostKeys(es)
    ensures forall i :: 0 <= i < |r| ==> r[i].key == es[i].key && r[i].nbytes == es[i].nbytes
  {
    assert |r| == |es|;
    forall i | 0 <= i < |r|
      ensures r[i].key == es[i].key && r[i].nbytes == es[i].nbytes
    {
      assert ItemsOf(r)[i] == ItemsOf(es)[i];
    }
    assert EntryKeys(r) == EntryKeys(es);
  }

  lemma AppendedItem(es: seq<Entry>, r: seq<Entry>, x: Key, n: nat)
    requires ItemsOf(r) == ItemsOf(es) + [Item(x, n)] && UniqueKeys(es) && !HasKey(es, x)
    ensures |r| == |es| + 1 && UniqueKeys(r) && HostKeys(r) == HostKeys(es) + {x}
    ensures forall i :: 0 <= i < |es| ==> r[i].nbytes == es[i].nbytes
    ensures r[|es|].nbytes == n
  {
    assert |ItemsOf(r)| == |r|;
    forall i | 0 <= i < |r|
      ensures if i < |es| then r[i].key == es[i].key && r[i].nbytes == es[i].nbytes
              else r[i].key == x && r[i].nbytes == n
    {
      assert ItemsOf(r)[i] == (ItemsOf(es) + [Item(x, n)])[i];
    }
    assert EntryKeys(r) == EntryKeys(es) + [x];
  }

  /** Removing the entry of one key removes that key. */
  lemma {:induction false} WithoutKey(es: seq<Entry>, e: Entry)
    requires UniqueKeys(es) && e in es
    ensures HostKeys(Without(es, {e.key})) == HostKeys(es) - {e.key}
    ensures |Without(es, {e.key})| == |es| - 1
    ensures forall i :: 0 <= i < |Without(es, {e.key})| ==> Without(es, {e.key})[i] in es
  {
    var i :| 0 <= i < |es| && es[i] == e;
    WithoutOne(es, e.key, i);
    assert EntryKeys(es[..i] + es[i + 1..]) == EntryKeys(es)[..i] + EntryKeys(es)[i + 1..];
    KeySetWithout(EntryKeys(es), i);
  }

  lemma KeySetWithout(ks: seq<Key>, i: nat)
    requires Distinct(ks) && i < |ks|
    ensures KeySet(ks[..i] + ks[i + 1..]) == KeySet(ks) - {ks[i]}
  {
    var r := ks[..i] + ks[i + 1..];
    forall k | k in ks && k != ks[i]
      ensures k in r
    {
      var j :| 0 <= j < |ks| && ks[j] == k;
      assert r[if j < i then j else j - 1] == k;
    }
    forall k | k in r
      ensures k in ks && k != ks[i]
    {
      var j :| 0 <= j < |r| && r[j] == k;
      assert ks[if j < i then j else j + 1] == k;
    }
  }

  /** What one turn does to the tier, as a set of resident blocks. */
  lemma StepEqual(cfg: SimConfig, kind: Kind, sched: Schedule, c: Control, turn: Turn, size: nat, slots: nat)
    requires Plain(kind) && Sound(cfg.Shape(), c.ix) && OneBlock(cfg.Shape(), turn, size)
    requires var n := cfg.cost.BlockBytes(size);
             1 <= slots && slots * n <= cfg.ram.capacity < slots * n + n && Equal(c, n, slots)
    ensures var r, n, p, x := StepControl(cfg, kind, sched, c, turn), cfg.cost.BlockBytes(size), ProbeOf(cfg, c, turn),
        KeyOf(cfg.Shape(), turn);
            Equal(r, n, slots) && Replaces(kind, p, c.host.entries, r.host.entries, x, n, slots)
  {
    var geo, n := cfg.Shape(), cfg.cost.BlockBytes(size);
    var p, x := ProbeOf(cfg, c, turn), KeyOf(geo, turn);
    OneBlockPath(geo, turn, size);
    assert PathOf(geo, turn) == [x];
    TouchEqual(geo, c, turn, size);
    forall i | 0 <= i < |c.host.entries|
      ensures p.view.ix.Bytes(c.host.entries[i].key) == n
    {
      assert c.host.entries[i].key in p.view.ix.blocks;
    }
    StoreReplaces(kind, p, sched, c.host, x, n, slots);
    StepItems(cfg, kind, sched, c, turn);
    var r := StepControl(cfg, kind, sched, c, turn);
    ReplacedKeys(kind, p, c.host.entries, r.host.entries, x, n, slots);
    StillIndexed(kind, c, r, x);
  }

  lemma StillIndexed(kind: Kind, c: Control, r: Control, x: Key)
    requires forall i :: 0 <= i < |c.host.entries| ==> c.host.entries[i].key in c.ix.blocks
    requires c.ix.blocks.Keys <= r.ix.blocks.Keys && x in r.ix.blocks
    requires HostKeys(r.host.entries) <= HostKeys(c.host.entries) + {x}
    ensures forall i :: 0 <= i < |r.host.entries| ==> r.host.entries[i].key in r.ix.blocks
  {
    forall i | 0 <= i < |r.host.entries|
      ensures r.host.entries[i].key in r.ix.blocks
    {
      HostKeysHas(r.host.entries, r.host.entries[i].key);
      HostKeysHas(c.host.entries, r.host.entries[i].key);
    }
  }

  /** The resident blocks before each turn, and after the last. */
  ghost function Caches(cfg: SimConfig, kind: Kind, sched: Schedule, all: seq<Turn>): (cs: seq<set<Key>>)
    ensures |cs| == |all| + 1
    ensures forall j :: 0 <= j <= |all| ==> cs[j] == HostKeys(RunControl(cfg, kind, sched, all[..j]).host.entries)
  {
    seq(|all| + 1, j requires 0 <= j <= |all| => HostKeys(RunControl(cfg, kind, sched, all[..j]).host.entries))
  }

  /** What the trace and the tier must be like: one-block turns of one size, and room for a block. */
  ghost predicate UnitTrace(cfg: SimConfig, all: seq<Turn>, size: nat) {
    && 1 <= size <= cfg.Shape().width && cfg.cost.BlockBytes(size) <= cfg.ram.capacity
    && forall i :: 0 <= i < |all| ==> OneBlock(cfg.Shape(), all[i], size)
  }

  function Slots(cfg: SimConfig, size: nat): nat
    requires 1 <= size
  {
    cfg.ram.capacity / cfg.cost.BlockBytes(size)
  }

  lemma SlotsFit(capacity: nat, n: nat)
    requires 1 <= n <= capacity
    ensures var slots := capacity / n; 1 <= slots && slots * n <= capacity < slots * n + n
  {
    var slots := capacity / n;
    assert capacity == n * slots + capacity % n;
    assert slots * n == n * slots;
    assert capacity % n < n;
  }

  /** Every run of such a trace keeps the blocks equal and within the slots. */
  lemma {:induction false} RunEqual(cfg: SimConfig, kind: Kind, sched: Schedule, turns: seq<Turn>, size: nat)
    requires Plain(kind) && UnitTrace(cfg, turns, size)
    ensures Equal(RunControl(cfg, kind, sched, turns), cfg.cost.BlockBytes(size), Slots(cfg, size))
  {
    if turns != [] {
      var n := |turns| - 1;
      SlotsFit(cfg.ram.capacity, cfg.cost.BlockBytes(size));
      RunEqual(cfg, kind, sched, turns[..n], size);
      RunHoused(cfg, kind, sched, turns[..n]);
      StepEqual(cfg, kind, sched, RunControl(cfg, kind, sched, turns[..n]), turns[n], size, Slots(cfg, size));
    }
  }

  lemma {:induction false} CacheStep(cfg: SimConfig, kind: Kind, sched: Schedule, all: seq<Turn>, size: nat, j: nat)
    requires Plain(kind) && UnitTrace(cfg, all, size) && j < |all|
    ensures var c := RunControl(cfg, kind, sched, all[..j]);
            var p, x := ProbeOf(cfg, c, all[j]), KeyOf(cfg.Shape(), all[j]);
            var r := RunControl(cfg, kind, sched, all[..j + 1]);
            && Equal(c, cfg.cost.BlockBytes(size), Slots(cfg, size)) && 1 <= Slots(cfg, size)
            && Replaces(kind, p, c.host.entries, r.host.entries, x, cfg.cost.BlockBytes(size), Slots(cfg, size))
  {
    SlotsFit(cfg.ram.capacity, cfg.cost.BlockBytes(size));
    RunEqual(cfg, kind, sched, all[..j], size);
    RunHoused(cfg, kind, sched, all[..j]);
    StepEqual(cfg, kind, sched, RunControl(cfg, kind, sched, all[..j]), all[j], size, Slots(cfg, size));
    assert all[..j + 1][..j] == all[..j];
  }

  /** LRU, LFU and the oracle all admit every request. */
  lemma PlainIsDemand(cfg: SimConfig, kind: Kind, sched: Schedule, all: seq<Turn>, size: nat)
    requires Plain(kind) && UnitTrace(cfg, all, size)
    ensures DemandRun(Requests(cfg.Shape(), all), Slots(cfg, size), Caches(cfg, kind, sched, all))
  {
    var xs, cs := Requests(cfg.Shape(), all), Caches(cfg, kind, sched, all);
    assert all[..0] == [];
    forall j | 0 <= j < |all|
      ensures Demand(xs[j], Slots(cfg, size), cs[j], cs[j + 1])
    {
      CacheStep(cfg, kind, sched, all, size, j);
      var c, r := RunControl(cfg, kind, sched, all[..j]), RunControl(cfg, kind, sched, all[..j + 1]);
      ReplacedKeys(kind, ProbeOf(cfg, c, all[j]), c.host.entries, r.host.entries, xs[j], cfg.cost.BlockBytes(size),
          Slots(cfg, size));
      HostKeysCount(r.host.entries);
    }
  }

  // ---- the oracle is farthest-first -----------------------------------------

  lemma {:induction false} AccessesOfKey(geo: Geometry, all: seq<Turn>, k: Key, size: nat)
    requires forall i :: 0 <= i < |all| ==> OneBlock(geo, all[i], size)
    ensures forall i :: 0 <= i < |all| ==> (k in PathOf(geo, all[i]) <==> Requests(geo, all)[i] == k)
  {
    forall i | 0 <= i < |all|
      ensures k in PathOf(geo, all[i]) <==> Requests(geo, all)[i] == k
    {
      OneBlockPath(geo, all[i], size);
    }
  }

  /** The time of the next use is the time of the next request. */
  lemma {:induction false} NextUseIsNextIndex(geo: Geometry, all: seq<Turn>, k: Key, j: nat, now: real, size: nat)
    requires forall i :: 0 <= i < |all| ==> OneBlock(geo, all[i], size)
    requires j <= |all| && forall i :: j <= i < |all| ==> all[i].t > now
    ensures var i := NextIndex(Requests(geo, all), j, k);
            FirstAfter(Accesses(geo, all[j..], k), now) == if i < |all| then At(all[i].t) else Never
    decreases |all| - j
  {
    if j < |all| {
      NextUseIsNextIndex(geo, all, k, j + 1, now, size);
      AccessesOfKey(geo, all, k, size);
      AccessesHead(geo, all, j, k);
      if Requests(geo, all)[j] == k {
        var rest := Accesses(geo, all[j + 1..], k);
        assert ([all[j].t] + rest)[0] == all[j].t;
      } else {
        assert [] + Accesses(geo, all[j + 1..], k) == Accesses(geo, all[j + 1..], k);
      }
    }
  }

  lemma {:induction false} NextUseIsRequest(geo: Geometry, all: seq<Turn>, sched: Schedule, size: nat, j: nat, k: Key)
    requires Increasing(all) && Foresees(geo, all, sched) && j < |all|
    requires forall i :: 0 <= i < |all| ==> OneBlock(geo, all[i], size)
    ensures var i := NextIndex(Requests(geo, all), j + 1, k);
            NextUse(sched, k, all[j].t) == if i < |all| then At(all[i].t) else Never
  {
    NextUseScheduled(geo, all, sched, k, all[j].t);
    FirstAfterFrom(geo, all, j + 1, k, all[j].t);
    NextUseIsNextIndex(geo, all, k, j + 1, all[j].t, size);
  }

  /** An entry that is not needed before another is not requested before it. */
  lemma {:induction false} LaterUseLaterRequest(cfg: SimConfig, all: seq<Turn>, sched: Schedule, size: nat, j: nat,
          v: Key, w: Key)
    requires UnitTrace(cfg, all, size) && Increasing(all) && Foresees(cfg.Shape(), all, sched) && j < |all|
    requires !NextUse(sched, v, all[j].t).Before(NextUse(sched, w, all[j].t))
    ensures var xs := Requests(cfg.Shape(), all); NextIndex(xs, j + 1, w) <= NextIndex(xs, j + 1, v)
  {
    NextUseIsRequest(cfg.Shape(), all, sched, size, j, v);
    NextUseIsRequest(cfg.Shape(), all, sched, size, j, w);
  }

  /** The first entry of the oracle's order is needed no sooner than any other. */
  lemma {:induction false} OracleFirst(geo: Geometry, sched: Schedule, es: seq<Entry>, turn: Turn, x: Key, w: Entry)
    requires Exact(geo, sched, es, turn) && PathOf(geo, turn) == [x] && !HasKey(es, x) && w in es
    ensures var v := StableSort(es, EntryOrder(Oracle))[0];
            !NextUse(sched, v.key, turn.t).Before(NextUse(sched, w.key, turn.t))
  {
    var v := StableSort(es, EntryOrder(Oracle))[0];
    FirstIsLeast(es, EntryOrder(Oracle), w);
    SortMember(es, EntryOrder(Oracle), v);
    KnowsNextUse(geo, sched, es, turn, x, v);
    KnowsNextUse(geo, sched, es, turn, x, w);
    assert EntryBefore(Oracle, v, w);
  }

  lemma KnowsNextUse(geo: Geometry, sched: Schedule, es: seq<Entry>, turn: Turn, x: Key, e: Entry)
    requires Exact(geo, sched, es, turn) && PathOf(geo, turn) == [x] && !HasKey(es, x) && e in es
    ensures e.nextUse == NextUse(sched, e.key, turn.t)
  {
    var i :| 0 <= i < |es| && es[i] == e;
    assert e.key != x;
  }

  lemma {:induction false} FirstIsLeast(es: seq<Entry>, le: (Entry, Entry) -> bool, w: Entry)
    requires w in es && le == EntryOrder(Oracle)
    ensures le(StableSort(es, le)[0], w)
  {
    EntryOrderTotal(Oracle);
    SortIsSorted(es, le);
    SortMembers(es, le);
    var order := StableSort(es, le);
    assert w in order;
    var j :| 0 <= j < |order| && order[j] == w;
    assert le(order[0], order[0]);
  }

  /** What the oracle evicts when the tier is full is requested no sooner than anything it keeps. */
  lemma {:induction false} FirstIsFarthest(cfg: SimConfig, all: seq<Turn>, sched: Schedule, size: nat, j: nat,
          es: seq<Entry>, w: Key)
    requires UnitTrace(cfg, all, size) && Increasing(all) && Foresees(cfg.Shape(), all, sched) && j < |all|
    requires Exact(cfg.Shape(), sched, es, all[j]) && !HasKey(es, KeyOf(cfg.Shape(), all[j])) && w in HostKeys(es)
    ensures var xs, v := Requests(cfg.Shape(), all), StableSort(es, EntryOrder(Oracle))[0].key;
            NextIndex(xs, j + 1, w) <= NextIndex(xs, j + 1, v)
  {
    OneBlockPath(cfg.Shape(), all[j], size);
    HostKeysHas(es, w);
    var i :| 0 <= i < |es| && es[i].key == w;
    OracleFirst(cfg.Shape(), sched, es, all[j], KeyOf(cfg.Shape(), all[j]), es[i]);
    LaterUseLaterRequest(cfg, all, sched, size, j, StableSort(es, EntryOrder(Oracle))[0].key, w);
  }

  lemma OracleIsFarthest(cfg: SimConfig, sched: Schedule, all: seq<Turn>, size: nat, j: nat)
    requires UnitTrace(cfg, all, size) && Increasing(all) && Foresees(cfg.Shape(), all, sched) && j < |all|
    ensures var os, xs, slots := Caches(cfg, Oracle, sched, all), Requests(cfg.Shape(), all), Slots(cfg, size);
            |os[j]| <= slots && Farthest(xs, j, slots, os[j], os[j + 1])
  {
    CacheStep(cfg, Oracle, sched, all, size, j);
    ForesightIsExact(cfg, Oracle, all, sched, j);
    var c, r := RunControl(cfg, Oracle, sched, all[..j]), RunControl(cfg, Oracle, sched, all[..j + 1]);
    ReplacesFarthest(cfg, all, sched, size, j, ProbeOf(cfg, c, all[j]), c.host.entries, r.host.entries);
  }

  lemma ReplacesFarthest(cfg: SimConfig, all: seq<Turn>, sched: Schedule, size: nat, j: nat, p: Probe, es: seq<Entry>,
          r: seq<Entry>)
    requires UnitTrace(cfg, all, size) && Increasing(all) && Foresees(cfg.Shape(), all, sched) && j < |all|
    requires UniqueKeys(es) && |es| <= Slots(cfg, size) && Exact(cfg.Shape(), sched, es, all[j])
    requires forall i :: 0 <= i < |es| ==> es[i].nbytes == cfg.cost.BlockBytes(size)
    requires Replaces(Oracle, p, es, r, KeyOf(cfg.Shape(), all[j]), cfg.cost.BlockBytes(size), Slots(cfg, size))
    ensures var xs, slots := Requests(cfg.Shape(), all), Slots(cfg, size);
            |HostKeys(es)| <= slots && Farthest(xs, j, slots, HostKeys(es), HostKeys(r))
  {
    var x, slots := KeyOf(cfg.Shape(), all[j]), Slots(cfg, size);
    SlotsFit(cfg.ram.capacity, cfg.cost.BlockBytes(size));
    ReplacedKeys(Oracle, p, es, r, x, cfg.cost.BlockBytes(size), slots);
    HostKeysCount(es);
    if x !in HostKeys(es) && |HostKeys(es)| >= slots {
      HostKeysHas(es, x);
      Absent(es, x);
      forall w | w in HostKeys(es) { FirstIsFarthest(cfg, all, sched, size, j, es, w); }
      var v := StableSort(es, EntryOrder(Oracle))[0];
      HostKeysHas(es, v.key);
      assert v.key in HostKeys(es) && HostKeys(r) == HostKeys(es) - {v.key} + {x};
    }
  }

  /** Host misses of a run on a one-block trace: turns whose block is not in the host tier. */
  ghost function HostMisses(cfg: SimConfig, kind: Kind, sched: Schedule, all: seq<Turn>): int {
    Misses(Requests(cfg.Shape(), all), Caches(cfg, kind, sched, all), |all|)
  }

  /** On equal-sized one-block turns at strictly increasing times, with room for at least one block, the
      oracle policy has no more host misses than any cache of the same number of blocks that admits
      every request. */
  lemma {:induction false} OracleMissesLeast(cfg: SimConfig, sched: Schedule, all: seq<Turn>, size: nat,
          cs: seq<set<Key>>)
    requires UnitTrace(cfg, all, size) && Increasing(all) && Foresees(cfg.Shape(), all, sched)
    requires DemandRun(Requests(cfg.Shape(), all), Slots(cfg, size), cs)
    ensures HostMisses(cfg, Oracle, sched, all) <= Misses(Requests(cfg.Shape(), all), cs, |all|)
  {
    var xs, os := Requests(cfg.Shape(), all), Caches(cfg, Oracle, sched, all);
    assert all[..0] == [];
    forall j | 0 <= j < |xs|
      ensures |os[j]| <= Slots(cfg, size) && Farthest(xs, j, Slots(cfg, size), os[j], os[j + 1])
    {
      OracleIsFarthest(cfg, sched, all, size, j);
    }
    FarthestMissesLeast(xs, Slots(cfg, size), os, cs, |all|);
  }

  /** In particular no more than LRU or LFU on the same trace. */
  lemma OracleBeatsLruAndLfu(cfg: SimConfig, sched: Schedule, other: Schedule, all: seq<Turn>, size: nat, kind: Kind)
    requires UnitTrace(cfg, all, size) && Increasing(all) && Foresees(cfg.Shape(), all, sched) && Plain(kind)
    ensures HostMisses(cfg, Oracle, sched, all) <= HostMisses(cfg, kind, other, all)
  {
    PlainIsDemand(cfg, kind, other, all, size);
    OracleMissesLeast(cfg, sched, all, size, Caches(cfg, kind, other, all));
  }
}
