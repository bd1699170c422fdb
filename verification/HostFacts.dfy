/** What every turn does to the host tier, whatever the policy. */
module HostFacts {
  import opened Base
  import opened Sorting
  import opened Trace
  import opened Config
  import opened Prefix
  import opened Leases
  import opened Policies
  import opened Replay

  // ---- the eviction order is a permutation of the candidates ----------------

  function Flat(gs: seq<Group>): seq<Entry> {
    if gs == [] then [] else gs[0].members + Flat(gs[1..])
  }

  lemma {:induction false} AddToFlat(gs: seq<Group>, id: ChainId, e: Entry)
    ensures multiset(Flat(AddTo(gs, id, e))) == multiset(Flat(gs)) + multiset{e}
  {
    if gs == [] {
      assert Flat([Group(id, [e])]) == [e];
    } else if gs[0].id == id {
      var r := [Group(id, gs[0].members + [e])] + gs[1..];
      assert r[1..] == gs[1..];
      assert Flat(r) == (gs[0].members + [e]) + Flat(gs[1..]);
    } else {
      AddToFlat(gs[1..], id, e);
      var r := [gs[0]] + AddTo(gs[1..], id, e);
      assert r[1..] == AddTo(gs[1..], id, e);
    }
  }

  lemma {:induction false} GroupsFlat(v: View, es: seq<Entry>)
    ensures multiset(Flat(Groups(v, es))) == multiset(es)
  {
    if es != [] {
      var n := |es| - 1;
      GroupsFlat(v, es[..n]);
      AddToFlat(Groups(v, es[..n]), ChainIdOf(v, es[n].key), es[n]);
      assert es == es[..n] + [es[n]];
    }
  }

  lemma {:induction false} InsertFlat(g: Group, gs: seq<Group>, le: (Group, Group) -> bool)
    ensures multiset(Flat(InsertSorted(g, gs, le))) == multiset(g.members) + multiset(Flat(gs))
  {
    if gs == [] || le(g, gs[0]) {
      assert ([g] + gs)[1..] == gs;
    } else {
      InsertFlat(g, gs[1..], le);
      var r := InsertSorted(g, gs[1..], le);
      assert ([gs[0]] + r)[1..] == r;
    }
  }

  lemma {:induction false} SortFlat(gs: seq<Group>, le: (Group, Group) -> bool)
    ensures multiset(Flat(StableSort(gs, le))) == multiset(Flat(gs))
  {
    if gs != [] {
      SortFlat(gs[1..], le);
      InsertFlat(gs[0], StableSort(gs[1..], le), le);
    }
  }

  lemma {:induction false} LeafFirstFlat(v: View, gs: seq<Group>)
    ensures multiset(LeafFirst(v, gs)) == multiset(Flat(gs))
  {
    if gs != [] {
      LeafFirstFlat(v, gs[1..]);
      SortMultiset(gs[0].members, DepthOrder(v));
    }
  }

  lemma OrderIsPermutation(kind: Kind, p: Probe, es: seq<Entry>)
    ensures multiset(EvictionOrder(kind, p, es)) == multiset(es)
  {
    if kind.Adaptive? {
      GroupsFlat(p.view, es);
      SortFlat(Groups(p.view, es), GroupOrder(kind, p));
      LeafFirstFlat(p.view, StableSort(Groups(p.view, es), GroupOrder(kind, p)));
    } else {
      SortMultiset(es, EntryOrder(kind));
    }
  }

  lemma {:induction false} UniqueCount(es: seq<Entry>, e: Entry)
    requires UniqueKeys(es)
    ensures multiset(es)[e] <= 1
  {
    if es != [] {
      assert es == [es[0]] + es[1..];
      UniqueCount(es[1..], e);
      forall j | 0 <= j < |es[1..]|
        ensures es[1..][j] != es[0]
      {
        assert es[0].key != es[j + 1].key;
      }
    }
  }

  lemma PermutationUnique(es: seq<Entry>, r: seq<Entry>)
    requires UniqueKeys(es) && multiset(r) == multiset(es)
    ensures UniqueKeys(r)
    ensures forall e :: e in r <==> e in es
  {
    assert forall e :: (e in r <==> e in multiset(r)) && (e in es <==> e in multiset(es));
    forall i, j | 0 <= i < j < |r|
      ensures r[i].key != r[j].key
    {
      TwoCopies(r, i, j);
      UniqueCount(es, r[i]);
      assert r[i] in es && r[j] in es;
    }
  }

  lemma TwoCopies(r: seq<Entry>, i: nat, j: nat)
    requires i < j < |r|
    ensures r[i] == r[j] ==> multiset(r)[r[i]] >= 2
  {
    assert r == r[..i] + [r[i]] + r[i + 1..j] + [r[j]] + r[j + 1..];
  }

  lemma {:induction false} CutoffPrefix(order: seq<Entry>, needed: int)
    ensures Cutoff(order, needed) <= order
  {
    if order != [] && needed > 0 { CutoffPrefix(order[1..], needed - order[0].nbytes); }
  }

  lemma TakenPrefix(kind: Kind, order: seq<Entry>, needed: int)
    ensures Taken(kind, order, needed) <= order
  {
    CutoffPrefix(order, needed);
    if order != [] { CutoffPrefix(order[1..], needed - order[0].nbytes); }
  }

  /** The entries a policy gives up: distinct residents outside the protected set. */
  function Victims(kind: Kind, p: Probe, es: seq<Entry>, needed: int, protected: set<Key>): seq<Entry> {
    Taken(kind, EvictionOrder(kind, p, Without(Current(kind, p, es), protected)), needed)
  }

  lemma VictimsAreResidents(kind: Kind, p: Probe, es: seq<Entry>, needed: int, protected: set<Key>)
    requires UniqueKeys(es)
    ensures UniqueKeys(Current(kind, p, es)) && forall e :: e in Current(kind, p, es) ==> e in es
    ensures var vs := Victims(kind, p, es, needed, protected);
            UniqueKeys(vs) && forall v :: v in vs ==> v in Current(kind, p, es) && v.key !in protected
  {
    UnexpiredSub(es, p.view.now);
    var current := Current(kind, p, es);
    WithoutSub(current, protected);
    var candidates := Without(current, protected);
    OrderIsPermutation(kind, p, candidates);
    var order := EvictionOrder(kind, p, candidates);
    PermutationUnique(candidates, order);
    TakenPrefix(kind, order, needed);
  }

  // ---- bytes ----------------------------------------------------------------

  lemma {:induction false} BytesWithoutOne(es: seq<Entry>, e: Entry)
    requires UniqueKeys(es) && e in es
    ensures Bytes(Without(es, {e.key})) == Bytes(es) - e.nbytes
  {
    if es[0].key == e.key {
      var i :| 0 <= i < |es| && es[i] == e;
      assert i == 0;
      forall j | 0 <= j < |es[1..]|
        ensures es[1..][j].key != e.key
      {
        assert es[0].key != es[j + 1].key;
      }
      Absent(es[1..], e.key);
    } else {
      BytesWithoutOne(es[1..], e);
    }
  }

  /** Removing distinct residents takes off exactly their bytes. */
  lemma {:induction false} BytesWithoutAll(es: seq<Entry>, vs: seq<Entry>)
    requires UniqueKeys(es) && UniqueKeys(vs) && forall v :: v in vs ==> v in es
    ensures Bytes(Without(es, KeySet(EntryKeys(vs)))) + Bytes(vs) == Bytes(es)
    decreases |vs|
  {
    EntryKeysCons(vs);
    if vs == [] {
      WithoutNone(es);
    } else {
      assert vs[0] in es;
      OthersRemain(es, vs);
      BytesWithoutAll(Without(es, {vs[0].key}), vs[1..]);
      BytesWithoutOne(es, vs[0]);
      WithoutUnion(es, {vs[0].key}, KeySet(EntryKeys(vs[1..])));
    }
  }

  lemma EntryKeysCons(vs: seq<Entry>)
    ensures KeySet(EntryKeys(vs)) == if vs == [] then {} else {vs[0].key} + KeySet(EntryKeys(vs[1..]))
  {
    if vs != [] { assert EntryKeys(vs) == [vs[0].key] + EntryKeys(vs[1..]); }
  }

  lemma {:induction false} OthersRemain(es: seq<Entry>, vs: seq<Entry>)
    requires UniqueKeys(es) && UniqueKeys(vs) && vs != [] && forall v :: v in vs ==> v in es
    ensures UniqueKeys(Without(es, {vs[0].key}))
    ensures forall u :: u in vs[1..] ==> u in Without(es, {vs[0].key})
  {
    WithoutSub(es, {vs[0].key});
    forall u | u in vs[1..]
      ensures u in Without(es, {vs[0].key})
    {
      var j :| 0 <= j < |vs[1..]| && vs[1..][j] == u;
      assert vs[0].key != vs[j + 1].key && vs[j + 1] in vs;
    }
  }

  lemma {:induction false} BytesUnexpired(es: seq<Entry>, now: real)
    ensures Bytes(Unexpired(es, now)) <= Bytes(es)
  {
    if es != [] { BytesUnexpired(es[1..], now); }
  }

  lemma {:induction false} BytesOfItems(es: seq<Entry>)
    ensures ItemBytes(ItemsOf(es)) == Bytes(es)
  {
    if es != [] {
      BytesOfItems(es[1..]);
      assert ItemsOf(es)[1..] == ItemsOf(es[1..]);
    }
  }

  // ---- inserting and touching -----------------------------------------------

  lemma {:induction false} TouchItems(kind: Kind, p: Probe, es: seq<Entry>, keys: seq<Key>)
    ensures ItemsOf(TouchKeys(kind, p, es, keys)) == ItemsOf(es)
    decreases |keys|
  {
    if keys != [] {
      TouchItems(kind, p, TouchKey(kind, p, es, keys[0]), keys[1..]);
      assert ItemsOf(TouchKey(kind, p, es, keys[0])) == ItemsOf(es);
    }
  }

  lemma RefreshItems(sched: Schedule, now: real, es: seq<Entry>, keys: seq<Key>)
    ensures ItemsOf(RefreshAll(sched, now, es, keys)) == ItemsOf(es)
  {
  }

  lemma InsertOneItems(kind: Kind, p: Probe, sched: Schedule, es: seq<Entry>, item: Item)
    requires !HasKey(es, item.key)
    ensures ItemsOf(InsertOne(kind, p, sched, es, item)) == ItemsOf(es) + [item]
  {
    var r := InsertItem(kind, p, es, item);
    assert ItemsOf(r) == ItemsOf(es) + [item];
    assert ItemsOf(SetNextUse(r, item.key, NextUse(sched, item.key, p.view.now))) == ItemsOf(r);
  }

  ghost predicate Apart(es: seq<Entry>, items: seq<Item>) {
    && (forall i, j :: 0 <= i < j < |items| ==> items[i].key != items[j].key)
    && forall i :: 0 <= i < |items| ==> !HasKey(es, items[i].key)
  }

  lemma {:induction false} InsertAllItems(kind: Kind, p: Probe, sched: Schedule, es: seq<Entry>, items: seq<Item>)
    requires Apart(es, items)
    ensures ItemsOf(InsertAll(kind, p, sched, es, items)) == ItemsOf(es) + items
    decreases |items|
  {
    if items == [] {
      assert ItemsOf(es) + items == ItemsOf(es);
    } else {
      var r := InsertOne(kind, p, sched, es, items[0]);
      InsertOneItems(kind, p, sched, es, items[0]);
      ItemsApart(es, r, items);
      InsertAllItems(kind, p, sched, r, items[1..]);
      assert (ItemsOf(es) + [items[0]]) + items[1..] == ItemsOf(es) + items;
    }
  }

  lemma ItemsApart(es: seq<Entry>, r: seq<Entry>, items: seq<Item>)
    requires items != [] && Apart(es, items) && ItemsOf(r) == ItemsOf(es) + [items[0]]
    ensures Apart(r, items[1..])
  {
    forall i | 0 <= i < |items[1..]|
      ensures !HasKey(r, items[1..][i].key)
    {
      var k := items[i + 1].key;
      assert !HasKey(es, k) && items[0].key != k;
      forall j | 0 <= j < |r|
        ensures r[j].key != k
      {
        assert ItemsOf(r)[j] == (ItemsOf(es) + [items[0]])[j];
        if j < |es| { assert es[j].key != k; }
      }
    }
  }

  /** The candidates of a turn: absent from the tier, distinct, with their bytes in the index. */
  lemma {:induction false} CandidatesApart(ix: IndexState, es: seq<Entry>, keys: seq<Key>)
    requires Distinct(keys)
    ensures Apart(es, Candidates(ix, es, keys))
    ensures forall x :: x in Candidates(ix, es, keys) ==> x.key in keys && x.nbytes == ix.Bytes(x.key)
  {
    if keys != [] {
      CandidatesApart(ix, es, keys[1..]);
      var r := Candidates(ix, es, keys[1..]);
      forall i | 0 <= i < |r|
        ensures r[i].key != keys[0]
      {
        assert r[i] in r;
      }
    }
  }

  lemma {:induction false} FitPrefix(items: seq<Item>, room: int)
    ensures Fit(items, room) <= items
    ensures room >= 0 ==> ItemBytes(Fit(items, room)) <= room
    ensures ItemBytes(items) <= room ==> Fit(items, room) == items
  {
    if items != [] && items[0].nbytes <= room {
      FitPrefix(items[1..], room - items[0].nbytes);
      assert Fit(items, room)[1..] == Fit(items[1..], room - items[0].nbytes);
    }
  }

  lemma {:induction false} AcceptsAll(p: Probe, es: seq<Entry>, incoming: seq<Item>)
    requires ItemBytes(incoming) <= Spare(p.tier.capacity, es)
    ensures Accepted(p, es, incoming, []) == incoming
  {
    FitPrefix(incoming, Spare(p.tier.capacity, es) + PathBytes(p.view.ix, []));
  }

  lemma ApartSub(es: seq<Entry>, rest: seq<Entry>, items: seq<Item>, taken: seq<Item>)
    requires Apart(es, items) && taken <= items && forall e :: e in rest ==> e in es
    ensures Apart(rest, taken)
  {
    forall i | 0 <= i < |taken|
      ensures !HasKey(rest, taken[i].key)
    {
      assert !HasKey(es, items[i].key);
      forall j | 0 <= j < |rest|
        ensures rest[j].key != taken[i].key
      {
        assert rest[j] in es;
        var l :| 0 <= l < |es| && es[l] == rest[j];
      }
    }
  }

  lemma {:induction false} NoneProtected(es: seq<Entry>, protected: set<Key>)
    requires forall e :: e in es ==> e.key !in protected
    ensures Without(es, protected) == es
  {
    if es != [] {
      assert es[0] in es && forall e :: e in es[1..] ==> e in es;
      NoneProtected(es[1..], protected);
    }
  }

  /** Fresh blocks are not resident, so a round protects no resident. */
  lemma FreshUnprotected(kind: Kind, p: Probe, es: seq<Entry>, incoming: seq<Item>)
    requires Apart(es, incoming)
    ensures forall e :: e in es ==> e.key !in KeySet(ItemKeys(incoming))
    ensures Without(Current(kind, p, es), KeySet(ItemKeys(incoming))) == Current(kind, p, es)
  {
    forall e | e in es
      ensures e.key !in KeySet(ItemKeys(incoming))
    {
      var j :| 0 <= j < |es| && es[j] == e;
      forall i | 0 <= i < |incoming|
        ensures ItemKeys(incoming)[i] != e.key
      {
        assert !HasKey(es, incoming[i].key);
      }
    }
    UnexpiredSub(es, p.view.now);
    NoneProtected(Current(kind, p, es), KeySet(ItemKeys(incoming)));
  }

  // ---- a whole turn ---------------------------------------------------------

  /** No entry is empty or larger than its block in the index. */
  ghost predicate Housed(ix: IndexState, es: seq<Entry>) {
    && UniqueKeys(es)
    && forall i :: 0 <= i < |es| ==> es[i].key in ix.blocks && 1 <= es[i].nbytes <= ix.Bytes(es[i].key)
  }

  lemma HousedGrows(a: IndexState, b: IndexState, es: seq<Entry>)
    requires Housed(a, es) && Grown(a, b)
    ensures Housed(b, es)
  {
  }

  /** `Housed` depends on keys and bytes only. */
  lemma HousedItems(ix: IndexState, es: seq<Entry>, r: seq<Entry>)
    requires Housed(ix, es) && ItemsOf(r) == ItemsOf(es)
    ensures Housed(ix, r)
  {
    assert |r| == |es|;
    forall i | 0 <= i < |r|
      ensures r[i].key == es[i].key && r[i].nbytes == es[i].nbytes
    {
      assert ItemsOf(r)[i] == ItemsOf(es)[i];
    }
  }

  lemma HousedAppend(ix: IndexState, es: seq<Entry>, r: seq<Entry>, items: seq<Item>)
    requires Housed(ix, es) && Apart(es, items) && ItemsOf(r) == ItemsOf(es) + items
    requires forall x :: x in items ==> x.key in ix.blocks && 1 <= x.nbytes <= ix.Bytes(x.key)
    ensures Housed(ix, r)
  {
    assert |r| == |es| + |items|;
    forall i | 0 <= i < |r|
      ensures if i < |es| then r[i].key == es[i].key && r[i].nbytes == es[i].nbytes
              else Item(r[i].key, r[i].nbytes) == items[i - |es|]
    {
      assert ItemsOf(r)[i] == (ItemsOf(es) + items)[i];
    }
    forall i, j | 0 <= i < j < |r|
      ensures r[i].key != r[j].key
    {
      if i < |es| <= j { assert !HasKey(es, items[j - |es|].key); }
    }
  }

  lemma HousedSub(ix: IndexState, es: seq<Entry>, rest: seq<Entry>)
    requires Housed(ix, es) && UniqueKeys(rest) && forall e :: e in rest ==> e in es
    ensures Housed(ix, rest)
  {
    forall i | 0 <= i < |rest|
      ensures rest[i].key in ix.blocks && 1 <= rest[i].nbytes <= ix.Bytes(rest[i].key)
    {
      assert rest[i] in es;
      var j :| 0 <= j < |es| && es[j] == rest[i];
    }
  }

  /** What an eviction round may leave: some of the entries it started from. */
  ghost predicate Leaves(es: seq<Entry>, ev: Eviction) {
    UniqueKeys(ev.rest) && forall e :: e in ev.rest ==> e in es
  }

  /** The fresh blocks of a turn, and what the eviction round leaves. */
  lemma Round(kind: Kind, p: Probe, es: seq<Entry>, keys: seq<Key>)
    requires UniqueKeys(es) && Distinct(keys)
    ensures var incoming := Fresh(kind, p, es, keys);
            && Apart(es, incoming) && Leaves(es, MakeRoom(kind, p, es, incoming))
            && forall x :: x in incoming ==> x.key in keys && x.nbytes == p.view.ix.Bytes(x.key)
  {
    CandidatesApart(p.view.ix, es, keys);
    RestIsSub(kind, p, es, Fresh(kind, p, es, keys));
  }

  /** Keys and bytes after the round: what was left, and the blocks that were accepted. */
  lemma SettleItems(kind: Kind, p: Probe, sched: Schedule, host: Host, incoming: seq<Item>, ev: Eviction)
    requires Apart(host.entries, incoming) && Leaves(host.entries, ev) && ev.victims.Some?
    ensures var taken := Accepted(p, host.entries, incoming, ev.victims.value);
            && taken <= incoming && Apart(ev.rest, taken)
            && ItemsOf(Settle(kind, p, sched, host, incoming, ev).entries) == ItemsOf(ev.rest) + taken
  {
    var taken := Accepted(p, host.entries, incoming, ev.victims.value);
    FitPrefix(incoming, Spare(p.tier.capacity, host.entries) + PathBytes(p.view.ix, ev.victims.value));
    ApartSub(host.entries, ev.rest, incoming, taken);
    InsertAllItems(kind, p, sched, ev.rest, taken);
  }

  lemma RestIsSub(kind: Kind, p: Probe, es: seq<Entry>, incoming: seq<Item>)
    requires UniqueKeys(es)
    ensures Leaves(es, MakeRoom(kind, p, es, incoming))
  {
    UnexpiredSub(es, p.view.now);
    var current := Current(kind, p, es);
    var needed := ItemBytes(incoming) - Spare(p.tier.capacity, es);
    var vs := Victims(kind, p, es, needed, KeySet(ItemKeys(incoming)));
    WithoutSub(current, KeySet(EntryKeys(vs)));
  }

  /** Touching and refreshing after the store change neither keys nor bytes. */
  lemma StepItems(cfg: SimConfig, kind: Kind, sched: Schedule, c: Control, turn: Turn)
    ensures var p, keys := ProbeOf(cfg, c, turn), PathOf(cfg.Shape(), turn);
            ItemsOf(StepControl(cfg, kind, sched, c, turn).host.entries)
              == ItemsOf(StoreToHost(kind, p, sched, c.host, keys).entries)
  {
    var p, keys := ProbeOf(cfg, c, turn), PathOf(cfg.Shape(), turn);
    var es := StoreToHost(kind, p, sched, c.host, keys).entries;
    TouchItems(kind, p, es, keys);
    RefreshItems(sched, turn.t, TouchKeys(kind, p, es, keys), keys);
  }

  lemma StepHoused(cfg: SimConfig, kind: Kind, sched: Schedule, c: Control, turn: Turn)
    requires Sound(cfg.Shape(), c.ix) && Housed(c.ix, c.host.entries)
    ensures var r := StepControl(cfg, kind, sched, c, turn);
            Sound(cfg.Shape(), r.ix) && Housed(r.ix, r.host.entries)
  {
    var geo := cfg.Shape();
    var p, keys := ProbeOf(cfg, c, turn), PathOf(geo, turn);
    TouchSound(geo, c.ix, turn);
    TouchGrows(geo, c.ix, turn);
    HousedGrows(c.ix, p.view.ix, c.host.entries);
    forall k | k in keys
      ensures k in p.view.ix.blocks && 1 <= p.view.ix.Bytes(k)
    {
      assert BlockSized(geo, k, p.view.ix.blocks[k]);
    }
    StoreHoused(kind, p, sched, c.host, keys);
    StepItems(cfg, kind, sched, c, turn);
    HousedItems(p.view.ix, StoreToHost(kind, p, sched, c.host, keys).entries,
        StepControl(cfg, kind, sched, c, turn).host.entries);
  }

  lemma StoreHoused(kind: Kind, p: Probe, sched: Schedule, host: Host, keys: seq<Key>)
    requires Housed(p.view.ix, host.entries) && Distinct(keys)
    requires forall k :: k in keys ==> k in p.view.ix.blocks && 1 <= p.view.ix.Bytes(k)
    ensures Housed(p.view.ix, StoreToHost(kind, p, sched, host, keys).entries)
  {
    Round(kind, p, host.entries, keys);
    var incoming := Fresh(kind, p, host.entries, keys);
    if incoming != [] {
      SettleHoused(kind, p, sched, host, incoming, MakeRoom(kind, p, host.entries, incoming));
    }
  }

  lemma SettleHoused(kind: Kind, p: Probe, sched: Schedule, host: Host, incoming: seq<Item>, ev: Eviction)
    requires Housed(p.view.ix, host.entries) && Apart(host.entries, incoming) && Leaves(host.entries, ev)
    requires forall x :: x in incoming ==> x.key in p.view.ix.blocks && 1 <= x.nbytes == p.view.ix.Bytes(x.key)
    ensures Housed(p.view.ix, Settle(kind, p, sched, host, incoming, ev).entries)
  {
    HousedSub(p.view.ix, host.entries, ev.rest);
    if ev.victims.Some? {
      SettleItems(kind, p, sched, host, incoming, ev);
      var taken := Accepted(p, host.entries, incoming, ev.victims.value);
      HousedAppend(p.view.ix, ev.rest, Settle(kind, p, sched, host, incoming, ev).entries, taken);
    }
  }

  /** In every run the index is sound and the host tier holds only blocks of the index, once each, at
      no more than their bytes there. */
  lemma {:induction false} RunHoused(cfg: SimConfig, kind: Kind, sched: Schedule, turns: seq<Turn>)
    ensures var c := RunControl(cfg, kind, sched, turns);
            Sound(cfg.Shape(), c.ix) && Housed(c.ix, c.host.entries)
  {
    if turns != [] {
      var n := |turns| - 1;
      RunHoused(cfg, kind, sched, turns[..n]);
      StepHoused(cfg, kind, sched, RunControl(cfg, kind, sched, turns[..n]), turns[n]);
    }
  }
}
