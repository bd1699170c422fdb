/** Exactly when a turn leaves a session with a resident prefix of its path, under every policy.

    The condition looks at the state before the turn only: which blocks the round will reach is told by
    the bytes ahead of them in the eviction order, and what will be stored by the bytes there are. */
module PrefixKept {
  import opened Base
  import opened Sorting
  import opened Trace
  import opened Config
  import opened Prefix
  import opened Leases
  import opened Policies
  import opened Replay
  import opened HostFacts
  import opened Evictions
  import opened Bounds
  import opened Capacity
  import opened ChainEviction

  // ---- one turn, taken apart ------------------------------------------------

  function FreshBlocks(cfg: SimConfig, kind: Kind, c: Control, turn: Turn): seq<Item> {
    Fresh(kind, ProbeOf(cfg, c, turn), c.host.entries, PathOf(cfg.Shape(), turn))
  }

  function Needed(cfg: SimConfig, kind: Kind, c: Control, turn: Turn): int {
    ItemBytes(FreshBlocks(cfg, kind, c, turn)) - Spare(cfg.ram.capacity, c.host.entries)
  }

  /** The eviction round of the turn, if it has one. */
  function RoundOf(cfg: SimConfig, kind: Kind, c: Control, turn: Turn): Eviction {
    if FreshBlocks(cfg, kind, c, turn) == [] then Eviction(Some([]), c.host.entries)
    else MakeRoom(kind, ProbeOf(cfg, c, turn), c.host.entries, FreshBlocks(cfg, kind, c, turn))
  }

  /** The blocks given up in it. */
  function GivenUp(cfg: SimConfig, kind: Kind, c: Control, turn: Turn): seq<Key> {
    if RoundOf(cfg, kind, c, turn).victims.Some? then RoundOf(cfg, kind, c, turn).victims.value else []
  }

  /** The blocks stored after it. */
  function StoredBlocks(cfg: SimConfig, kind: Kind, c: Control, turn: Turn): seq<Item> {
    if RoundOf(cfg, kind, c, turn).victims.None? then []
    else Accepted(ProbeOf(cfg, c, turn), c.host.entries, FreshBlocks(cfg, kind, c, turn), GivenUp(cfg, kind, c, turn))
  }

  lemma HasKeyItems(es: seq<Entry>, rest: seq<Entry>, items: seq<Item>, k: Key)
    requires ItemsOf(es) == ItemsOf(rest) + items
    ensures HasKey(es, k) <==> HasKey(rest, k) || k in ItemKeys(items)
  {
    assert |es| == |ItemsOf(es)| == |rest| + |items|;
    forall i | 0 <= i < |es|
      ensures es[i].key == if i < |rest| then rest[i].key else ItemKeys(items)[i - |rest|]
    {
      assert ItemsOf(es)[i] == (ItemsOf(rest) + items)[i];
    }
    if HasKey(rest, k) {
      var i :| 0 <= i < |rest| && rest[i].key == k;
      assert es[i].key == k;
    }
    if k in ItemKeys(items) {
      var i :| 0 <= i < |items| && ItemKeys(items)[i] == k;
      assert es[|rest| + i].key == k;
    }
  }

  /** After the turn the tier holds what the round left and what was stored. */
  lemma TurnHolds(cfg: SimConfig, kind: Kind, sched: Schedule, c: Control, turn: Turn)
    requires UniqueKeys(c.host.entries)
    ensures HoldsBoth(StepControl(cfg, kind, sched, c, turn).host.entries, RoundOf(cfg, kind, c, turn).rest,
                      StoredBlocks(cfg, kind, c, turn))
  {
    var r, rest, items := StepControl(cfg, kind, sched, c, turn).host.entries, RoundOf(cfg, kind, c, turn).rest,
      StoredBlocks(cfg, kind, c, turn);
    TurnItems(cfg, kind, sched, c, turn);
    forall k
      ensures HasKey(r, k) <==> HasKey(rest, k) || k in ItemKeys(items)
    {
      HasKeyItems(r, rest, items, k);
    }
  }

  ghost predicate HoldsBoth(es: seq<Entry>, rest: seq<Entry>, items: seq<Item>) {
    forall k :: HasKey(es, k) <==> HasKey(rest, k) || k in ItemKeys(items)
  }

  lemma TurnItems(cfg: SimConfig, kind: Kind, sched: Schedule, c: Control, turn: Turn)
    requires UniqueKeys(c.host.entries)
    ensures ItemsOf(StepControl(cfg, kind, sched, c, turn).host.entries)
         == ItemsOf(RoundOf(cfg, kind, c, turn).rest) + StoredBlocks(cfg, kind, c, turn)
    ensures StoredBlocks(cfg, kind, c, turn) <= FreshBlocks(cfg, kind, c, turn)
  {
    var p, keys := ProbeOf(cfg, c, turn), PathOf(cfg.Shape(), turn);
    var incoming, ev := FreshBlocks(cfg, kind, c, turn), RoundOf(cfg, kind, c, turn);
    StepItems(cfg, kind, sched, c, turn);
    if incoming == [] {
      assert ItemsOf(c.host.entries) + [] == ItemsOf(c.host.entries);
    } else {
      Round(kind, p, c.host.entries, keys);
      if ev.victims.Some? {
        SettleItems(kind, p, sched, c.host, incoming, ev);
      } else {
        assert ItemsOf(ev.rest) + [] == ItemsOf(ev.rest);
      }
    }
  }

  // ---- resident prefixes ----------------------------------------------------

  /** The residents of a path form a prefix of it. */
  ghost predicate PrefixHeld(es: seq<Entry>, path: seq<Key>) {
    forall i, j :: 0 <= i < j < |path| && HasKey(es, path[j]) ==> HasKey(es, path[i])
  }

  lemma {:induction false} HeldUpTo(es: seq<Entry>, path: seq<Key>, m: nat) returns (n: nat)
    requires PrefixHeld(es, path) && m <= |path| && forall i :: 0 <= i < m ==> HasKey(es, path[i])
    ensures ResidentPrefix(es, path, n)
    decreases |path| - m
  {
    if m < |path| && HasKey(es, path[m]) {
      n := HeldUpTo(es, path, m + 1);
    } else {
      n := m;
      NoneAbove(es, path, m);
    }
  }

  lemma NoneAbove(es: seq<Entry>, path: seq<Key>, m: nat)
    requires PrefixHeld(es, path) && (m < |path| ==> !HasKey(es, path[m]))
    ensures forall i :: m <= i < |path| ==> !HasKey(es, path[i])
  {
  }

  lemma PrefixIsHeld(es: seq<Entry>, path: seq<Key>, n: nat)
    requires ResidentPrefix(es, path, n)
    ensures PrefixHeld(es, path)
  {
  }

  /** When the residents of the path are its first `n` blocks, the missing ones are the others, in order. */
  lemma {:induction false} MissingTail(ix: IndexState, es: seq<Entry>, keys: seq<Key>, n: nat)
    requires ResidentPrefix(es, keys, n)
    ensures Candidates(ix, es, keys) == PathItems(ix, keys)[n..]
  {
    if keys != [] {
      ShiftPrefix(es, keys, n);
      MissingTail(ix, es, keys[1..], if n > 0 then n - 1 else 0);
      PathItemsTail(ix, keys);
    }
  }

  lemma PathItemsTail(ix: IndexState, keys: seq<Key>)
    requires keys != []
    ensures PathItems(ix, keys) == [Item(keys[0], ix.Bytes(keys[0]))] + PathItems(ix, keys[1..])
  {
  }

  lemma ShiftPrefix(es: seq<Entry>, keys: seq<Key>, n: nat)
    requires keys != [] && ResidentPrefix(es, keys, n)
    ensures ResidentPrefix(es, keys[1..], if n > 0 then n - 1 else 0) && (HasKey(es, keys[0]) <==> n > 0)
  {
    forall i | 0 <= i < |keys[1..]|
      ensures HasKey(es, keys[1..][i]) <==> i < if n > 0 then n - 1 else 0
    {
      assert keys[1..][i] == keys[i + 1];
    }
  }

  lemma ItemKeysOf(x: Item, items: seq<Item>)
    ensures ItemKeys([x] + items) == [x.key] + ItemKeys(items)
  {
  }

  /** Two sessions share an initial part of their paths only. */
  lemma CommonPart(path: seq<Key>, s: Session, other: seq<Key>, t: Session, i: nat, j: nat)
    requires ChainLike(path, s) && ChainLike(other, t) && s != t && i < j < |path| && path[j] in other
    ensures path[i] in other && path[i].Shared? && path[i].pos < path[j].pos
  {
    var l :| 0 <= l < |other| && other[l] == path[j];
    assert l == j && path[j].Shared?;
    assert path[i] == Shared(path[j].role, i) && other[i] == Shared(path[j].role, i);
  }

  ghost predicate Ascending(keys: seq<Key>) { forall i, j :: 0 <= i < j < |keys| ==> keys[i].pos < keys[j].pos }

  lemma {:induction false} CandidatesAscend(ix: IndexState, es: seq<Entry>, keys: seq<Key>)
    requires Ascending(keys)
    ensures Ascending(ItemKeys(Candidates(ix, es, keys)))
    ensures forall k :: k in ItemKeys(Candidates(ix, es, keys)) <==> k in keys && !HasKey(es, k)
  {
    if keys != [] {
      CandidatesAscend(ix, es, keys[1..]);
      var rest := ItemKeys(Candidates(ix, es, keys[1..]));
      assert forall k :: k in keys <==> k == keys[0] || k in keys[1..];
      if !HasKey(es, keys[0]) {
        ItemKeysOf(Item(keys[0], ix.Bytes(keys[0])), Candidates(ix, es, keys[1..]));
        Prepended(keys, rest);
      }
    }
  }

  lemma Prepended(keys: seq<Key>, rest: seq<Key>)
    requires keys != [] && Ascending(keys) && Ascending(rest) && forall k :: k in rest ==> k in keys[1..]
    ensures Ascending([keys[0]] + rest)
  {
    forall j | 0 <= j < |rest|
      ensures keys[0].pos < rest[j].pos
    {
      assert rest[j] in keys[1..];
      var l :| 0 <= l < |keys[1..]| && keys[1..][l] == rest[j];
      assert keys[l + 1] == rest[j];
    }
  }

  /** What is stored is stored from the start. */
  lemma EarlierStored(taken: seq<Item>, items: seq<Item>, x: Key, y: Key)
    requires taken <= items && Ascending(ItemKeys(items)) && x in ItemKeys(items) && y in ItemKeys(taken)
    requires x.pos < y.pos
    ensures x in ItemKeys(taken)
  {
    var a :| 0 <= a < |items| && ItemKeys(items)[a] == x;
    var b :| 0 <= b < |taken| && ItemKeys(taken)[b] == y;
    assert ItemKeys(items)[b] == y;
    assert a < b;
    assert ItemKeys(taken)[a] == x;
  }

  lemma FromStart(taken: seq<Item>, incoming: seq<Item>, es: seq<Entry>, keys: seq<Key>, x: Key, y: Key)
    requires taken <= incoming && MissingOf(incoming, es, keys) && y in ItemKeys(taken) && x.pos < y.pos
    ensures y in keys && (x in keys && !HasKey(es, x) ==> x in ItemKeys(taken))
  {
    var b :| 0 <= b < |taken| && ItemKeys(taken)[b] == y;
    assert ItemKeys(incoming)[b] == y;
    if x in keys && !HasKey(es, x) { EarlierStored(taken, incoming, x, y); }
  }

  /** The missing blocks of the path, in order, or none of them. */
  ghost predicate MissingOf(incoming: seq<Item>, es: seq<Entry>, keys: seq<Key>) {
    && Ascending(ItemKeys(incoming)) && (forall k :: k in ItemKeys(incoming) ==> k in keys)
    && (incoming != [] ==> forall k :: k in keys && !HasKey(es, k) ==> k in ItemKeys(incoming))
  }

  lemma StoredFromStart(cfg: SimConfig, kind: Kind, sched: Schedule, c: Control, turn: Turn, x: Key, y: Key)
    requires UniqueKeys(c.host.entries) && y in ItemKeys(StoredBlocks(cfg, kind, c, turn)) && x.pos < y.pos
    ensures y in PathOf(cfg.Shape(), turn)
    ensures x in PathOf(cfg.Shape(), turn) && !HasKey(c.host.entries, x) ==>
              x in ItemKeys(StoredBlocks(cfg, kind, c, turn))
  {
    TurnItems(cfg, kind, sched, c, turn);
    FreshAscend(cfg, kind, c, turn);
    FromStart(StoredBlocks(cfg, kind, c, turn), FreshBlocks(cfg, kind, c, turn), c.host.entries,
        PathOf(cfg.Shape(), turn), x, y);
  }

  lemma FreshAscend(cfg: SimConfig, kind: Kind, c: Control, turn: Turn)
    ensures MissingOf(FreshBlocks(cfg, kind, c, turn), c.host.entries, PathOf(cfg.Shape(), turn))
  {
    CandidatesAscend(ProbeOf(cfg, c, turn).view.ix, c.host.entries, PathOf(cfg.Shape(), turn));
  }

  // ---- which residents a round reaches --------------------------------------

  predicate HoldsAny(es: seq<Entry>, ks: set<Key>) { exists i :: 0 <= i < |es| && es[i].key in ks }

  /** Bytes ahead of the first entry whose key is in `ks`; all of them when there is none. */
  function BytesBefore(order: seq<Entry>, ks: set<Key>): nat {
    if order == [] || order[0].key in ks then 0 else order[0].nbytes + BytesBefore(order[1..], ks)
  }

  lemma HoldsCons(es: seq<Entry>, ks: set<Key>)
    requires es != []
    ensures HoldsAny(es, ks) <==> es[0].key in ks || HoldsAny(es[1..], ks)
  {
    if i :| 0 <= i < |es| && es[i].key in ks {
      if i > 0 { assert es[1..][i - 1].key in ks; }
    }
    if i :| 0 <= i < |es[1..]| && es[1..][i].key in ks { assert es[i + 1].key in ks; }
  }

  /** The cut-off reaches a key exactly when fewer bytes than needed are ahead of it. */
  lemma {:induction false} CutoffReaches(order: seq<Entry>, needed: int, ks: set<Key>)
    ensures HoldsAny(Cutoff(order, needed), ks) <==> HoldsAny(order, ks) && BytesBefore(order, ks) < needed
  {
    if order != [] && needed > 0 {
      var cut := Cutoff(order, needed);
      CutoffReaches(order[1..], needed - order[0].nbytes, ks);
      HoldsCons(order, ks);
      HoldsCons(cut, ks);
      assert cut[1..] == Cutoff(order[1..], needed - order[0].nbytes);
    }
  }

  lemma {:induction false} BeforeAtMost(order: seq<Entry>, ks: set<Key>)
    ensures BytesBefore(order, ks) <= Bytes(order)
  {
    if order != [] && order[0].key !in ks { BeforeAtMost(order[1..], ks); }
  }

  /** When something is needed all policies take the cut-off. */
  lemma {:induction false} TakenIsCutoff(kind: Kind, order: seq<Entry>, needed: int)
    requires needed > 0
    ensures Taken(kind, order, needed) == Cutoff(order, needed)
  {
  }

  /** A round takes the resident with it: it has expired, or too few bytes are ahead of it. */
  predicate Goes(kind: Kind, p: Probe, es: seq<Entry>, needed: int, k: Key) {
    var current := Current(kind, p, es);
    !HasKey(current, k) || BytesBefore(EvictionOrder(kind, p, current), {k}) < needed
  }

  lemma HoldsOne(es: seq<Entry>, k: Key)
    ensures HoldsAny(es, {k}) <==> HasKey(es, k)
  {
  }

  lemma OrderHolds(kind: Kind, p: Probe, es: seq<Entry>, k: Key)
    ensures HasKey(EvictionOrder(kind, p, es), k) <==> HasKey(es, k)
  {
    var order := EvictionOrder(kind, p, es);
    OrderIsPermutation(kind, p, es);
    if i :| 0 <= i < |es| && es[i].key == k {
      assert es[i] in multiset(order);
      KeyOfMember(order, es[i]);
    }
    if i :| 0 <= i < |order| && order[i].key == k {
      assert order[i] in multiset(es);
      KeyOfMember(es, order[i]);
    }
  }

  /** With nothing protected the victims are the cut-off of the order of all current entries. */
  lemma {:induction false} VictimsAre(kind: Kind, p: Probe, es: seq<Entry>, needed: int)
    requires needed > 0
    ensures Victims(kind, p, es, needed, {}) == Cutoff(EvictionOrder(kind, p, Current(kind, p, es)), needed)
  {
    WithoutNone(Current(kind, p, es));
    TakenIsCutoff(kind, EvictionOrder(kind, p, Current(kind, p, es)), needed);
  }

  /** What is left of the residents. */
  lemma StaysIff(kind: Kind, p: Probe, es: seq<Entry>, needed: int, k: Key)
    requires UniqueKeys(es) && needed > 0
    ensures HasKey(Evicted(kind, p, es, needed, {}).rest, k) <==> HasKey(es, k) && !Goes(kind, p, es, needed, k)
  {
    var current, rest, vs := Current(kind, p, es), Evicted(kind, p, es, needed, {}).rest,
      Victims(kind, p, es, needed, {});
    RestIsSurvivors(kind, p, es, needed, {});
    VictimsAreResidents(kind, p, es, needed, {});
    if HasKey(current, k) {
      var i :| 0 <= i < |current| && current[i].key == k;
      KeyOfMember(es, current[i]);
      VictimsAre(kind, p, es, needed);
      CutoffReaches(EvictionOrder(kind, p, current), needed, {k});
      HoldsOne(EvictionOrder(kind, p, current), k);
      HoldsOne(vs, k);
      OrderHolds(kind, p, current, k);
      KeyOfVictim(current, vs, current[i]);
      if current[i] in vs { GoneKey(rest, current, current[i]); } else { KeyOfMember(rest, current[i]); }
    } else {
      NotBack(rest, current, k);
    }
  }

  lemma KeyOfVictim(current: seq<Entry>, vs: seq<Entry>, e: Entry)
    requires UniqueKeys(current) && e in current && forall v :: v in vs ==> v in current
    ensures HasKey(vs, e.key) <==> e in vs
  {
    VictimKey(current, vs, e);
    if i :| 0 <= i < |vs| && vs[i].key == e.key { assert EntryKeys(vs)[i] == e.key; }
    KeyOfMember(vs, e);
  }

  // ---- what is stored -------------------------------------------------------

  lemma {:induction false} BytesOfOrder(kind: Kind, p: Probe, es: seq<Entry>)
    requires UniqueKeys(es)
    ensures Bytes(EvictionOrder(kind, p, es)) == Bytes(es)
  {
    var order := EvictionOrder(kind, p, es);
    OrderIsPermutation(kind, p, es);
    PermutationUnique(es, order);
    BytesWithoutAll(es, order);
    forall e | e in es
      ensures e.key in KeySet(EntryKeys(order))
    {
      var i :| 0 <= i < |order| && order[i] == e;
      assert EntryKeys(order)[i] == e.key;
    }
    WithoutAll(es, KeySet(EntryKeys(order)));
  }

  /** A round after which nothing is stored: there is nothing to give up, or everything goes and the first
      fresh block does not fit into the room of all of it. */
  predicate StoresNothing(kind: Kind, p: Probe, es: seq<Entry>, incoming: seq<Item>, needed: int) {
    var current := Current(kind, p, es);
    current == [] || (Bytes(current) < needed && incoming != [] && incoming[0].nbytes > FullRoom(kind, p, es))
  }

  /** The victims' index bytes are no fewer than their bytes. */
  lemma RoomOfVictims(kind: Kind, p: Probe, es: seq<Entry>, needed: int)
    requires Housed(p.view.ix, es) && needed > 0 && Bytes(Current(kind, p, es)) >= needed
    ensures PathBytes(p.view.ix, EntryKeys(Victims(kind, p, es, needed, {}))) >= needed
  {
    var vs, current := Victims(kind, p, es, needed, {}), Current(kind, p, es);
    VictimsAreResidents(kind, p, es, needed, {});
    VictimsAre(kind, p, es, needed);
    CutoffEnough(EvictionOrder(kind, p, current), needed);
    BytesOfOrder(kind, p, current);
    GrowthNonNegative(p.view.ix, es, vs);
    GrowthBytes(p.view.ix, vs);
  }

  /** What the tier accepts after a round. */
  function AcceptedAfter(p: Probe, es: seq<Entry>, incoming: seq<Item>, ev: Eviction): seq<Item> {
    if ev.victims.None? then [] else Accepted(p, es, incoming, ev.victims.value)
  }

  lemma {:induction false} AcceptsIff(kind: Kind, p: Probe, es: seq<Entry>, incoming: seq<Item>, needed: int)
    requires Housed(p.view.ix, es) && incoming != [] && needed > 0
    requires needed == ItemBytes(incoming) - Spare(p.tier.capacity, es)
    ensures AcceptedAfter(p, es, incoming, Evicted(kind, p, es, needed, {})) == []
       <==> StoresNothing(kind, p, es, incoming, needed)
  {
    var current, ev := Current(kind, p, es), Evicted(kind, p, es, needed, {});
    VictimsAreResidents(kind, p, es, needed, {});
    WithoutNone(current);
    NoneIff(kind, p, es, needed, {});
    if current != [] {
      if Bytes(current) >= needed {
        RoomOfVictims(kind, p, es, needed);
        FitPrefix(incoming, Spare(p.tier.capacity, es) + PathBytes(p.view.ix, ev.victims.value));
      } else {
        EverythingGoes(kind, p, es, needed);
      }
    }
  }

  lemma EverythingGoes(kind: Kind, p: Probe, es: seq<Entry>, needed: int)
    requires UniqueKeys(es) && Current(kind, p, es) != [] && 0 < needed && Bytes(Current(kind, p, es)) < needed
    ensures Empties(kind, p, es, Evicted(kind, p, es, needed, {}))
  {
    var order := EvictionOrder(kind, p, Current(kind, p, es));
    VictimsAreResidents(kind, p, es, needed, {});
    VictimsAre(kind, p, es, needed);
    CutoffEnough(order, needed);
    CutoffPrefix(order, needed);
    BytesOfOrder(kind, p, Current(kind, p, es));
    PrefixBytes(Cutoff(order, needed), order);
    AllGone(kind, p, es, needed);
  }

  lemma {:induction false} PrefixBytes(a: seq<Entry>, b: seq<Entry>)
    requires a <= b
    ensures Bytes(a) <= Bytes(b)
  {
    assert b == a + b[|a|..];
    BytesConcat(a, b[|a|..]);
  }

  // ---- a whole turn ---------------------------------------------------------

  /** The turn has an eviction round. */
  predicate HasRound(cfg: SimConfig, kind: Kind, c: Control, turn: Turn) {
    FreshBlocks(cfg, kind, c, turn) != [] && Needed(cfg, kind, c, turn) > 0
  }

  /** The turn loses the resident. */
  predicate Loses(cfg: SimConfig, kind: Kind, c: Control, turn: Turn, k: Key) {
    HasRound(cfg, kind, c, turn)
    && Goes(kind, ProbeOf(cfg, c, turn), c.host.entries, Needed(cfg, kind, c, turn), k)
  }

  /** The turn stores nothing. */
  predicate Idle(cfg: SimConfig, kind: Kind, c: Control, turn: Turn) {
    var incoming, needed := FreshBlocks(cfg, kind, c, turn), Needed(cfg, kind, c, turn);
    incoming == [] || (needed > 0 && StoresNothing(kind, ProbeOf(cfg, c, turn), c.host.entries, incoming, needed))
  }

  lemma RoundIs(cfg: SimConfig, kind: Kind, c: Control, turn: Turn)
    requires UniqueKeys(c.host.entries) && HasRound(cfg, kind, c, turn)
    ensures RoundOf(cfg, kind, c, turn)
         == Evicted(kind, ProbeOf(cfg, c, turn), c.host.entries, Needed(cfg, kind, c, turn), {})
  {
    var p, es, incoming := ProbeOf(cfg, c, turn), c.host.entries, FreshBlocks(cfg, kind, c, turn);
    Round(kind, p, es, PathOf(cfg.Shape(), turn));
    RoundIsOpen(kind, p, es, incoming, Needed(cfg, kind, c, turn));
  }

  lemma LosesIff(cfg: SimConfig, kind: Kind, c: Control, turn: Turn, k: Key)
    requires UniqueKeys(c.host.entries)
    ensures HasKey(RoundOf(cfg, kind, c, turn).rest, k)
       <==> HasKey(c.host.entries, k) && !Loses(cfg, kind, c, turn, k)
  {
    if HasRound(cfg, kind, c, turn) {
      RoundIs(cfg, kind, c, turn);
      StaysIff(kind, ProbeOf(cfg, c, turn), c.host.entries, Needed(cfg, kind, c, turn), k);
    }
  }

  lemma IdleIff(cfg: SimConfig, kind: Kind, c: Control, turn: Turn)
    requires Housed(ProbeOf(cfg, c, turn).view.ix, c.host.entries)
    ensures StoredBlocks(cfg, kind, c, turn) == [] <==> Idle(cfg, kind, c, turn)
  {
    var p, es, incoming := ProbeOf(cfg, c, turn), c.host.entries, FreshBlocks(cfg, kind, c, turn);
    if HasRound(cfg, kind, c, turn) {
      RoundIs(cfg, kind, c, turn);
      AcceptsIff(kind, p, es, incoming, Needed(cfg, kind, c, turn));
    } else if incoming != [] {
      AcceptsAll(p, es, incoming);
    }
  }

  // ---- prefixes -------------------------------------------------------------

  /** The first block of a list that is not held, when all before it are. */
  lemma {:induction false} FirstMissing(ix: IndexState, es: seq<Entry>, keys: seq<Key>, n: nat)
    requires n < |keys| && !HasKey(es, keys[n]) && forall i :: 0 <= i < n ==> HasKey(es, keys[i])
    ensures var items := Candidates(ix, es, keys); items != [] && items[0].key == keys[n]
  {
    if n > 0 {
      assert HasKey(es, keys[0]);
      forall i | 0 <= i < n - 1
        ensures HasKey(es, keys[1..][i])
      {
        assert keys[1..][i] == keys[i + 1];
      }
      FirstMissing(ix, es, keys[1..], n - 1);
    }
  }

  /** Two paths in an index that share a block share all before it, at the same places. */
  lemma SharedStart(geo: Geometry, ix: IndexState, s: Session, t: Session, j: nat)
    requires Sound(geo, ix) && j < |ix.Path(s)| && ix.Path(s)[j] in ix.Path(t)
    ensures j < |ix.Path(t)| && forall i :: 0 <= i <= j ==> ix.Path(s)[i] == ix.Path(t)[i]
  {
    var path, other := ix.Path(s), ix.Path(t);
    assert ChainLike(path, s) && ChainLike(other, t);
    var l :| 0 <= l < |other| && other[l] == path[j];
    assert l == j;
    forall i | 0 <= i < j
      ensures path[i] == other[i]
    {
      if s != t {
        CommonPart(path, s, other, t, i, j);
        var m :| 0 <= m < |other| && other[m] == path[i];
      }
    }
  }

  /** What was stored for the turn, on a path of which the first `n` blocks and no others were held: it
      starts right after them, and is closed towards them. */
  ghost predicate StoredAfter(taken: seq<Item>, path: seq<Key>, n: nat) {
    && (forall i :: 0 <= i < n <= |path| ==> path[i] !in ItemKeys(taken))
    && forall i, j :: n <= i < j < |path| && path[j] in ItemKeys(taken) ==> path[i] in ItemKeys(taken)
  }

  lemma StoredOnPath(cfg: SimConfig, kind: Kind, sched: Schedule, c: Control, turn: Turn, s: Session, n: nat)
    requires UniqueKeys(c.host.entries) && Sound(cfg.Shape(), ProbeOf(cfg, c, turn).view.ix)
    requires ProbeOf(cfg, c, turn).view.ix.Path(turn.session) == PathOf(cfg.Shape(), turn)
    requires ResidentPrefix(c.host.entries, ProbeOf(cfg, c, turn).view.ix.Path(s), n)
    ensures StoredAfter(StoredBlocks(cfg, kind, c, turn), ProbeOf(cfg, c, turn).view.ix.Path(s), n)
  {
    var path, taken := ProbeOf(cfg, c, turn).view.ix.Path(s), StoredBlocks(cfg, kind, c, turn);
    StoredAreMissing(cfg, kind, sched, c, turn);
    forall i, j | n <= i < j < |path| && path[j] in ItemKeys(taken)
      ensures path[i] in ItemKeys(taken)
    {
      assert path[j] in PathOf(cfg.Shape(), turn);
      SharedStart(cfg.Shape(), ProbeOf(cfg, c, turn).view.ix, s, turn.session, j);
      StoredFromStart(cfg, kind, sched, c, turn, path[i], path[j]);
    }
  }

  lemma StoredAreMissing(cfg: SimConfig, kind: Kind, sched: Schedule, c: Control, turn: Turn)
    requires UniqueKeys(c.host.entries)
    ensures forall k :: k in ItemKeys(StoredBlocks(cfg, kind, c, turn)) ==>
              k in PathOf(cfg.Shape(), turn) && !HasKey(c.host.entries, k)
  {
    var taken, incoming := StoredBlocks(cfg, kind, c, turn), FreshBlocks(cfg, kind, c, turn);
    TurnItems(cfg, kind, sched, c, turn);
    CandidatesAscend(ProbeOf(cfg, c, turn).view.ix, c.host.entries, PathOf(cfg.Shape(), turn));
    forall k | k in ItemKeys(taken)
      ensures k in ItemKeys(incoming)
    {
      var i :| 0 <= i < |taken| && ItemKeys(taken)[i] == k;
      assert ItemKeys(incoming)[i] == k;
    }
  }

  /** The next block of the path is stored exactly when it is one of the turn's and anything is stored. */
  lemma NextStored(cfg: SimConfig, kind: Kind, sched: Schedule, c: Control, turn: Turn, s: Session, n: nat)
    requires UniqueKeys(c.host.entries) && Sound(cfg.Shape(), ProbeOf(cfg, c, turn).view.ix)
    requires ProbeOf(cfg, c, turn).view.ix.Path(turn.session) == PathOf(cfg.Shape(), turn)
    requires var path := ProbeOf(cfg, c, turn).view.ix.Path(s);
             n < |path| && ResidentPrefix(c.host.entries, path, n)
    ensures var k, taken := ProbeOf(cfg, c, turn).view.ix.Path(s)[n], StoredBlocks(cfg, kind, c, turn);
            k in ItemKeys(taken) <==> k in PathOf(cfg.Shape(), turn) && taken != []
  {
    var ix, keys, taken := ProbeOf(cfg, c, turn).view.ix, PathOf(cfg.Shape(), turn), StoredBlocks(cfg, kind, c, turn);
    var k := ix.Path(s)[n];
    StoredAreMissing(cfg, kind, sched, c, turn);
    if k in keys && taken != [] {
      TurnItems(cfg, kind, sched, c, turn);
      SharedStart(cfg.Shape(), ix, s, turn.session, n);
      FirstMissing(ix, c.host.entries, keys, n);
      assert ItemKeys(taken)[0] == taken[0].key == FreshBlocks(cfg, kind, c, turn)[0].key;
    }
  }

  /** Of a prefix of blocks, some of them lost, a prefix is left, and all of it when the next block comes. */
  predicate LeavesPrefix(lost: seq<bool>, next: bool) {
    && (forall i, j :: 0 <= i < j < |lost| && lost[i] ==> lost[j])
    && (next ==> forall i :: 0 <= i < |lost| ==> !lost[i])
  }

  /** Which of the first `n` blocks are not among the entries. */
  function Lacks(rest: seq<Entry>, path: seq<Key>, n: nat): (lost: seq<bool>)
    requires n <= |path|
    ensures |lost| == n && forall i :: 0 <= i < n ==> lost[i] == !HasKey(rest, path[i])
  {
    seq(n, i requires 0 <= i < n => !HasKey(rest, path[i]))
  }

  predicate Follows(taken: seq<Item>, path: seq<Key>, n: nat) { n < |path| && path[n] in ItemKeys(taken) }

  lemma KeptWhen(r: seq<Entry>, rest: seq<Entry>, taken: seq<Item>, path: seq<Key>, n: nat)
    requires HoldsBoth(r, rest, taken) && n <= |path| && StoredAfter(taken, path, n)
    requires forall i :: n <= i < |path| ==> !HasKey(rest, path[i])
    ensures PrefixHeld(r, path) <==> LeavesPrefix(Lacks(rest, path, n), Follows(taken, path, n))
  {
    assert forall i :: 0 <= i < n ==> (HasKey(r, path[i]) <==> HasKey(rest, path[i]));
    assert forall i :: n <= i < |path| ==> (HasKey(r, path[i]) <==> path[i] in ItemKeys(taken));
    if PrefixHeld(r, path) && n < |path| && path[n] in ItemKeys(taken) {
      assert HasKey(r, path[n]);
    }
    if n < |path| && path[n] !in ItemKeys(taken) {
      forall j | n <= j < |path|
        ensures path[j] !in ItemKeys(taken)
      {
      }
    }
  }

  /** The state a turn of a run finds. */
  ghost predicate Found(cfg: SimConfig, c: Control, turn: Turn) {
    var ix := ProbeOf(cfg, c, turn).view.ix;
    Sound(cfg.Shape(), ix) && Housed(ix, c.host.entries) && ix.Path(turn.session) == PathOf(cfg.Shape(), turn)
  }

  lemma {:induction false} RunFound(cfg: SimConfig, kind: Kind, sched: Schedule, turns: seq<Turn>, turn: Turn)
    ensures Found(cfg, RunControl(cfg, kind, sched, turns), turn)
  {
    var c := RunControl(cfg, kind, sched, turns);
    RunHoused(cfg, kind, sched, turns);
    TouchSound(cfg.Shape(), c.ix, turn);
    TouchGrows(cfg.Shape(), c.ix, turn);
    HousedGrows(c.ix, ProbeOf(cfg, c, turn).view.ix, c.host.entries);
  }

  /** Which of the first `n` blocks of the path the turn loses. */
  function Losses(cfg: SimConfig, kind: Kind, c: Control, turn: Turn, path: seq<Key>, n: nat): (lost: seq<bool>)
    requires n <= |path|
    ensures |lost| == n && forall i :: 0 <= i < n ==> lost[i] == Loses(cfg, kind, c, turn, path[i])
  {
    seq(n, i requires 0 <= i < n => Loses(cfg, kind, c, turn, path[i]))
  }

  /** The turn stores the next block of the path. */
  predicate StoresNext(cfg: SimConfig, kind: Kind, c: Control, turn: Turn, path: seq<Key>, n: nat) {
    n < |path| && path[n] in PathOf(cfg.Shape(), turn) && !Idle(cfg, kind, c, turn)
  }

  /** Told before the turn: what the turn loses of the first `n` blocks of the path it loses from some place
      on, and it loses none of them when it stores the next one. */
  predicate Keeps(cfg: SimConfig, kind: Kind, c: Control, turn: Turn, path: seq<Key>, n: nat)
    requires n <= |path|
  {
    LeavesPrefix(Losses(cfg, kind, c, turn, path, n), StoresNext(cfg, kind, c, turn, path, n))
  }

  lemma LostOnPath(cfg: SimConfig, kind: Kind, c: Control, turn: Turn, path: seq<Key>, n: nat)
    requires UniqueKeys(c.host.entries) && ResidentPrefix(c.host.entries, path, n)
    ensures Lacks(RoundOf(cfg, kind, c, turn).rest, path, n) == Losses(cfg, kind, c, turn, path, n)
    ensures forall i :: n <= i < |path| ==> !HasKey(RoundOf(cfg, kind, c, turn).rest, path[i])
  {
    forall i | 0 <= i < |path|
      ensures HasKey(RoundOf(cfg, kind, c, turn).rest, path[i]) <==> i < n && !Loses(cfg, kind, c, turn, path[i])
    {
      LosesIff(cfg, kind, c, turn, path[i]);
    }
  }

  lemma NextOnPath(cfg: SimConfig, kind: Kind, sched: Schedule, c: Control, turn: Turn, s: Session, n: nat)
    requires Found(cfg, c, turn) && ResidentPrefix(c.host.entries, ProbeOf(cfg, c, turn).view.ix.Path(s), n)
    ensures var path := ProbeOf(cfg, c, turn).view.ix.Path(s);
            Follows(StoredBlocks(cfg, kind, c, turn), path, n) == StoresNext(cfg, kind, c, turn, path, n)
  {
    IdleIff(cfg, kind, c, turn);
    if n < |ProbeOf(cfg, c, turn).view.ix.Path(s)| { NextStored(cfg, kind, sched, c, turn, s, n); }
  }

  lemma TurnLeaves(cfg: SimConfig, kind: Kind, sched: Schedule, c: Control, turn: Turn, s: Session, n: nat)
    requires Found(cfg, c, turn) && ResidentPrefix(c.host.entries, ProbeOf(cfg, c, turn).view.ix.Path(s), n)
    ensures var path := ProbeOf(cfg, c, turn).view.ix.Path(s);
            PrefixHeld(StepControl(cfg, kind, sched, c, turn).host.entries, path)
            <==> LeavesPrefix(Losses(cfg, kind, c, turn, path, n), Follows(StoredBlocks(cfg, kind, c, turn), path, n))
  {
    var path := ProbeOf(cfg, c, turn).view.ix.Path(s);
    LostOnPath(cfg, kind, c, turn, path, n);
    StoredOnPath(cfg, kind, sched, c, turn, s, n);
    TurnHolds(cfg, kind, sched, c, turn);
    KeptWhen(StepControl(cfg, kind, sched, c, turn).host.entries, RoundOf(cfg, kind, c, turn).rest,
        StoredBlocks(cfg, kind, c, turn), path, n);
  }

  /** For every policy, every turn of every run and every session, served or waiting: a session whose
      residents are the first `n` blocks of its path has a prefix after the turn exactly when the turn, as
      the state before it tells, keeps it. */
  lemma {:induction false} PrefixKeptIff(cfg: SimConfig, kind: Kind, sched: Schedule, turns: seq<Turn>, turn: Turn,
          s: Session, n: nat)
    requires var c := RunControl(cfg, kind, sched, turns);
             ResidentPrefix(c.host.entries, ProbeOf(cfg, c, turn).view.ix.Path(s), n)
    ensures var c := RunControl(cfg, kind, sched, turns);
            var path := ProbeOf(cfg, c, turn).view.ix.Path(s);
            PrefixHeld(StepControl(cfg, kind, sched, c, turn).host.entries, path)
            <==> Keeps(cfg, kind, c, turn, path, n)
  {
    RunFound(cfg, kind, sched, turns, turn);
    TurnLeaves(cfg, kind, sched, RunControl(cfg, kind, sched, turns), turn, s, n);
    NextOnPath(cfg, kind, sched, RunControl(cfg, kind, sched, turns), turn, s, n);
  }

  // ---- the session that is served -------------------------------------------

  /** The session that is served: it has no resident block, the turn has no round or stores nothing, or no
      resident of the path has expired and enough bytes are ahead of all of them in the order. */
  predicate ServedKeeps(cfg: SimConfig, kind: Kind, c: Control, turn: Turn, n: nat) {
    var p, es, needed := ProbeOf(cfg, c, turn), c.host.entries, Needed(cfg, kind, c, turn);
    || n == 0 || !HasRound(cfg, kind, c, turn)
    || StoresNothing(kind, p, es, FreshBlocks(cfg, kind, c, turn), needed)
    || PathSafe(kind, p, es, needed, PathOf(cfg.Shape(), turn), n)
  }

  lemma AnyOf(es: seq<Entry>, ks: set<Key>, k: Key)
    requires k in ks && HasKey(es, k)
    ensures HoldsAny(es, ks)
  {
  }

  /** Enough bytes are ahead of all the keys exactly when they are ahead of each. */
  lemma {:induction false} BeforeEach(order: seq<Entry>, path: seq<Key>, n: nat, needed: int)
    requires 0 < n && ResidentPrefix(order, path, n)
    ensures BytesBefore(order, KeySet(path)) >= needed
       <==> forall i :: 0 <= i < n ==> BytesBefore(order, {path[i]}) >= needed
  {
    var cut := Cutoff(order, needed);
    CutoffReaches(order, needed, KeySet(path));
    AnyOf(order, KeySet(path), path[0]);
    forall i | 0 <= i < n
      ensures HasKey(cut, path[i]) <==> BytesBefore(order, {path[i]}) < needed
    {
      CutoffReaches(order, needed, {path[i]});
      HoldsOne(order, path[i]);
      HoldsOne(cut, path[i]);
    }
    if i :| 0 <= i < n && HasKey(cut, path[i]) { AnyOf(cut, KeySet(path), path[i]); }
    if HoldsAny(cut, KeySet(path)) { CutOnPath(order, cut, path, n, needed); }
  }

  lemma {:induction false} CutOnPath(order: seq<Entry>, cut: seq<Entry>, path: seq<Key>, n: nat, needed: int)
    requires ResidentPrefix(order, path, n) && cut == Cutoff(order, needed) && HoldsAny(cut, KeySet(path))
    ensures exists i :: 0 <= i < n && HasKey(cut, path[i])
  {
    CutoffPrefix(order, needed);
    var l :| 0 <= l < |cut| && cut[l].key in path;
    var i :| 0 <= i < |path| && path[i] == cut[l].key;
    assert order[l] == cut[l] && HasKey(order, path[i]) && HasKey(cut, path[i]);
  }

  /** In that case every resident goes. */
  lemma NothingStoredAllLost(kind: Kind, p: Probe, es: seq<Entry>, incoming: seq<Item>, needed: int, k: Key)
    requires UniqueKeys(es) && StoresNothing(kind, p, es, incoming, needed)
    ensures Goes(kind, p, es, needed, k)
  {
    var current := Current(kind, p, es);
    if current != [] {
      VictimsAreResidents(kind, p, es, needed, {});
      BytesOfOrder(kind, p, current);
      BeforeAtMost(EvictionOrder(kind, p, current), {k});
    }
  }

  lemma ServedIff(cfg: SimConfig, kind: Kind, c: Control, turn: Turn, n: nat)
    requires UniqueKeys(c.host.entries) && ResidentPrefix(c.host.entries, PathOf(cfg.Shape(), turn), n)
    ensures Keeps(cfg, kind, c, turn, PathOf(cfg.Shape(), turn), n) <==> ServedKeeps(cfg, kind, c, turn, n)
  {
    var path := PathOf(cfg.Shape(), turn);
    if n > 0 && HasRound(cfg, kind, c, turn) {
      NextIsMissing(cfg, kind, c, turn, n);
      ServedWhen(kind, ProbeOf(cfg, c, turn), c.host.entries, FreshBlocks(cfg, kind, c, turn),
          Needed(cfg, kind, c, turn), path, n, Losses(cfg, kind, c, turn, path, n),
          StoresNext(cfg, kind, c, turn, path, n));
    }
  }

  /** Enough is ahead of every resident of the path, and none has expired. */
  predicate PathSafe(kind: Kind, p: Probe, es: seq<Entry>, needed: int, path: seq<Key>, n: nat) {
    var current := Current(kind, p, es);
    && (forall i :: 0 <= i < n <= |path| ==> HasKey(current, path[i]))
    && BytesBefore(EvictionOrder(kind, p, current), KeySet(path)) >= needed
  }

  lemma ServedWhen(kind: Kind, p: Probe, es: seq<Entry>, incoming: seq<Item>, needed: int, path: seq<Key>, n: nat,
          lost: seq<bool>, next: bool)
    requires UniqueKeys(es) && 0 < n && ResidentPrefix(es, path, n)
    requires |lost| == n && forall i :: 0 <= i < n ==> lost[i] == Goes(kind, p, es, needed, path[i])
    requires next == !StoresNothing(kind, p, es, incoming, needed)
    ensures LeavesPrefix(lost, next) <==> !next || PathSafe(kind, p, es, needed, path, n)
  {
    if next {
      NoneGoes(kind, p, es, needed, path, n);
    } else {
      forall i | 0 <= i < n { NothingStoredAllLost(kind, p, es, incoming, needed, path[i]); }
    }
  }

  /** When anything is offered the path has a next block. */
  lemma NextIsMissing(cfg: SimConfig, kind: Kind, c: Control, turn: Turn, n: nat)
    requires ResidentPrefix(c.host.entries, PathOf(cfg.Shape(), turn), n) && FreshBlocks(cfg, kind, c, turn) != []
    ensures n < |PathOf(cfg.Shape(), turn)|
  {
    MissingTail(ProbeOf(cfg, c, turn).view.ix, c.host.entries, PathOf(cfg.Shape(), turn), n);
  }

  lemma NoneGoes(kind: Kind, p: Probe, es: seq<Entry>, needed: int, path: seq<Key>, n: nat)
    requires UniqueKeys(es) && 0 < n && ResidentPrefix(es, path, n)
    ensures (forall i :: 0 <= i < n ==> !Goes(kind, p, es, needed, path[i]))
       <==> PathSafe(kind, p, es, needed, path, n)
  {
    var current := Current(kind, p, es);
    var order := EvictionOrder(kind, p, current);
    if forall i :: 0 <= i < n ==> HasKey(current, path[i]) {
      VictimsAreResidents(kind, p, es, needed, {});
      forall i | 0 <= i < |path|
        ensures HasKey(order, path[i]) <==> i < n
      {
        OrderHolds(kind, p, current, path[i]);
        if i >= n { NotBack(current, es, path[i]); }
      }
      BeforeEach(order, path, n, needed);
    }
  }

  /** The session that is served, for every policy and every turn of every run: when its residents are a
      prefix of its path, they are one after its turn exactly when `ServedKeeps` holds before it. */
  lemma {:induction false} ServedPrefixIff(cfg: SimConfig, kind: Kind, sched: Schedule, turns: seq<Turn>, turn: Turn,
          n: nat)
    requires ResidentPrefix(RunControl(cfg, kind, sched, turns).host.entries, PathOf(cfg.Shape(), turn), n)
    ensures var c := RunControl(cfg, kind, sched, turns);
            PrefixHeld(StepControl(cfg, kind, sched, c, turn).host.entries, PathOf(cfg.Shape(), turn))
            <==> ServedKeeps(cfg, kind, c, turn, n)
  {
    RunFound(cfg, kind, sched, turns, turn);
    PrefixKeptIff(cfg, kind, sched, turns, turn, turn.session, n);
    ServedIff(cfg, kind, RunControl(cfg, kind, sched, turns), turn, n);
  }
}
