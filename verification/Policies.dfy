/** The residency policies of the host tier and the view they decide on (src/acr/policies.py).

    The functions say what each decision is; class `TierPolicy` is the object of the source for any of
    the six policies, and its methods are proved to take those decisions. */
module Policies {
  import opened Base
  import opened Sorting
  import opened Trace
  import opened Config
  import opened Prefix

  datatype Entry = Entry(key: Key, nbytes: nat, insertedAt: real, lastTouch: real, uses: nat,
                         expiresAt: Time, nextUse: Time)

  /** The policy classes with their tuning parameters. */
  datatype Kind =
    | Recency
    | Frequency
    | FixedTtl(base: real, perGib: real)
    | Continuum(scale: real, minimum: real, maximum: real)
    | Adaptive(horizon: real, priors: map<Role, real>, defaultPrior: Option<real>)
    | Oracle

  // ---- entries: a dictionary in insertion order -----------------------------

  predicate HasKey(es: seq<Entry>, k: Key) { exists i :: 0 <= i < |es| && es[i].key == k }

  ghost predicate UniqueKeys(es: seq<Entry>) { forall i, j :: 0 <= i < j < |es| ==> es[i].key != es[j].key }

  function Find(es: seq<Entry>, k: Key): (r: Option<Entry>)
    ensures r.Some? <==> HasKey(es, k)
    ensures r.Some? ==> r.value in es && r.value.key == k
  {
    if es == [] then None else if es[0].key == k then Some(es[0]) else Find(es[1..], k)
  }

  function Bytes(es: seq<Entry>): nat { if es == [] then 0 else es[0].nbytes + Bytes(es[1..]) }

  function EntryKeys(es: seq<Entry>): (ks: seq<Key>)
    ensures |ks| == |es| && forall i :: 0 <= i < |es| ==> ks[i] == es[i].key
  {
    seq(|es|, i requires 0 <= i < |es| => es[i].key)
  }

  /** The entries whose key is not in `ks`, in order. */
  function Without(es: seq<Entry>, ks: set<Key>): seq<Entry> {
    if es == [] then []
    else if es[0].key in ks then Without(es[1..], ks)
    else [es[0]] + Without(es[1..], ks)
  }

  /** `_expire`: the entries that have not expired by `now`. */
  function Unexpired(es: seq<Entry>, now: real): seq<Entry> {
    if es == [] then []
    else if At(now).Before(es[0].expiresAt) then [es[0]] + Unexpired(es[1..], now)
    else Unexpired(es[1..], now)
  }

  // ---- what a policy may look at --------------------------------------------

  ghost predicate Least(s: set<nat>, m: nat) { m in s && forall x :: x in s ==> m <= x }

  lemma {:induction false} LeastExists(s: set<nat>)
    requires s != {}
    ensures exists m :: Least(s, m)
  {
    var y :| y in s;
    var t := s - {y};
    assert forall x :: x in s ==> x == y || x in t;
    if t == {} {
      assert Least(s, y);
    } else {
      LeastExists(t);
      var m :| Least(t, m);
      assert Least(s, if y <= m then y else m);
    }
  }

  function MinOf(s: set<nat>): (m: nat)
    requires s != {}
    ensures Least(s, m)
  {
    LeastExists(s);
    assert exists m :: m in s && forall x :: x in s ==> m <= x by {
      var m :| Least(s, m);
    }
    var m :| m in s && forall x :: x in s ==> m <= x;
    m
  }

  function PathBytes(ix: IndexState, keys: seq<Key>): nat {
    if keys == [] then 0 else ix.Bytes(keys[0]) + PathBytes(ix, keys[1..])
  }

  /** What a policy sees of the workload: the index, the clock and the announced tool times. */
  datatype View = View(exp: real -> real, ix: IndexState, now: real, eta: map<Session, real>) {
    function Eta(s: Session): real { if s in eta then eta[s] else 0.0 }

    /** The longest of the absences announced by the sessions. */
    function LongestEta(live: set<Session>): (r: real)
      requires live != {}
      ensures (forall s :: s in live ==> Eta(s) <= r) && exists s :: s in live && Eta(s) == r
    {
      var s := MinOf(live);
      assert forall t :: t in live ==> t == s || t in live - {s};
      if live == {s} then Eta(s) else MaxReal(Eta(s), LongestEta(live - {s}))
    }

    /** The longest absence announced by a live lessee of the block. */
    function SessionEta(k: Key): real {
      var live := LiveLeases(ix, k, now);
      if live == {} then 0.0 else LongestEta(live)
    }

    function LongestPath(refs: set<Session>): (r: nat)
      ensures forall s :: s in refs ==> PathBytes(ix, ix.Path(s)) <= r
      ensures r == 0 || exists s :: s in refs && PathBytes(ix, ix.Path(s)) == r
    {
      if refs == {} then 0
      else
        var s := MinOf(refs);
        assert forall t :: t in refs ==> t == s || t in refs - {s};
        MaxInt(PathBytes(ix, ix.Path(s)), LongestPath(refs - {s}))
    }

    /** Bytes of the longest path that leases the block. */
    function ChainBytes(k: Key): nat { if k in ix.blocks then LongestPath(ix.blocks[k].refs) else 0 }

    /** The bytes that are lost with a block: those of the longest path it is on, or its own. */
    function ChainOr(k: Key, nbytes: nat): nat { if ChainBytes(k) != 0 then ChainBytes(k) else nbytes }

    function ReuseProb(k: Key, horizon: real, priors: map<Role, real>, defaultPrior: Option<real>): real {
      var p := LiveReuseProb(exp, ix, k, now, horizon);
      if k !in ix.blocks then p
      else
        var info, away := ix.blocks[k], SessionEta(k);
        var idle := MaxReal(0.0, now - info.lastUse);
        var q := if away > 0.0 then MaxReal(p, if idle <= away then 0.9 else exp(-(idle - away) / away) * 0.9) else p;
        if info.gap.None? then
          var fallback := if defaultPrior.Some? then defaultPrior.value else q;
          MaxReal(if info.roles != {} && MinOf(info.roles) in priors then priors[MinOf(info.roles)] else fallback, q)
        else q
    }

    function Depth(k: Key): nat { if k in ix.blocks then ix.blocks[k].depth else 0 }
  }

  /** `Probe`: the view, and the cost model and tier that price it. */
  datatype Probe = Probe(cost: CostModel, tier: Tier, view: View) {
    function RecomputeSeconds(nbytes: int): real {
      cost.RecomputeSeconds(nbytes as real / cost.kvBytesPerToken)
    }

    function RestoreSeconds(nbytes: int): real { tier.RestoreSeconds(nbytes) }
  }

  // ---- expiry ---------------------------------------------------------------

  const GIB := 1073741824.0

  /** The time a block is granted for what its loss would cost, between two limits. */
  function Allowance(kind: Kind, seconds: real): real
    requires kind.Continuum?
  {
    MinReal(kind.maximum, MaxReal(kind.minimum, kind.scale * seconds))
  }

  function Expiry(kind: Kind, p: Probe, k: Key, nbytes: nat): Time {
    match kind
    case FixedTtl(base, perGib) => At(p.view.now + base + perGib * (nbytes as real / GIB))
    case Continuum(_, _, _) =>
      At(p.view.now + Allowance(kind, p.RecomputeSeconds(p.view.ChainOr(k, nbytes))) + p.view.SessionEta(k))
    case _ => Never
  }

  function Touched(kind: Kind, p: Probe, e: Entry): Entry {
    e.(lastTouch := p.view.now, uses := e.uses + 1, expiresAt := Expiry(kind, p, e.key, e.nbytes))
  }

  /** `touch` of one key. */
  function TouchKey(kind: Kind, p: Probe, es: seq<Entry>, k: Key): (r: seq<Entry>)
    ensures |r| == |es|
    ensures forall i :: 0 <= i < |es| ==> r[i] == if es[i].key == k then Touched(kind, p, es[i]) else es[i]
  {
    seq(|es|, i requires 0 <= i < |es| => if es[i].key == k then Touched(kind, p, es[i]) else es[i])
  }

  function TouchKeys(kind: Kind, p: Probe, es: seq<Entry>, ks: seq<Key>): (r: seq<Entry>)
    ensures |r| == |es|
    decreases |ks|
  {
    if ks == [] then es else TouchKeys(kind, p, TouchKey(kind, p, es, ks[0]), ks[1..])
  }

  /** `insert`: a new entry at the end, or one more use of the entry that is there. */
  function InsertItem(kind: Kind, p: Probe, es: seq<Entry>, item: Item): seq<Entry> {
    if HasKey(es, item.key) then
      seq(|es|, i requires 0 <= i < |es| =>
        if es[i].key == item.key
        then es[i].(lastTouch := p.view.now, uses := es[i].uses + 1,
            expiresAt := Expiry(kind, p, item.key, item.nbytes))
        else es[i])
    else
      es + [Entry(item.key, item.nbytes, p.view.now, p.view.now, 1, Expiry(kind, p, item.key, item.nbytes), Never)]
  }

  // ---- adaptive value -------------------------------------------------------

  /** Seconds of recompute a byte of the block saves. */
  function Density(kind: Kind, p: Probe, k: Key, nbytes: nat): real
    requires kind.Adaptive?
  {
    var prob := p.view.ReuseProb(k, kind.horizon, kind.priors, kind.defaultPrior);
    prob * MaxReal(0.0, p.RecomputeSeconds(nbytes) - p.RestoreSeconds(nbytes)) / MaxInt(1, nbytes) as real
  }

  function ItemsOf(es: seq<Entry>): (items: seq<Item>)
    ensures |items| == |es| && forall i :: 0 <= i < |es| ==> items[i] == Item(es[i].key, es[i].nbytes)
  {
    seq(|es|, i requires 0 <= i < |es| => Item(es[i].key, es[i].nbytes))
  }

  /** A value per byte for every block of any size. */
  type Pricing = (Key, nat) -> real

  /** The densities the adaptive policy goes by. */
  function PricingOf(kind: Kind, p: Probe): Pricing
    requires kind.Adaptive?
  {
    (k: Key, nbytes: nat) => Density(kind, p, k, nbytes)
  }

  /** Byte-weighted sum of the values per byte. */
  function Worth(price: Pricing, items: seq<Item>): real {
    if items == [] then 0.0
    else price(items[0].key, items[0].nbytes) * items[0].nbytes as real + Worth(price, items[1..])
  }

  /** The least value per byte of a resident entry. */
  function Worst(price: Pricing, es: seq<Entry>): real
    requires es != []
  {
    var d := price(es[0].key, es[0].nbytes);
    if |es| == 1 then d else MinReal(d, Worst(price, es[1..]))
  }

  function Pressure(es: seq<Entry>, capacity: nat): real { Bytes(es) as real / MaxInt(1, capacity) as real }

  /** A chain is worth at least as much per byte as the worst resident. */
  predicate Outbids(price: Pricing, es: seq<Entry>, items: seq<Item>) {
    Worth(price, items) / MaxInt(1, ItemBytes(items)) as real >= if es == [] then 0.0 else Worst(price, es)
  }

  /** `admit_chain`: the part of a chain worth keeping. */
  function Admitted(kind: Kind, p: Probe, es: seq<Entry>, capacity: nat, items: seq<Item>): seq<Item> {
    if !kind.Adaptive? || items == [] || Pressure(es, capacity) < 0.9 then items
    else
      if Outbids(PricingOf(kind, p), es, items) then items else []
  }

  /** What `_chain_of` names: the unknown block, a block shared by live sessions, the chain of the one
      live session that leases it, or a block on its own. */
  datatype ChainId = Unknown | Root(key: Key) | Lease(session: Session) | Lone(key: Key)

  function ChainIdOf(v: View, k: Key): ChainId {
    var live := LiveLeases(v.ix, k, v.now);
    if k !in v.ix.blocks then Unknown
    else if |live| > 1 then Root(k)
    else if live != {} then Lease(MinOf(live))
    else Lone(k)
  }

  datatype Group = Group(id: ChainId, members: seq<Entry>)

  /** `chains.setdefault(id, []).append(e)` on a dictionary in insertion order. */
  function AddTo(gs: seq<Group>, id: ChainId, e: Entry): seq<Group> {
    if gs == [] then [Group(id, [e])]
    else if gs[0].id == id then [Group(id, gs[0].members + [e])] + gs[1..]
    else [gs[0]] + AddTo(gs[1..], id, e)
  }

  function Groups(v: View, es: seq<Entry>): seq<Group> {
    if es == [] then []
    else var n := |es| - 1; AddTo(Groups(v, es[..n]), ChainIdOf(v, es[n].key), es[n])
  }

  predicate AllShared(v: View, es: seq<Entry>) {
    forall i :: 0 <= i < |es| ==> es[i].key in v.ix.blocks && v.ix.blocks[es[i].key].shared
  }

  function ChainDensity(price: Pricing, es: seq<Entry>): real {
    if Bytes(es) == 0 then 0.0 else Worth(price, ItemsOf(es)) / Bytes(es) as real
  }

  /** Groups in eviction order: all-shared groups last, then by density. */
  predicate GroupBefore(kind: Kind, p: Probe, a: Group, b: Group)
    requires kind.Adaptive?
  {
    var x, y := AllShared(p.view, a.members), AllShared(p.view, b.members);
    (!x && y) || (x == y && ChainDensity(PricingOf(kind, p), a.members) <= ChainDensity(PricingOf(kind, p), b.members))
  }

  function GroupOrder(kind: Kind, p: Probe): (Group, Group) -> bool
    requires kind.Adaptive?
  {
    (a: Group, b: Group) => GroupBefore(kind, p, a, b)
  }

  function DepthOrder(v: View): (Entry, Entry) -> bool {
    (a: Entry, b: Entry) => v.Depth(a.key) >= v.Depth(b.key)
  }

  /** The members of every group, each group from the leaf end. */
  function LeafFirst(v: View, gs: seq<Group>): seq<Entry> {
    if gs == [] then [] else StableSort(gs[0].members, DepthOrder(v)) + LeafFirst(v, gs[1..])
  }

  // ---- eviction -------------------------------------------------------------

  /** The sort keys of the policies that rank single entries. */
  predicate EntryBefore(kind: Kind, a: Entry, b: Entry) {
    match kind
    case Recency => a.lastTouch <= b.lastTouch
    case Frequency => a.uses < b.uses || (a.uses == b.uses && a.lastTouch <= b.lastTouch)
    case Oracle => b.nextUse.Before(a.nextUse) || (a.nextUse == b.nextUse && a.lastTouch <= b.lastTouch)
    case _ => a.expiresAt.Before(b.expiresAt) || (a.expiresAt == b.expiresAt && a.lastTouch <= b.lastTouch)
  }

  function EntryOrder(kind: Kind): (Entry, Entry) -> bool { (a: Entry, b: Entry) => EntryBefore(kind, a, b) }

  /** The order in which candidates are given up. */
  function EvictionOrder(kind: Kind, p: Probe, es: seq<Entry>): seq<Entry> {
    if kind.Adaptive? then LeafFirst(p.view, StableSort(Groups(p.view, es), GroupOrder(kind, p)))
    else StableSort(es, EntryOrder(kind))
  }

  /** The shortest prefix that frees `needed` bytes; everything when nothing does. */
  function Cutoff(order: seq<Entry>, needed: int): seq<Entry> {
    if order == [] || needed <= 0 then [] else [order[0]] + Cutoff(order[1..], needed - order[0].nbytes)
  }

  /** `_take` takes at least one entry when there is one; the adaptive loop may take none. */
  function Taken(kind: Kind, order: seq<Entry>, needed: int): seq<Entry> {
    if kind.Adaptive? then Cutoff(order, needed)
    else if order == [] then [] else [order[0]] + Cutoff(order[1..], needed - order[0].nbytes)
  }

  /** Evicted keys, `None` when nothing could be evicted, and the entries that stay. */
  datatype Eviction = Eviction(victims: Option<seq<Key>>, rest: seq<Entry>)

  predicate Expires(kind: Kind) { kind.FixedTtl? || kind.Continuum? || kind.Adaptive? }

  function Current(kind: Kind, p: Probe, es: seq<Entry>): seq<Entry> {
    if Expires(kind) then Unexpired(es, p.view.now) else es
  }

  /** Give up candidates in eviction order until `needed` bytes are freed. */
  function GiveUp(kind: Kind, p: Probe, es: seq<Entry>, needed: int, protected: set<Key>): Eviction {
    var order := EvictionOrder(kind, p, Without(es, protected));
    var victims := EntryKeys(Taken(kind, order, needed));
    if victims == [] then Eviction(None, es) else Eviction(Some(victims), Without(es, KeySet(victims)))
  }

  /** `evict`: expiring policies first drop what has expired, and report none of it. */
  function Evicted(kind: Kind, p: Probe, es: seq<Entry>, needed: int, protected: set<Key>): Eviction {
    GiveUp(kind, p, Current(kind, p, es), needed, protected)
  }

  // ---- the object -----------------------------------------------------------

  class TierPolicy {
    const kind: Kind
    const capacity: nat
    var entries: seq<Entry>

    ghost predicate Valid()
      reads this
    {
      UniqueKeys(entries)
    }

    constructor (kind: Kind, capacity: nat)
      ensures Valid() && this.kind == kind && this.capacity == capacity && entries == []
    {
      this.kind, this.capacity, entries := kind, capacity, [];
    }

    method Occupancy() returns (n: nat)
      ensures n == Bytes(entries)
    {
      n := 0;
      for i := 0 to |entries|
        invariant n + Bytes(entries[i..]) == Bytes(entries)
      {
        assert entries[i..][1..] == entries[i + 1..];
        n := n + entries[i].nbytes;
      }
    }

    /** Position of a key, or the number of entries. */
    method Locate(k: Key) returns (i: nat)
      ensures i <= |entries| && (i < |entries| ==> entries[i].key == k)
      ensures forall j :: 0 <= j < i ==> entries[j].key != k
    {
      i := 0;
      while i < |entries| && entries[i].key != k
        invariant i <= |entries| && forall j :: 0 <= j < i ==> entries[j].key != k
      {
        i := i + 1;
      }
    }

    method Insert(item: Item, p: Probe)
      requires Valid()
      modifies this
      ensures Valid() && entries == InsertItem(kind, p, old(entries), item)
    {
      var i := Locate(item.key);
      if i == |entries| {
        entries := entries + [Entry(item.key, item.nbytes, p.view.now, p.view.now, 1, Never, Never)];
      } else {
        entries := entries[i := entries[i].(lastTouch := p.view.now, uses := entries[i].uses + 1)];
      }
      entries := entries[i := entries[i].(expiresAt := Expiry(kind, p, item.key, item.nbytes))];
    }

    method Touch(keys: seq<Key>, p: Probe)
      requires Valid()
      modifies this
      ensures Valid() && entries == TouchKeys(kind, p, old(entries), keys)
    {
      for n := 0 to |keys|
        invariant Valid() && TouchKeys(kind, p, entries, keys[n..]) == TouchKeys(kind, p, old(entries), keys)
      {
        assert keys[n..][1..] == keys[n + 1..];
        ghost var before := entries;
        var i := Locate(keys[n]);
        if i < |entries| { entries := entries[i := Touched(kind, p, entries[i])]; }
        assert entries == TouchKey(kind, p, before, keys[n]);
      }
    }

    method Remove(k: Key) returns (e: Option<Entry>)
      requires Valid()
      modifies this
      ensures Valid() && e == Find(old(entries), k) && entries == Without(old(entries), {k})
    {
      var i := Locate(k);
      RemoveAt(entries, k, i);
      if i == |entries| { return None; }
      e := Some(entries[i]);
      entries := entries[..i] + entries[i + 1..];
    }

    method Clear()
      modifies this
      ensures Valid() && entries == []
    {
      entries := [];
    }

    method AdmitChain(items: seq<Item>, p: Probe) returns (kept: seq<Item>)
      ensures kept == Admitted(kind, p, entries, capacity, items)
    {
      if !kind.Adaptive? { return items; }
      if items == [] { return []; }
      var occupancy := Occupancy();
      if occupancy as real / MaxInt(1, capacity) as real < 0.9 { return items; }
      var total, worth := Appraise(PricingOf(kind, p), items);
      var worst := if entries == [] then 0.0 else Worst(PricingOf(kind, p), entries);
      return if worth / MaxInt(1, total) as real >= worst then items else [];
    }

    /** Total bytes and worth of the items. */
    static method Appraise(price: Pricing, items: seq<Item>) returns (total: nat, worth: real)
      ensures total == ItemBytes(items) && worth == Worth(price, items)
    {
      total, worth := 0, 0.0;
      for i := 0 to |items|
        invariant total + ItemBytes(items[i..]) == ItemBytes(items)
        invariant worth + Worth(price, items[i..]) == Worth(price, items)
      {
        assert items[i..][1..] == items[i + 1..];
        total := total + items[i].nbytes;
        worth := worth + price(items[i].key, items[i].nbytes) * items[i].nbytes as real;
      }
    }

    /** `_take`: greedy best-effort eviction in the given order. */
    method Take(order: seq<Entry>, needed: int) returns (out: Option<seq<Key>>)
      requires Valid() && !kind.Adaptive?
      modifies this
      ensures Valid()
      ensures out.None? <==> Taken(kind, order, needed) == []
      ensures out.None? ==> entries == old(entries)
      ensures out.Some? ==> out.value == EntryKeys(Taken(kind, order, needed))
      ensures out.Some? ==> entries == Without(old(entries), KeySet(out.value))
    {
      if order == [] { return None; }
      var keys, _ := Choose(order[1..], needed - order[0].nbytes);
      keys := [order[0].key] + keys;
      assert keys == EntryKeys(Taken(kind, order, needed));
      DeleteAll(keys);
      return Some(keys);
    }

    /** Walk the entries in order until enough is freed. */
    static method Choose(order: seq<Entry>, needed: int) returns (out: seq<Key>, freed: nat)
      ensures out == EntryKeys(Cutoff(order, needed)) && freed == Bytes(Cutoff(order, needed))
    {
      var i := 0;
      out, freed := [], 0;
      ghost var taken := [];
      assert order[0..] == order;
      while i < |order| && freed < needed
        invariant i <= |order| && out == EntryKeys(taken) && freed == Bytes(taken)
        invariant taken + Cutoff(order[i..], needed - freed) == Cutoff(order, needed)
      {
        CutoffNext(taken, order[i..], needed - freed);
        assert order[i..][1..] == order[i + 1..];
        OneMoreTaken(taken, order[i]);
        out, freed, taken := out + [order[i].key], freed + order[i].nbytes, taken + [order[i]];
        i := i + 1;
      }
      CutoffDone(taken, order[i..], needed - freed);
    }

    /** The adaptive loops: walk the ranked chains, each from the leaf end, until enough is freed. */
    static method ChooseChains(ranked: seq<Group>, needed: int, v: View) returns (out: seq<Key>)
      ensures out == EntryKeys(Cutoff(LeafFirst(v, ranked), needed))
    {
      var c: nat, freed: nat := 0, 0;
      out := [];
      ghost var all, later, left := ChainKeys(v, ranked, needed), ChainKeys(v, ranked, needed), needed;
      assert ranked[0..] == ranked;
      while c < |ranked| && freed < needed
        invariant c <= |ranked| && left == needed - freed
        invariant out + later == all && later == ChainKeys(v, ranked[c..], left)
      {
        var keys, gain := Choose(StableSort(ranked[c].members, DepthOrder(v)), needed - freed);
        CutChainsNext(v, ranked, c, left, keys, gain);
        left, later := left - gain, ChainKeys(v, ranked[c + 1..], left - gain);
        NextKeys(out, keys, later, all);
        out, freed, c := out + keys, freed + gain, c + 1;
      }
      CutChainsDone(v, out, ranked[c..], left);
      CutChainsIsCutoff(v, ranked, needed);
    }

    method DeleteAll(keys: seq<Key>)
      requires Valid()
      modifies this
      ensures Valid() && entries == Without(old(entries), KeySet(keys))
    {
      WithoutNone(entries);
      assert KeySet(keys[..0]) == {};
      for i := 0 to |keys|
        invariant Valid() && entries == Without(old(entries), KeySet(keys[..i]))
      {
        WithoutUnion(old(entries), KeySet(keys[..i]), {keys[i]});
        assert KeySet(keys[..i + 1]) == KeySet(keys[..i]) + {keys[i]};
        var _ := Remove(keys[i]);
      }
      assert keys[..|keys|] == keys;
    }

    /** Group the candidates by chain. */
    method GroupChains(candidates: seq<Entry>, v: View) returns (chains: seq<Group>)
      ensures chains == Groups(v, candidates)
    {
      chains := [];
      assert candidates[..0] == [];
      for i := 0 to |candidates|
        invariant chains == Groups(v, candidates[..i])
      {
        assert candidates[..i + 1][..i] == candidates[..i];
        chains := AddTo(chains, ChainIdOf(v, candidates[i].key), candidates[i]);
      }
      assert candidates[..|candidates|] == candidates;
    }

    method Evict(needed: int, protected: set<Key>, p: Probe) returns (out: Option<seq<Key>>)
      requires Valid()
      modifies this
      ensures Valid()
      ensures Eviction(out, entries) == Evicted(kind, p, old(entries), needed, protected)
    {
      if Expires(kind) {
        UnexpiredSub(entries, p.view.now);
        entries := Unexpired(entries, p.view.now);
      }
      if kind.Adaptive? {
        out := EvictChains(needed, protected, p);
      } else {
        out := EvictRanked(needed, protected, p);
      }
    }

    /** Eviction by a rank of single entries. */
    method EvictRanked(needed: int, protected: set<Key>, p: Probe) returns (out: Option<seq<Key>>)
      requires Valid() && !kind.Adaptive?
      modifies this
      ensures Valid()
      ensures Eviction(out, entries) == GiveUp(kind, p, old(entries), needed, protected)
    {
      var candidates := Without(entries, protected);
      out := Take(StableSort(candidates, EntryOrder(kind)), needed);
    }

    /** The chain-aware eviction of the adaptive policy. */
    method EvictChains(needed: int, protected: set<Key>, p: Probe) returns (out: Option<seq<Key>>)
      requires Valid() && kind.Adaptive?
      modifies this
      ensures Valid()
      ensures Eviction(out, entries) == GiveUp(kind, p, old(entries), needed, protected)
    {
      var candidates := Without(entries, protected);
      if candidates == [] { return None; }
      var chains := GroupChains(candidates, p.view);
      var ranked := StableSort(chains, GroupOrder(kind, p));
      var keys := ChooseChains(ranked, needed, p.view);
      if keys == [] { return None; }
      DeleteAll(keys);
      return Some(keys);
    }
  }

  lemma {:induction false} BytesConcat(a: seq<Entry>, b: seq<Entry>)
    ensures Bytes(a + b) == Bytes(a) + Bytes(b)
  {
    if a == [] {
      assert a + b == b;
    } else {
      BytesConcat(a[1..], b);
      assert (a + b)[1..] == a[1..] + b;
    }
  }

  lemma {:induction false} CutoffConcat(a: seq<Entry>, b: seq<Entry>, needed: int)
    ensures Cutoff(a + b, needed) == Cutoff(a, needed) + Cutoff(b, needed - Bytes(Cutoff(a, needed)))
  {
    if a == [] {
      assert a + b == b;
    } else if needed > 0 {
      CutoffConcat(a[1..], b, needed - a[0].nbytes);
      assert (a + b)[1..] == a[1..] + b;
    }
  }

  /** One entry of the cut-off, one chain of it, and its end. */
  lemma CutoffNext(taken: seq<Entry>, rest: seq<Entry>, needed: int)
    requires rest != [] && needed > 0
    ensures taken + Cutoff(rest, needed) == taken + [rest[0]] + Cutoff(rest[1..], needed - rest[0].nbytes)
  {
  }

  /** The cut-off chain by chain. */
  ghost function CutChains(v: View, gs: seq<Group>, needed: int): seq<Entry> {
    if gs == [] || needed <= 0 then []
    else
      var x := Cutoff(StableSort(gs[0].members, DepthOrder(v)), needed);
      x + CutChains(v, gs[1..], needed - Bytes(x))
  }

  ghost function ChainKeys(v: View, gs: seq<Group>, needed: int): seq<Key> { EntryKeys(CutChains(v, gs, needed)) }

  lemma {:induction false} CutChainsNext(v: View, gs: seq<Group>, c: nat, needed: int, keys: seq<Key>, gain: nat)
    requires c < |gs| && needed > 0
    requires var x := Cutoff(StableSort(gs[c].members, DepthOrder(v)), needed); keys == EntryKeys(x) && gain == Bytes(x)
    ensures ChainKeys(v, gs[c..], needed) == keys + ChainKeys(v, gs[c + 1..], needed - gain)
  {
    var x := Cutoff(StableSort(gs[c].members, DepthOrder(v)), needed);
    assert gs[c..][1..] == gs[c + 1..];
    EntryKeysConcat(x, CutChains(v, gs[c + 1..], needed - gain));
  }

  lemma NextKeys(out: seq<Key>, keys: seq<Key>, later: seq<Key>, all: seq<Key>)
    requires out + (keys + later) == all
    ensures (out + keys) + later == all
  {
  }

  lemma CutChainsDone(v: View, out: seq<Key>, rest: seq<Group>, needed: int)
    requires rest == [] || needed <= 0
    ensures out + ChainKeys(v, rest, needed) == out
  {
  }

  lemma {:induction false} CutChainsIsCutoff(v: View, gs: seq<Group>, needed: int)
    ensures CutChains(v, gs, needed) == Cutoff(LeafFirst(v, gs), needed)
  {
    if gs != [] && needed > 0 {
      var chain, later := StableSort(gs[0].members, DepthOrder(v)), LeafFirst(v, gs[1..]);
      var x := Cutoff(chain, needed);
      CutChainsIsCutoff(v, gs[1..], needed - Bytes(x));
      assert LeafFirst(v, gs) == chain + later;
      CutoffConcat(chain, later, needed);
      assert CutChains(v, gs, needed) == x + CutChains(v, gs[1..], needed - Bytes(x));
    }
  }

  lemma {:induction false} OneMoreTaken(taken: seq<Entry>, e: Entry)
    ensures EntryKeys(taken + [e]) == EntryKeys(taken) + [e.key] && Bytes(taken + [e]) == Bytes(taken) + e.nbytes
  {
    BytesConcat(taken, [e]);
    assert Bytes([e]) == e.nbytes;
  }

  lemma {:induction false} CutoffDone(taken: seq<Entry>, rest: seq<Entry>, needed: int)
    requires rest == [] || needed <= 0
    ensures taken + Cutoff(rest, needed) == taken
  {
  }

  lemma EntryKeysConcat(a: seq<Entry>, b: seq<Entry>)
    ensures EntryKeys(a + b) == EntryKeys(a) + EntryKeys(b)
  {
  }

  // ---- lemmas about the dictionary ------------------------------------------

  lemma {:induction false} WithoutNone(es: seq<Entry>)
    ensures Without(es, {}) == es
  {
    if es != [] { WithoutNone(es[1..]); }
  }

  lemma {:induction false} WithoutSub(es: seq<Entry>, ks: set<Key>)
    ensures forall e :: e in Without(es, ks) <==> e in es && e.key !in ks
    ensures UniqueKeys(es) ==> UniqueKeys(Without(es, ks))
    ensures |Without(es, ks)| <= |es|
  {
    if es != [] {
      WithoutSub(es[1..], ks);
      var r := Without(es[1..], ks);
      if UniqueKeys(es) && es[0].key !in ks {
        forall j | 0 <= j < |r|
          ensures es[0].key != r[j].key
        {
          assert r[j] in es[1..];
        }
      }
    }
  }

  lemma {:induction false} UnexpiredSub(es: seq<Entry>, now: real)
    ensures forall e :: e in Unexpired(es, now) <==> e in es && At(now).Before(e.expiresAt)
    ensures UniqueKeys(es) ==> UniqueKeys(Unexpired(es, now))
  {
    if es != [] {
      UnexpiredSub(es[1..], now);
      var r := Unexpired(es[1..], now);
      if UniqueKeys(es) {
        forall j | 0 <= j < |r|
          ensures es[0].key != r[j].key
        {
          assert r[j] in es[1..];
        }
      }
    }
  }

  lemma {:induction false} WithoutUnion(es: seq<Entry>, a: set<Key>, b: set<Key>)
    ensures Without(Without(es, a), b) == Without(es, a + b)
  {
    if es != [] {
      WithoutUnion(es[1..], a, b);
      if es[0].key !in a {
        assert Without(es, a) == [es[0]] + Without(es[1..], a);
        assert Without(es, a)[1..] == Without(es[1..], a);
      } else {
        assert Without(es, a) == Without(es[1..], a);
      }
    }
  }

  /** Removing the entry at the position of a key, from a dictionary. */
  lemma {:induction false} RemoveAt(es: seq<Entry>, k: Key, i: nat)
    requires UniqueKeys(es) && i <= |es| && (i < |es| ==> es[i].key == k)
    requires forall j :: 0 <= j < i ==> es[j].key != k
    ensures i == |es| ==> Without(es, {k}) == es && Find(es, k) == None
    ensures i < |es| ==> Without(es, {k}) == es[..i] + es[i + 1..] && Find(es, k) == Some(es[i])
    ensures UniqueKeys(Without(es, {k}))
  {
    WithoutSub(es, {k});
    if i == |es| {
      Absent(es, k);
    } else {
      WithoutOne(es, k, i);
      var e := Find(es, k).value;
      var j :| 0 <= j < |es| && es[j] == e;
    }
  }

  lemma {:induction false} WithoutOne(es: seq<Entry>, k: Key, i: nat)
    requires i < |es| && forall j :: 0 <= j < |es| ==> (es[j].key == k <==> j == i)
    ensures Without(es, {k}) == es[..i] + es[i + 1..]
  {
    if i == 0 {
      Absent(es[1..], k);
      assert es[..0] + es[1..] == es[1..];
    } else {
      WithoutOne(es[1..], k, i - 1);
      assert es[..i] + es[i + 1..] == [es[0]] + (es[1..][..i - 1] + es[1..][i..]);
    }
  }

  lemma {:induction false} Absent(es: seq<Entry>, k: Key)
    requires !HasKey(es, k)
    ensures Without(es, {k}) == es
  {
    if es != [] { Absent(es[1..], k); }
  }
}
