/** Enlarging the HBM pool never costs recompute tokens.

    Two runs over the same trace that differ only in the size of the pool: after every turn the smaller
    pool's recency list is the recent end of the larger pool's, although the two may have stored a
    growing block at different sizes. */
module HbmInclusion {
  import opened Base
  import opened Trace
  import opened Config
  import opened Prefix
  import opened Leases
  import opened Policies
  import opened Hbm
  import opened Replay

  /** `small` is a suffix of `large` by key, and `large` holds each of its blocks at no larger size. */
  ghost predicate Covers(large: seq<Item>, small: seq<Item>) {
    && |small| <= |large|
    && forall i :: 0 <= i < |small| ==>
         var j := |large| - |small| + i;
         large[j].key == small[i].key && large[j].nbytes <= small[i].nbytes
  }

  /** No block is held at more bytes than the index gives it. */
  ghost predicate WithinIndex(ix: IndexState, blocks: seq<Item>) {
    forall i :: 0 <= i < |blocks| ==> blocks[i].nbytes <= ix.Bytes(blocks[i].key)
  }

  lemma CoversHolds(large: seq<Item>, small: seq<Item>, k: Key)
    requires Covers(large, small) && Holds(small, k)
    ensures Holds(large, k)
  {
    var i :| 0 <= i < |small| && small[i].key == k;
    assert large[|large| - |small| + i].key == k;
  }

  // ---- filling --------------------------------------------------------------

  /** Every item at the size it is stored with. */
  function AsStored(blocks: seq<Item>, items: seq<Item>): (r: seq<Item>)
    ensures |r| == |items| && forall i :: 0 <= i < |items| ==> r[i] == Stored(blocks, items[i])
  {
    seq(|items|, i requires 0 <= i < |items| => Stored(blocks, items[i]))
  }

  lemma {:induction false} RestConcat(a: seq<Item>, b: seq<Item>, ks: set<Key>)
    ensures Rest(a + b, ks) == Rest(a, ks) + Rest(b, ks)
  {
    if a == [] {
      assert a + b == b;
    } else {
      RestConcat(a[1..], b, ks);
      assert (a + b)[1..] == a[1..] + b && (a + b)[0] == a[0];
    }
  }

  lemma {:induction false} RestUnion(blocks: seq<Item>, a: set<Key>, b: set<Key>)
    ensures Rest(Rest(blocks, a), b) == Rest(blocks, a + b)
  {
    if blocks != [] {
      RestUnion(blocks[1..], a, b);
      if blocks[0].key !in a {
        assert Rest(blocks, a)[0] == blocks[0] && Rest(blocks, a)[1..] == Rest(blocks[1..], a);
      }
    }
  }

  lemma {:induction false} StoredAfterPlace(blocks: seq<Item>, x: Item, y: Item)
    requires x.key != y.key
    ensures Stored(Place(blocks, x), y) == Stored(blocks, y)
  {
    StoredInRest(blocks, Stored(blocks, x), y);
  }

  lemma {:induction false} StoredInRest(blocks: seq<Item>, last: Item, y: Item)
    requires last.key != y.key
    ensures Stored(Rest(blocks, {last.key}) + [last], y) == Stored(blocks, y)
  {
    if blocks == [] {
      assert Rest(blocks, {last.key}) + [last] == [last];
    } else {
      StoredInRest(blocks[1..], last, y);
      var rest := Rest(blocks[1..], {last.key});
      assert ([blocks[0]] + rest + [last])[1..] == rest + [last];
      assert Rest(blocks, {last.key}) == if blocks[0].key == last.key then rest else [blocks[0]] + rest;
    }
  }

  /** Filling moves the items to the recent end, in order. */
  lemma {:induction false} FillShape(blocks: seq<Item>, items: seq<Item>)
    requires UniqueItems(items)
    ensures Fill(blocks, items) == Rest(blocks, KeySet(ItemKeys(items))) + AsStored(blocks, items)
    decreases |items|
  {
    if items == [] {
      assert KeySet(ItemKeys(items)) == {};
      RestEmpty(blocks);
    } else {
      var placed, last := Place(blocks, items[0]), [Stored(blocks, items[0])];
      FillShape(placed, items[1..]);
      PlaceRest(blocks, items);
      PlaceTail(blocks, items);
      Associative(Rest(blocks, KeySet(ItemKeys(items))), last, AsStored(placed, items[1..]));
    }
  }

  lemma Associative<T>(a: seq<T>, b: seq<T>, c: seq<T>)
    ensures (a + b) + c == a + (b + c)
  {
  }

  lemma {:induction false} PlaceRest(blocks: seq<Item>, items: seq<Item>)
    requires UniqueItems(items) && items != []
    ensures Rest(Place(blocks, items[0]), KeySet(ItemKeys(items[1..])))
         == Rest(blocks, KeySet(ItemKeys(items))) + [Stored(blocks, items[0])]
  {
    var k, ks, last := items[0].key, KeySet(ItemKeys(items[1..])), Stored(blocks, items[0]);
    RestConcat(Rest(blocks, {k}), [last], ks);
    RestUnion(blocks, {k}, ks);
    ItemKeysCons(items);
    assert k !in ks;
    assert Rest([last], ks) == [last];
  }

  lemma {:induction false} PlaceTail(blocks: seq<Item>, items: seq<Item>)
    requires UniqueItems(items) && items != []
    ensures [Stored(blocks, items[0])] + AsStored(Place(blocks, items[0]), items[1..]) == AsStored(blocks, items)
  {
    var tail := AsStored(Place(blocks, items[0]), items[1..]);
    forall i | 0 <= i < |tail|
      ensures tail[i] == AsStored(blocks, items)[i + 1]
    {
      StoredAfterPlace(blocks, items[0], items[1..][i]);
    }
  }

  lemma ItemKeysCons(items: seq<Item>)
    requires items != []
    ensures KeySet(ItemKeys(items)) == {items[0].key} + KeySet(ItemKeys(items[1..]))
  {
    assert ItemKeys(items) == [items[0].key] + ItemKeys(items[1..]);
  }

  lemma {:induction false} RestEmpty(blocks: seq<Item>)
    ensures Rest(blocks, {}) == blocks
  {
    if blocks != [] { RestEmpty(blocks[1..]); }
  }

  lemma {:induction false} RestCovers(large: seq<Item>, small: seq<Item>, ks: set<Key>)
    requires Covers(large, small)
    ensures Covers(Rest(large, ks), Rest(small, ks))
    ensures |large| == |small| ==> |Rest(large, ks)| == |Rest(small, ks)|
  {
    if |large| > |small| {
      CoversTail(large, small);
      RestCovers(large[1..], small, ks);
      if large[0].key !in ks { CoversMore(large[0], Rest(large[1..], ks), Rest(small, ks)); }
    } else if small != [] {
      assert large[0].key == small[0].key && large[0].nbytes <= small[0].nbytes;
      CoversTails(large, small);
      RestCovers(large[1..], small[1..], ks);
      if large[0].key !in ks { CoversBoth(large[0], Rest(large[1..], ks), small[0], Rest(small[1..], ks)); }
    }
  }

  lemma CoversTail(large: seq<Item>, small: seq<Item>)
    requires Covers(large, small) && |large| > |small|
    ensures Covers(large[1..], small)
  {
  }

  lemma CoversTails(large: seq<Item>, small: seq<Item>)
    requires Covers(large, small) && |large| == |small| > 0
    ensures Covers(large[1..], small[1..])
  {
  }

  lemma CoversMore(x: Item, large: seq<Item>, small: seq<Item>)
    requires Covers(large, small)
    ensures Covers([x] + large, small)
  {
  }

  lemma CoversBoth(x: Item, large: seq<Item>, y: Item, small: seq<Item>)
    requires Covers(large, small) && |large| == |small| && x.key == y.key && x.nbytes <= y.nbytes
    ensures Covers([x] + large, [y] + small)
  {
  }

  lemma CoversConcat(a: seq<Item>, b: seq<Item>, c: seq<Item>, d: seq<Item>)
    requires Covers(a, b) && Covers(c, d) && |c| == |d|
    ensures Covers(a + c, b + d)
  {
  }

  lemma EqualLengthCovers(large: seq<Item>, small: seq<Item>)
    requires |large| == |small|
    requires forall i :: 0 <= i < |small| ==> large[i].key == small[i].key && large[i].nbytes <= small[i].nbytes
    ensures Covers(large, small)
  {
  }

  lemma PlacedCovers(ix: IndexState, large: seq<Item>, small: seq<Item>, items: seq<Item>)
    requires Covers(large, small) && UniqueItems(large) && UniqueItems(small) && WithinIndex(ix, large)
    requires forall i :: 0 <= i < |items| ==> items[i].nbytes == ix.Bytes(items[i].key)
    ensures Covers(AsStored(large, items), AsStored(small, items))
  {
    var a, b := AsStored(large, items), AsStored(small, items);
    forall i | 0 <= i < |b|
      ensures a[i].key == b[i].key && a[i].nbytes <= b[i].nbytes
    {
      StoredCovers(ix, large, small, items[i]);
    }
    EqualLengthCovers(a, b);
  }

  lemma {:induction false} StoredCovers(ix: IndexState, large: seq<Item>, small: seq<Item>, item: Item)
    requires Covers(large, small) && UniqueItems(large) && UniqueItems(small) && WithinIndex(ix, large)
    requires item.nbytes == ix.Bytes(item.key)
    ensures Stored(large, item).nbytes <= Stored(small, item).nbytes
  {
    if j :| 0 <= j < |small| && small[j].key == item.key {
      StoredIs(small, item, j);
      StoredIs(large, item, |large| - |small| + j);
    } else {
      StoredNew(small, item);
      if l :| 0 <= l < |large| && large[l].key == item.key {
        StoredIs(large, item, l);
      } else {
        StoredNew(large, item);
      }
    }
  }

  // ---- shedding -------------------------------------------------------------

  /** What stays of `old'` when its oldest blocks are dropped until it fits beside `kept` bytes. */
  function Trim(old': seq<Item>, kept: nat, capacity: nat): seq<Item> {
    if ItemBytes(old') + kept <= capacity || old' == [] then old' else Trim(old'[1..], kept, capacity)
  }

  lemma {:induction false} ShedIsTrim(old': seq<Item>, path: seq<Item>, protected: set<Key>, capacity: nat)
    requires forall i :: 0 <= i < |old'| ==> old'[i].key !in protected
    requires forall i :: 0 <= i < |path| ==> path[i].key in protected
    ensures Shed(old' + path, protected, ItemBytes(old' + path) - capacity)
        == Trim(old', ItemBytes(path), capacity) + path
  {
    ItemBytesConcat(old', path);
    var over := ItemBytes(old' + path) - capacity;
    if old' == [] {
      assert old' + path == path;
      AllProtected(path, protected, over);
    } else if over > 0 {
      assert (old' + path)[1..] == old'[1..] + path && (old' + path)[0] == old'[0];
      ItemBytesConcat(old'[1..], path);
      ShedIsTrim(old'[1..], path, protected, capacity);
    }
  }

  lemma {:induction false} AllProtected(path: seq<Item>, protected: set<Key>, over: int)
    requires forall i :: 0 <= i < |path| ==> path[i].key in protected
    ensures Shed(path, protected, over) == path
  {
    if path != [] && over > 0 { AllProtected(path[1..], protected, over); }
  }

  lemma {:induction false} CoversBytes(large: seq<Item>, small: seq<Item>)
    requires Covers(large, small) && |large| == |small|
    ensures ItemBytes(large) <= ItemBytes(small)
  {
    if large != [] {
      assert large[0].nbytes <= small[0].nbytes;
      CoversBytes(large[1..], small[1..]);
    }
  }

  lemma {:induction false} TrimIsSuffix(a: seq<Item>, kept: nat, capacity: nat)
    ensures |Trim(a, kept, capacity)| <= |a|
    ensures Trim(a, kept, capacity) == a[|a| - |Trim(a, kept, capacity)|..]
  {
    if ItemBytes(a) + kept <= capacity || a == [] {
    } else {
      TrimIsSuffix(a[1..], kept, capacity);
    }
  }

  lemma {:induction false} TrimCovers(large: seq<Item>, keptL: nat, capL: nat, small: seq<Item>, keptS: nat, capS: nat)
    requires Covers(large, small) && keptL <= keptS && capS <= capL
    ensures Covers(Trim(large, keptL, capL), Trim(small, keptS, capS))
  {
    if ItemBytes(large) + keptL <= capL || large == [] {
      TrimIsSuffix(small, keptS, capS);
    } else if |large| > |small| {
      TrimCovers(large[1..], keptL, capL, small, keptS, capS);
    } else {
      CoversBytes(large, small);
      TrimCovers(large[1..], keptL, capL, small[1..], keptS, capS);
    }
  }

  // ---- one turn -------------------------------------------------------------

  lemma {:induction false} RestApart(blocks: seq<Item>, ks: set<Key>)
    ensures forall b :: b in Rest(blocks, ks) <==> b in blocks && b.key !in ks
    ensures UniqueItems(blocks) ==> UniqueItems(Rest(blocks, ks))
  {
    if blocks != [] {
      RestApart(blocks[1..], ks);
      var r := Rest(blocks[1..], ks);
      if UniqueItems(blocks) {
        forall j | 0 <= j < |r|
          ensures blocks[0].key != r[j].key
        {
          assert r[j] in blocks[1..];
        }
      }
    }
  }

  lemma PathShape(ix: IndexState, hbm: seq<Item>, keys: seq<Key>)
    requires Distinct(keys)
    ensures UniqueItems(PathItems(ix, keys)) && ItemKeys(PathItems(ix, keys)) == keys
    ensures forall i :: 0 <= i < |keys| ==> AsStored(hbm, PathItems(ix, keys))[i].key == keys[i]
    ensures UniqueItems(AsStored(hbm, PathItems(ix, keys)))
  {
  }

  /** The pool after a turn: the trimmed rest of the pool, and then the path. */
  lemma {:induction false} PoolShape(cfg: SimConfig, ix: IndexState, hbm: seq<Item>, keys: seq<Key>)
    requires UniqueItems(hbm) && Distinct(keys)
    ensures var path, rest := AsStored(hbm, PathItems(ix, keys)), Rest(hbm, KeySet(keys));
            StepHbm(cfg, ix, hbm, keys) == Trim(rest, ItemBytes(path), cfg.HbmBytes()) + path
    ensures UniqueItems(StepHbm(cfg, ix, hbm, keys))
  {
    var path, rest := AsStored(hbm, PathItems(ix, keys)), Rest(hbm, KeySet(keys));
    PathShape(ix, hbm, keys);
    FillShape(hbm, PathItems(ix, keys));
    assert forall i :: 0 <= i < |path| ==> keys[i] in KeySet(keys);
    RestOutside(hbm, KeySet(keys));
    TrimmedShape(rest, path, KeySet(keys), cfg.HbmBytes());
  }

  /** Shedding an unprotected rest followed by a protected path trims the rest and keeps keys unique. */
  lemma TrimmedShape(rest: seq<Item>, path: seq<Item>, ks: set<Key>, capacity: nat)
    requires UniqueItems(rest) && UniqueItems(path)
    requires forall i :: 0 <= i < |rest| ==> rest[i].key !in ks
    requires forall i :: 0 <= i < |path| ==> path[i].key in ks
    ensures Shed(rest + path, ks, ItemBytes(rest + path) - capacity) == Trim(rest, ItemBytes(path), capacity) + path
    ensures UniqueItems(Trim(rest, ItemBytes(path), capacity) + path)
  {
    ShedIsTrim(rest, path, ks, capacity);
    TrimIsSuffix(rest, ItemBytes(path), capacity);
    UniqueConcat(Trim(rest, ItemBytes(path), capacity), path, ks);
  }

  lemma {:induction false} RestOutside(hbm: seq<Item>, ks: set<Key>)
    requires UniqueItems(hbm)
    ensures forall i :: 0 <= i < |Rest(hbm, ks)| ==> Rest(hbm, ks)[i].key !in ks
    ensures UniqueItems(Rest(hbm, ks))
  {
    RestApart(hbm, ks);
    forall i | 0 <= i < |Rest(hbm, ks)|
      ensures Rest(hbm, ks)[i].key !in ks
    {
      assert Rest(hbm, ks)[i] in Rest(hbm, ks);
    }
  }

  lemma UniqueConcat(a: seq<Item>, b: seq<Item>, ks: set<Key>)
    requires UniqueItems(a) && UniqueItems(b)
    requires forall i :: 0 <= i < |a| ==> a[i].key !in ks
    requires forall i :: 0 <= i < |b| ==> b[i].key in ks
    ensures UniqueItems(a + b)
  {
  }

  lemma PoolWithin(cfg: SimConfig, ix: IndexState, hbm: seq<Item>, keys: seq<Key>)
    requires UniqueItems(hbm) && Distinct(keys) && WithinIndex(ix, hbm)
    ensures WithinIndex(ix, StepHbm(cfg, ix, hbm, keys))
  {
    PoolShape(cfg, ix, hbm, keys);
    var path, rest := AsStored(hbm, PathItems(ix, keys)), Rest(hbm, KeySet(keys));
    var trimmed := Trim(rest, ItemBytes(path), cfg.HbmBytes());
    TrimIsSuffix(rest, ItemBytes(path), cfg.HbmBytes());
    RestApart(hbm, KeySet(keys));
    forall i | 0 <= i < |trimmed|
      ensures trimmed[i].nbytes <= ix.Bytes(trimmed[i].key)
    {
      assert trimmed[i] in rest;
    }
    forall i | 0 <= i < |path|
      ensures path[i].nbytes <= ix.Bytes(path[i].key)
    {
      var x := PathItems(ix, keys)[i];
      if l :| 0 <= l < |hbm| && hbm[l].key == x.key { StoredIs(hbm, x, l); } else { StoredNew(hbm, x); }
    }
  }

  lemma WithinGrows(a: IndexState, b: IndexState, hbm: seq<Item>)
    requires WithinIndex(a, hbm) && Grown(a, b)
    ensures WithinIndex(b, hbm)
  {
  }

  /** One turn keeps the smaller pool a suffix of the larger one. */
  lemma PoolCovers(small: SimConfig, large: SimConfig, ix: IndexState, hbmL: seq<Item>, hbmS: seq<Item>, keys: seq<Key>)
    requires small.HbmBytes() <= large.HbmBytes()
    requires UniqueItems(hbmL) && UniqueItems(hbmS) && Distinct(keys) && WithinIndex(ix, hbmL) && Covers(hbmL, hbmS)
    ensures Covers(StepHbm(large, ix, hbmL, keys), StepHbm(small, ix, hbmS, keys))
  {
    var items := PathItems(ix, keys);
    PoolShape(large, ix, hbmL, keys);
    PoolShape(small, ix, hbmS, keys);
    var pathL, pathS := AsStored(hbmL, items), AsStored(hbmS, items);
    PlacedCovers(ix, hbmL, hbmS, items);
    CoversBytes(pathL, pathS);
    RestCovers(hbmL, hbmS, KeySet(keys));
    var restL, restS := Rest(hbmL, KeySet(keys)), Rest(hbmS, KeySet(keys));
    TrimCovers(restL, ItemBytes(pathL), large.HbmBytes(), restS, ItemBytes(pathS), small.HbmBytes());
    CoversConcat(Trim(restL, ItemBytes(pathL), large.HbmBytes()), Trim(restS, ItemBytes(pathS), small.HbmBytes()),
        pathL, pathS);
  }

  /** A pool that holds more serves a prefix that is no shorter. */
  lemma {:induction false} ServeCovers(window: real, hbmL: seq<Item>, leftL: map<Key, real>,
                                       hbmS: seq<Item>, leftS: map<Key, real>, es: seq<Entry>, keys: seq<Key>,
                                           now: real)
    requires forall k :: Holds(hbmS, k) ==> Holds(hbmL, k)
    ensures Serve(window, hbmS, leftS, es, keys, now).cut <= Serve(window, hbmL, leftL, es, keys, now).cut
  {
    if keys != [] { ServeCovers(window, hbmL, leftL, hbmS, leftS, es, keys[1..], now); }
  }

  lemma {:induction false} TokensShrink(ix: IndexState, keys: seq<Key>, i: nat, j: nat)
    requires i <= j <= |keys|
    ensures TokensOf(ix, keys[j..]) <= TokensOf(ix, keys[i..])
  {
    TokensSuffix(ix, keys[i..], j - i);
    assert keys[i..][j - i..] == keys[j..];
  }

  /** What the runs of the two pools keep. */
  ghost predicate Nested(cfg: SimConfig, l: Sim, s: Sim) {
    && l.control == s.control && Sound(cfg.Shape(), l.control.ix)
    && PoolsNested(l.control.ix, l.hbm, s.hbm)
    && NoMoreRecompute(l.metrics, s.metrics)
  }

  ghost predicate NoMoreRecompute(a: seq<Metric>, b: seq<Metric>) {
    |a| == |b| && forall i :: 0 <= i < |a| ==> a[i].recompute <= b[i].recompute
  }

  lemma TurnRecomputesLess(small: SimConfig, large: SimConfig, l: Sim, s: Sim, turn: Turn)
    requires large == small.(hbmPoolTokens := large.hbmPoolTokens) && l.control == s.control && Covers(l.hbm, s.hbm)
    ensures MetricOf(large, l, turn).recompute <= MetricOf(small, s, turn).recompute
  {
    forall k | Holds(s.hbm, k)
      ensures Holds(l.hbm, k)
    {
      CoversHolds(l.hbm, s.hbm, k);
    }
    var keys := PathOf(small.Shape(), turn);
    ServeCovers(small.thrashWindow, l.hbm, l.leftHbm, s.hbm, s.leftHbm, s.control.host.entries, keys, turn.t);
    TokensShrink(Touch(small.Shape(), s.control.ix, turn), keys, ServeTurn(small, s, turn).cut,
        ServeTurn(large, l, turn).cut);
  }

  lemma OneTurnPool(cfg: SimConfig, kind: Kind, sched: Schedule, s: Sim, turn: Turn)
    ensures OneTurn(cfg, kind, sched, s, turn).hbm
         == StepHbm(cfg, Touch(cfg.Shape(), s.control.ix, turn), s.hbm, PathOf(cfg.Shape(), turn))
    ensures OneTurn(cfg, kind, sched, s, turn).control.ix == Touch(cfg.Shape(), s.control.ix, turn)
  {
  }

  /** The pools of the two runs, for one turn. */
  ghost predicate PoolsNested(ix: IndexState, hbmL: seq<Item>, hbmS: seq<Item>) {
    UniqueItems(hbmL) && UniqueItems(hbmS) && WithinIndex(ix, hbmL) && Covers(hbmL, hbmS)
  }

  lemma StepPools(small: SimConfig, large: SimConfig, ix: IndexState, turn: Turn, hbmL: seq<Item>, hbmS: seq<Item>)
    requires small.HbmBytes() <= large.HbmBytes() && Sound(small.Shape(), ix) && PoolsNested(ix, hbmL, hbmS)
    ensures var r, keys := Touch(small.Shape(), ix, turn), PathOf(small.Shape(), turn);
            PoolsNested(r, StepHbm(large, r, hbmL, keys), StepHbm(small, r, hbmS, keys))
  {
    var r, keys := Touch(small.Shape(), ix, turn), PathOf(small.Shape(), turn);
    TouchGrows(small.Shape(), ix, turn);
    WithinGrows(ix, r, hbmL);
    PoolShape(large, r, hbmL, keys);
    PoolShape(small, r, hbmS, keys);
    PoolWithin(large, r, hbmL, keys);
    PoolCovers(small, large, r, hbmL, hbmS, keys);
  }

  lemma TurnNested(small: SimConfig, large: SimConfig, kind: Kind, sched: Schedule, l: Sim, s: Sim, turn: Turn)
    requires large == small.(hbmPoolTokens := large.hbmPoolTokens) && small.HbmBytes() <= large.HbmBytes()
    requires Nested(small, l, s)
    ensures Nested(small, OneTurn(large, kind, sched, l, turn), OneTurn(small, kind, sched, s, turn))
  {
    ControlNested(small, large, kind, sched, l, s, turn);
    PoolNested(small, large, kind, sched, l, s, turn);
    MetricsNested(small, large, kind, sched, l, s, turn);
  }

  lemma SameControl(small: SimConfig, large: SimConfig, kind: Kind, sched: Schedule, c: Control, turn: Turn)
    requires large == small.(hbmPoolTokens := large.hbmPoolTokens)
    ensures StepControl(large, kind, sched, c, turn) == StepControl(small, kind, sched, c, turn)
  {
    assert ProbeOf(large, c, turn) == ProbeOf(small, c, turn);
  }

  lemma ControlNested(small: SimConfig, large: SimConfig, kind: Kind, sched: Schedule, l: Sim, s: Sim, turn: Turn)
    requires large == small.(hbmPoolTokens := large.hbmPoolTokens) && l.control == s.control
    requires Sound(small.Shape(), l.control.ix)
    ensures var x, y := OneTurn(large, kind, sched, l, turn), OneTurn(small, kind, sched, s, turn);
            x.control == y.control && Sound(small.Shape(), x.control.ix)
  {
    SameControl(small, large, kind, sched, l.control, turn);
    OneTurnParts(large, kind, sched, l, turn);
    OneTurnParts(small, kind, sched, s, turn);
    TouchSound(small.Shape(), l.control.ix, turn);
    OneTurnPool(small, kind, sched, s, turn);
  }

  lemma PoolNested(small: SimConfig, large: SimConfig, kind: Kind, sched: Schedule, l: Sim, s: Sim, turn: Turn)
    requires large == small.(hbmPoolTokens := large.hbmPoolTokens) && small.HbmBytes() <= large.HbmBytes()
    requires l.control == s.control && Sound(small.Shape(), l.control.ix) && PoolsNested(l.control.ix, l.hbm, s.hbm)
    ensures var x, y := OneTurn(large, kind, sched, l, turn), OneTurn(small, kind, sched, s, turn);
            PoolsNested(x.control.ix, x.hbm, y.hbm)
  {
    OneTurnPool(large, kind, sched, l, turn);
    OneTurnPool(small, kind, sched, s, turn);
    StepPools(small, large, l.control.ix, turn, l.hbm, s.hbm);
  }

  lemma MetricsNested(small: SimConfig, large: SimConfig, kind: Kind, sched: Schedule, l: Sim, s: Sim, turn: Turn)
    requires large == small.(hbmPoolTokens := large.hbmPoolTokens) && l.control == s.control && Covers(l.hbm, s.hbm)
    requires NoMoreRecompute(l.metrics, s.metrics)
    ensures NoMoreRecompute(OneTurn(large, kind, sched, l, turn).metrics, OneTurn(small, kind, sched, s, turn).metrics)
  {
    OneTurnParts(large, kind, sched, l, turn);
    OneTurnParts(small, kind, sched, s, turn);
    TurnRecomputesLess(small, large, l, s, turn);
    NoMoreAdded(l.metrics, s.metrics, MetricOf(large, l, turn), MetricOf(small, s, turn));
  }

  lemma NoMoreAdded(a: seq<Metric>, b: seq<Metric>, m: Metric, n: Metric)
    requires NoMoreRecompute(a, b) && m.recompute <= n.recompute
    ensures NoMoreRecompute(a + [m], b + [n])
  {
  }

  lemma FreshNested(cfg: SimConfig)
    ensures Nested(cfg, FRESH, FRESH)
  {
  }

  /** For every trace and every policy: with a larger HBM pool the index and the host tier are the same,
      the smaller pool is a suffix of the larger one, and no turn recomputes more tokens. */
  lemma {:induction false} LargerPoolRecomputesLess(cfg: SimConfig, kind: Kind, sched: Schedule, turns: seq<Turn>,
          pool: nat)
    requires pool >= cfg.hbmPoolTokens
    ensures Nested(cfg, Run(cfg.(hbmPoolTokens := pool), kind, sched, turns), Run(cfg, kind, sched, turns))
  {
    if turns == [] {
      FreshNested(cfg);
    } else {
      var n, large := |turns| - 1, cfg.(hbmPoolTokens := pool);
      LargerPoolRecomputesLess(cfg, kind, sched, turns[..n], pool);
      BytesMono(cfg.cost, cfg.hbmPoolTokens, pool);
      TurnNested(cfg, large, kind, sched, Run(large, kind, sched, turns[..n]), Run(cfg, kind, sched, turns[..n]),
          turns[n]);
    }
  }

  lemma {:induction false} TotalRecomputeMono(a: seq<Metric>, b: seq<Metric>)
    requires |a| == |b| && forall i :: 0 <= i < |a| ==> a[i].recompute <= b[i].recompute
    ensures TotalRecompute(a) <= TotalRecompute(b)
  {
    if a != [] { TotalRecomputeMono(a[1..], b[1..]); }
  }

  /** So the report of the larger pool never shows more recompute tokens or prefill seconds. */
  lemma {:induction false} LargerPoolReportsLess(cfg: SimConfig, kind: Kind, sched: Schedule, turns: seq<Turn>,
          pool: nat)
    requires pool >= cfg.hbmPoolTokens
    ensures var large := cfg.(hbmPoolTokens := pool);
            var l, s := ReportOf(large, Run(large, kind, sched, turns)), ReportOf(cfg, Run(cfg, kind, sched, turns));
            l.recomputeTokens <= s.recomputeTokens && l.prefillSeconds <= s.prefillSeconds
  {
    var large := cfg.(hbmPoolTokens := pool);
    LargerPoolRecomputesLess(cfg, kind, sched, turns, pool);
    var a, b := Run(large, kind, sched, turns).metrics, Run(cfg, kind, sched, turns).metrics;
    TotalRecomputeMono(a, b);
    RecomputeMono(cfg.cost, TotalRecompute(a) as real, TotalRecompute(b) as real);
  }

  lemma RecomputeMono(c: CostModel, x: real, y: real)
    requires x <= y
    ensures c.RecomputeSeconds(x) <= c.RecomputeSeconds(y)
  {
    var r := c.prefillRate;
    assert y / r - x / r == (y - x) / r;
    assert (y - x) / r >= 0.0;
  }
}
