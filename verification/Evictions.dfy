/** What one eviction round frees: enough or everything, and no more than it must. */
module Evictions {
  import opened Base
  import opened Sorting
  import opened Trace
  import opened Config
  import opened Prefix
  import opened Policies
  import opened Hbm
  import opened Replay
  import opened HostFacts
  import opened HbmInclusion

  // ---- the host tier --------------------------------------------------------

  /** The cut-off frees what is needed, or is the whole order; without its last entry it would not do. */
  lemma {:induction false} CutoffEnough(order: seq<Entry>, needed: int)
    ensures Bytes(Cutoff(order, needed)) >= needed || Cutoff(order, needed) == order
    ensures var cut := Cutoff(order, needed); cut != [] ==> Bytes(cut[..|cut| - 1]) < needed
  {
    if order != [] && needed > 0 {
      CutoffEnough(order[1..], needed - order[0].nbytes);
      var rest := Cutoff(order[1..], needed - order[0].nbytes);
      var cut := Cutoff(order, needed);
      assert cut == [order[0]] + rest && cut[1..] == rest;
      if rest != [] { assert cut[..|cut| - 1][1..] == rest[..|rest| - 1]; }
    }
  }

  lemma TakenEnough(kind: Kind, order: seq<Entry>, needed: int)
    ensures Bytes(Taken(kind, order, needed)) >= needed || Taken(kind, order, needed) == order
    ensures var taken := Taken(kind, order, needed);
            |taken| > (if kind.Adaptive? then 0 else 1) ==> Bytes(taken[..|taken| - 1]) < needed
    ensures Taken(kind, order, needed) == [] <==> order == [] || (kind.Adaptive? && needed <= 0)
  {
    CutoffEnough(order, needed);
    if order != [] {
      CutoffEnough(order[1..], needed - order[0].nbytes);
      var rest := Cutoff(order[1..], needed - order[0].nbytes);
      assert ([order[0]] + rest)[1..] == rest;
      if rest != [] { assert ([order[0]] + rest)[..|rest|][1..] == rest[..|rest| - 1]; }
    }
  }

  /** Every policy frees what was asked for, or gives up every unprotected entry that has not expired;
      and its last victim was needed. */
  lemma {:induction false} EvictFreesEnough(kind: Kind, p: Probe, es: seq<Entry>, needed: int, protected: set<Key>)
    requires UniqueKeys(es)
    ensures var vs, candidates := Victims(kind, p, es, needed, protected), Without(Current(kind, p, es), protected);
            && (Bytes(vs) >= needed || forall e :: e in candidates ==> e in vs)
            && (|vs| > (if kind.Adaptive? then 0 else 1) ==> Bytes(vs[..|vs| - 1]) < needed)
  {
    var candidates := Without(Current(kind, p, es), protected);
    UnexpiredSub(es, p.view.now);
    WithoutSub(Current(kind, p, es), protected);
    OrderIsPermutation(kind, p, candidates);
    PermutationUnique(candidates, EvictionOrder(kind, p, candidates));
    TakenEnough(kind, EvictionOrder(kind, p, candidates), needed);
  }

  predicate Alive(e: Entry, now: real) { At(now).Before(e.expiresAt) }

  /** Dropping what has expired changes nothing exactly when nothing has. */
  lemma {:induction false} UnexpiredIff(es: seq<Entry>, now: real)
    ensures Unexpired(es, now) == es <==> forall e :: e in es ==> Alive(e, now)
  {
    if forall e :: e in es ==> Alive(e, now) {
      if es != [] {
        assert es[0] in es && forall e :: e in es[1..] ==> e in es;
        UnexpiredIff(es[1..], now);
      }
    } else {
      UnexpiredSub(es, now);
    }
  }

  lemma {:induction false} NoneAlive(es: seq<Entry>, now: real)
    requires forall e :: e in es ==> !Alive(e, now)
    ensures Unexpired(es, now) == []
  {
    if es != [] {
      assert es[0] in es && forall e :: e in es[1..] ==> e in es;
      NoneAlive(es[1..], now);
    }
  }

  /** `None` comes back exactly when there is no candidate, or when the adaptive policy is asked for
      nothing.  The entries are then as before exactly when the policy drops nothing on its own or no
      entry has expired: otherwise the call is not atomic. */
  lemma {:induction false} NoneIff(kind: Kind, p: Probe, es: seq<Entry>, needed: int, protected: set<Key>)
    ensures var ev, current := Evicted(kind, p, es, needed, protected), Current(kind, p, es);
            && (ev.victims == None <==> Without(current, protected) == [] || (kind.Adaptive? && needed <= 0))
            && (ev.victims == None ==> ev.rest == current)
            && (current == es <==> !Expires(kind) || forall e :: e in es ==> Alive(e, p.view.now))
  {
    var candidates := Without(Current(kind, p, es), protected);
    UnexpiredIff(es, p.view.now);
    OrderIsPermutation(kind, p, candidates);
    var order := EvictionOrder(kind, p, candidates);
    SameEmptiness(order, candidates);
    TakenEnough(kind, order, needed);
    assert EntryKeys(Taken(kind, order, needed)) == [] <==> Taken(kind, order, needed) == [];
  }

  lemma SameEmptiness(a: seq<Entry>, b: seq<Entry>)
    requires multiset(a) == multiset(b)
    ensures a == [] <==> b == []
  {
    assert |multiset(a)| == |a| && |multiset(b)| == |b|;
  }

  // ---- the pool -------------------------------------------------------------

  /** The pool ends up within `over` bytes less, or holds nothing but protected blocks. */
  lemma {:induction false} ShedEnough(blocks: seq<Item>, protected: set<Key>, over: int)
    ensures ItemBytes(Shed(blocks, protected, over)) <= ItemBytes(blocks) - over
            || Unprotected(Shed(blocks, protected, over), protected) == []
  {
    if over > 0 && blocks != [] {
      if blocks[0].key in protected {
        ShedEnough(blocks[1..], protected, over);
        assert Shed(blocks, protected, over)[1..] == Shed(blocks[1..], protected, over);
      } else {
        ShedEnough(blocks[1..], protected, over - blocks[0].nbytes);
      }
    }
  }

  lemma StepPoolFits(cfg: SimConfig, ix: IndexState, hbm: seq<Item>, keys: seq<Key>)
    ensures var r := StepHbm(cfg, ix, hbm, keys);
            ItemBytes(r) <= cfg.HbmBytes() || Unprotected(r, KeySet(keys)) == []
  {
    var filled := Fill(hbm, PathItems(ix, keys));
    ShedEnough(filled, KeySet(keys), ItemBytes(filled) - cfg.HbmBytes());
  }

  /** After every turn the pool is within its capacity, or holds only blocks of that turn. */
  lemma {:induction false} PoolFits(cfg: SimConfig, kind: Kind, sched: Schedule, turns: seq<Turn>)
    requires turns != []
    ensures var hbm, last := Run(cfg, kind, sched, turns).hbm, turns[|turns| - 1];
            ItemBytes(hbm) <= cfg.HbmBytes() || Unprotected(hbm, KeySet(PathOf(cfg.Shape(), last))) == []
  {
    var s, turn := Run(cfg, kind, sched, turns[..|turns| - 1]), turns[|turns| - 1];
    OneTurnPool(cfg, kind, sched, s, turn);
    StepPoolFits(cfg, Touch(cfg.Shape(), s.control.ix, turn), s.hbm, PathOf(cfg.Shape(), turn));
  }
}
