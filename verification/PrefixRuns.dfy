/** What a whole turn under the adaptive policy does to the resident prefixes of live sessions.

    Every round of every run meets the conditions of module `ChainEviction`.  So the sessions that wait
    keep their prefixes as long as the round does not reach the chains of shared blocks, and a session
    that is served can lose blocks of its own path to make room for later ones. */
module PrefixRuns {
  import opened Base
  import opened Trace
  import opened Config
  import opened Prefix
  import opened Leases
  import opened Policies
  import opened Replay
  import opened HostFacts
  import opened Evictions
  import opened Lifetimes
  import opened ChainEviction
  import opened PrefixKept
  import Belady
  import Overflow
  import Uncontended

  // ---- every round is open --------------------------------------------------

  /** A turn of a run of the adaptive policy, as its round finds it: the index is sound, no
      resident is protected or expired, and the session that is served is live. */
  ghost predicate Ready(cfg: SimConfig, kind: Kind, c: Control, turn: Turn) {
    var p, es := ProbeOf(cfg, c, turn), c.host.entries;
    && Sound(cfg.Shape(), p.view.ix) && Current(kind, p, es) == es && UniqueKeys(es)
    && Open(kind, p, es, KeySet(ItemKeys(FreshBlocks(cfg, kind, c, turn))))
    && Live(p.view, turn.session) && p.view.ix.Path(turn.session) == PathOf(cfg.Shape(), turn)
  }

  /** So is every turn of every run. */
  lemma {:induction false} EveryRoundOpen(cfg: SimConfig, kind: Kind, sched: Schedule, turns: seq<Turn>, turn: Turn)
    requires kind.Adaptive?
    ensures Ready(cfg, kind, RunControl(cfg, kind, sched, turns), turn)
  {
    var c := RunControl(cfg, kind, sched, turns);
    var p, es, keys := ProbeOf(cfg, c, turn), c.host.entries, PathOf(cfg.Shape(), turn);
    RunHoused(cfg, kind, sched, turns);
    TouchSound(cfg.Shape(), c.ix, turn);
    NothingExpires(cfg, kind, sched, turns, turn);
    Round(kind, p, es, keys);
    FreshUnprotected(kind, p, es, FreshBlocks(cfg, kind, c, turn));
  }

  /** The round takes no chain of shared blocks. */
  ghost predicate SparesShared(cfg: SimConfig, kind: Kind, c: Control, turn: Turn) {
    var p, es := ProbeOf(cfg, c, turn), c.host.entries;
    forall u :: u in es && u.key in GivenUp(cfg, kind, c, turn) ==> !SharedChain(p, es, u)
  }

  /** What the round gives up is gone, and what is gone was given up. */
  lemma GivenUpIsGone(cfg: SimConfig, kind: Kind, c: Control, turn: Turn, k: Key)
    requires Ready(cfg, kind, c, turn) && HasKey(c.host.entries, k)
    ensures HasKey(RoundOf(cfg, kind, c, turn).rest, k) <==> k !in GivenUp(cfg, kind, c, turn)
  {
    var p, es := ProbeOf(cfg, c, turn), c.host.entries;
    var incoming, needed := FreshBlocks(cfg, kind, c, turn), Needed(cfg, kind, c, turn);
    if incoming != [] && needed > 0 {
      var protected := KeySet(ItemKeys(incoming));
      var vs, rest := Victims(kind, p, es, needed, protected), Evicted(kind, p, es, needed, protected).rest;
      VictimKeysAre(kind, p, es, needed, protected);
      RestIsSurvivors(kind, p, es, needed, protected);
      VictimsAreResidents(kind, p, es, needed, protected);
      var i :| 0 <= i < |es| && es[i].key == k;
      VictimKey(es, vs, es[i]);
      if es[i] in vs { GoneKey(rest, es, es[i]); } else { KeyOfMember(rest, es[i]); }
    }
  }

  lemma VictimKeysAre(kind: Kind, p: Probe, es: seq<Entry>, needed: int, protected: set<Key>)
    ensures var vs, ev := Victims(kind, p, es, needed, protected), Evicted(kind, p, es, needed, protected);
            (if ev.victims.Some? then ev.victims.value else []) == EntryKeys(vs)
  {
  }

  /** The round keeps the prefix of a live session. */
  lemma RoundKeeps(cfg: SimConfig, kind: Kind, c: Control, turn: Turn, s: Session)
    requires Ready(cfg, kind, c, turn) && SparesShared(cfg, kind, c, turn)
    requires var v := ProbeOf(cfg, c, turn).view; Live(v, s) && PrefixHeld(c.host.entries, v.ix.Path(s))
    ensures PrefixHeld(RoundOf(cfg, kind, c, turn).rest, ProbeOf(cfg, c, turn).view.ix.Path(s))
  {
    var p, es := ProbeOf(cfg, c, turn), c.host.entries;
    var incoming, needed := FreshBlocks(cfg, kind, c, turn), Needed(cfg, kind, c, turn);
    if incoming != [] && needed > 0 {
      var protected := KeySet(ItemKeys(incoming));
      VictimsSpare(cfg, kind, c, turn);
      var n := HeldUpTo(es, p.view.ix.Path(s), 0);
      var left := PrefixesSurvive(cfg.Shape(), kind, p, es, needed, protected, s, n);
      PrefixIsHeld(RoundOf(cfg, kind, c, turn).rest, p.view.ix.Path(s), left);
    }
  }

  lemma VictimsSpare(cfg: SimConfig, kind: Kind, c: Control, turn: Turn)
    requires Ready(cfg, kind, c, turn) && SparesShared(cfg, kind, c, turn)
    requires FreshBlocks(cfg, kind, c, turn) != [] && Needed(cfg, kind, c, turn) > 0
    ensures var p, protected := ProbeOf(cfg, c, turn), KeySet(ItemKeys(FreshBlocks(cfg, kind, c, turn)));
            forall u :: u in Victims(kind, p, c.host.entries, Needed(cfg, kind, c, turn), protected) ==>
              !SharedChain(p, c.host.entries, u)
  {
    var p, es, protected := ProbeOf(cfg, c, turn), c.host.entries, KeySet(ItemKeys(FreshBlocks(cfg, kind, c, turn)));
    var vs := Victims(kind, p, es, Needed(cfg, kind, c, turn), protected);
    VictimsAreResidents(kind, p, es, Needed(cfg, kind, c, turn), protected);
    VictimKeysAre(kind, p, es, Needed(cfg, kind, c, turn), protected);
    forall u | u in vs
      ensures !SharedChain(p, es, u)
    {
      VictimKey(es, vs, u);
    }
  }

  // ---- the sessions that wait -----------------------------------------------

  /** A shared block on the paths of two live sessions is not given up. */
  lemma CommonIsSpared(cfg: SimConfig, kind: Kind, c: Control, turn: Turn, s: Session, k: Key)
    requires Ready(cfg, kind, c, turn) && SparesShared(cfg, kind, c, turn) && s != turn.session && k.Shared?
    requires var v := ProbeOf(cfg, c, turn).view; Live(v, s) && k in v.ix.Path(s) && k in PathOf(cfg.Shape(), turn)
    requires HasKey(c.host.entries, k)
    ensures k !in GivenUp(cfg, kind, c, turn)
  {
    var p, es := ProbeOf(cfg, c, turn), c.host.entries;
    var i :| 0 <= i < |es| && es[i].key == k;
    CommonIsRoot(cfg.Shape(), p.view, s, turn.session, k);
    RootIsShared(p, es, es[i]);
  }

  lemma CommonIsRoot(geo: Geometry, v: View, s: Session, t: Session, k: Key)
    requires Sound(geo, v.ix) && Live(v, s) && Live(v, t) && s != t && k in v.ix.Path(s) && k in v.ix.Path(t)
    ensures k in v.ix.blocks && ChainIdOf(v, k) == Root(k) && v.ix.blocks[k].shared == k.Shared?
  {
    assert BlockSized(geo, k, v.ix.blocks[k]);
    Pair(LiveLeases(v.ix, k, v.now), s, t);
  }

  /** A shared block that several live sessions lease is a chain of shared blocks. */
  lemma RootIsShared(p: Probe, es: seq<Entry>, u: Entry)
    requires UniqueKeys(es) && u in es && ChainOfEntry(p, u) == Root(u.key)
    requires u.key in p.view.ix.blocks && p.view.ix.blocks[u.key].shared
    ensures SharedChain(p, es, u)
  {
    MatesAre(p.view, es, ChainOfEntry(p, u));
    var mates := Mates(p.view, es, ChainOfEntry(p, u));
    forall i | 0 <= i < |mates|
      ensures mates[i].key == u.key
    {
      assert mates[i] in mates;
    }
  }

  /** A block of a waiting session that comes before one stored for the turn is held after it. */
  lemma EarlierHeld(cfg: SimConfig, kind: Kind, sched: Schedule, c: Control, turn: Turn, s: Session, i: nat, j: nat)
    requires Ready(cfg, kind, c, turn) && SparesShared(cfg, kind, c, turn) && s != turn.session
    requires var v := ProbeOf(cfg, c, turn).view; Live(v, s) && i < j < |v.ix.Path(s)|
    requires ProbeOf(cfg, c, turn).view.ix.Path(s)[j] in ItemKeys(StoredBlocks(cfg, kind, c, turn))
    ensures var k := ProbeOf(cfg, c, turn).view.ix.Path(s)[i];
            HasKey(RoundOf(cfg, kind, c, turn).rest, k) || k in ItemKeys(StoredBlocks(cfg, kind, c, turn))
  {
    var v := ProbeOf(cfg, c, turn).view;
    var path, keys := v.ix.Path(s), PathOf(cfg.Shape(), turn);
    assert path[j] in path && path[i] in path;
    assert ChainLike(path, s) && ChainLike(v.ix.Path(turn.session), turn.session);
    StoredFromStart(cfg, kind, sched, c, turn, path[i], path[j]);
    CommonPart(path, s, keys, turn.session, i, j);
    if HasKey(c.host.entries, path[i]) {
      CommonIsSpared(cfg, kind, c, turn, s, path[i]);
      GivenUpIsGone(cfg, kind, c, turn, path[i]);
    }
  }

  /** The residents in chains of shared blocks. */
  ghost function SharedKeys(p: Probe, es: seq<Entry>): set<Key> { set e | e in es && SharedChain(p, es, e) :: e.key }

  /** Told before the turn: there is no round, nothing shared is resident, or enough bytes are ahead of it. */
  ghost predicate SharedSafe(cfg: SimConfig, kind: Kind, c: Control, turn: Turn) {
    var p, es := ProbeOf(cfg, c, turn), c.host.entries;
    || !HasRound(cfg, kind, c, turn) || SharedKeys(p, es) == {}
    || BytesBefore(EvictionOrder(kind, p, es), SharedKeys(p, es)) >= Needed(cfg, kind, c, turn)
  }

  /** In a round what is given up is what the cut-off reaches. */
  lemma GivenUpIff(cfg: SimConfig, kind: Kind, c: Control, turn: Turn, k: Key)
    requires Ready(cfg, kind, c, turn) && HasKey(c.host.entries, k)
    ensures var order := EvictionOrder(kind, ProbeOf(cfg, c, turn), c.host.entries);
            k in GivenUp(cfg, kind, c, turn)
            <==> HasRound(cfg, kind, c, turn) && HasKey(Cutoff(order, Needed(cfg, kind, c, turn)), k)
  {
    var p, es, needed := ProbeOf(cfg, c, turn), c.host.entries, Needed(cfg, kind, c, turn);
    GivenUpIsGone(cfg, kind, c, turn, k);
    LosesIff(cfg, kind, c, turn, k);
    var order := EvictionOrder(kind, p, es);
    CutoffReaches(order, needed, {k});
    HoldsOne(order, k);
    HoldsOne(Cutoff(order, needed), k);
    OrderHolds(kind, p, es, k);
  }

  /** The round takes no chain of shared blocks exactly when the state before it tells so. */
  lemma SparesIff(cfg: SimConfig, kind: Kind, c: Control, turn: Turn)
    requires Ready(cfg, kind, c, turn)
    ensures SparesShared(cfg, kind, c, turn) <==> SharedSafe(cfg, kind, c, turn)
  {
    var p, es, needed := ProbeOf(cfg, c, turn), c.host.entries, Needed(cfg, kind, c, turn);
    var order, shared := EvictionOrder(kind, p, es), SharedKeys(p, es);
    forall u | u in es
      ensures u.key in GivenUp(cfg, kind, c, turn)
         <==> HasRound(cfg, kind, c, turn) && HasKey(Cutoff(order, needed), u.key)
    {
      KeyOfMember(es, u);
      GivenUpIff(cfg, kind, c, turn, u.key);
    }
    CutoffReaches(order, needed, shared);
    SharedInOrder(kind, p, es);
    SharedInCut(p, es, Cutoff(order, needed));
  }

  lemma SharedInOrder(kind: Kind, p: Probe, es: seq<Entry>)
    ensures HoldsAny(EvictionOrder(kind, p, es), SharedKeys(p, es)) <==> SharedKeys(p, es) != {}
  {
    var order, shared := EvictionOrder(kind, p, es), SharedKeys(p, es);
    if k :| k in shared {
      var e :| e in es && SharedChain(p, es, e) && e.key == k;
      KeyOfMember(es, e);
      OrderHolds(kind, p, es, k);
      AnyOf(order, shared, k);
    }
  }

  lemma SharedInCut(p: Probe, es: seq<Entry>, cut: seq<Entry>)
    ensures HoldsAny(cut, SharedKeys(p, es)) <==> exists u :: u in es && SharedChain(p, es, u) && HasKey(cut, u.key)
  {
    if i :| 0 <= i < |cut| && cut[i].key in SharedKeys(p, es) {
      var u :| u in es && SharedChain(p, es, u) && u.key == cut[i].key;
      assert HasKey(cut, u.key);
    }
    if u :| u in es && SharedChain(p, es, u) && HasKey(cut, u.key) { AnyOf(cut, SharedKeys(p, es), u.key); }
  }

  /** A live session that waits keeps a prefix through the turn of another, as long as enough bytes are
      ahead of the chains of shared blocks.  Without that `PrefixKeptIff` says when. */
  lemma {:induction false} WaitingPrefixKept(cfg: SimConfig, kind: Kind, sched: Schedule, turns: seq<Turn>,
          turn: Turn, s: Session)
    requires kind.Adaptive? && s != turn.session
    requires var c := RunControl(cfg, kind, sched, turns);
             var v := ProbeOf(cfg, c, turn).view;
             SharedSafe(cfg, kind, c, turn) && Live(v, s) && PrefixHeld(c.host.entries, v.ix.Path(s))
    ensures var c := RunControl(cfg, kind, sched, turns);
            PrefixHeld(StepControl(cfg, kind, sched, c, turn).host.entries, ProbeOf(cfg, c, turn).view.ix.Path(s))
  {
    var c := RunControl(cfg, kind, sched, turns);
    EveryRoundOpen(cfg, kind, sched, turns, turn);
    SparesIff(cfg, kind, c, turn);
    WaitingKeeps(cfg, kind, sched, c, turn, s);
  }

  lemma WaitingKeeps(cfg: SimConfig, kind: Kind, sched: Schedule, c: Control, turn: Turn, s: Session)
    requires Ready(cfg, kind, c, turn) && SparesShared(cfg, kind, c, turn) && s != turn.session
    requires var v := ProbeOf(cfg, c, turn).view; Live(v, s) && PrefixHeld(c.host.entries, v.ix.Path(s))
    ensures PrefixHeld(StepControl(cfg, kind, sched, c, turn).host.entries, ProbeOf(cfg, c, turn).view.ix.Path(s))
  {
    var path := ProbeOf(cfg, c, turn).view.ix.Path(s);
    RoundKeeps(cfg, kind, c, turn, s);
    TurnHolds(cfg, kind, sched, c, turn);
    forall i, j | 0 <= i < j < |path| && path[j] in ItemKeys(StoredBlocks(cfg, kind, c, turn))
      ensures HasKey(RoundOf(cfg, kind, c, turn).rest, path[i])
           || path[i] in ItemKeys(StoredBlocks(cfg, kind, c, turn))
    {
      EarlierHeld(cfg, kind, sched, c, turn, s, i, j);
    }
    BothPrefixes(StepControl(cfg, kind, sched, c, turn).host.entries, RoundOf(cfg, kind, c, turn).rest,
        StoredBlocks(cfg, kind, c, turn), path);
  }

  lemma BothPrefixes(r: seq<Entry>, rest: seq<Entry>, taken: seq<Item>, path: seq<Key>)
    requires HoldsBoth(r, rest, taken) && PrefixHeld(rest, path)
    requires forall i, j :: 0 <= i < j < |path| && path[j] in ItemKeys(taken) ==>
               HasKey(rest, path[i]) || path[i] in ItemKeys(taken)
    ensures PrefixHeld(r, path)
  {
  }

  // ---- a turn that breaks the prefix of its session -------------------------

  /** A prompt of `blocks` private blocks, all full, by session zero at time zero. */
  function Whole(cfg: SimConfig, blocks: nat): Turn { Overflow.Ask(0, blocks * cfg.Shape().width) }

  function FullItems(n: nat, size: nat): (items: seq<Item>)
    ensures |items| == n && forall i :: 0 <= i < n ==> items[i] == Item(Private(0, i), size)
  {
    seq(n, i requires 0 <= i < n => Item(Private(0, i), size))
  }

  lemma {:induction false} FullItemBytes(n: nat, size: nat)
    ensures ItemBytes(FullItems(n, size)) == n * size
  {
    if n > 0 {
      var last := Item(Private(0, n - 1), size);
      assert FullItems(n, size) == FullItems(n - 1, size) + [last];
      ItemBytesConcat(FullItems(n - 1, size), [last]);
      FullItemBytes(n - 1, size);
      assert ItemBytes([last]) == size;
      Overflow.OnceMore(n, size);
    }
  }

  /** After such a turn every block of its path is full in the index. */
  lemma PathIsFull(geo: Geometry, ix: IndexState, blocks: nat, i: nat)
    requires Sound(geo, ix) && i < blocks
    ensures var turn := Overflow.Ask(0, blocks * geo.width);
            && |PathOf(geo, turn)| == blocks && PathOf(geo, turn)[i] == Private(0, i)
            && Private(0, i) in Touch(geo, ix, turn).blocks
            && Touch(geo, ix, turn).Bytes(Private(0, i)) == geo.cost.BlockBytes(geo.width)
  {
    var turn := Overflow.Ask(0, blocks * geo.width);
    Overflow.WholePrompt(geo, 0, blocks);
    TouchSound(geo, ix, turn);
    var r, k := Touch(geo, ix, turn), Private(0, i);
    assert k == PathOf(geo, turn)[i] && k in PathOf(geo, turn);
    assert BlockSized(geo, k, r.blocks[k]);
    assert r.blocks[k] == Register(geo, ix.blocks, ChainOf(geo, turn)[i], turn);
    assert r.blocks[k].tokens >= geo.width;
  }

  /** The state in which the tier holds the first two blocks, full. */
  ghost predicate HoldsTwo(cfg: SimConfig, c: Control) {
    && Sound(cfg.Shape(), c.ix) && Housed(c.ix, c.host.entries) && Overflow.AllEven(c.ix) && c.eta == map[]
    && ItemsOf(c.host.entries) == FullItems(2, cfg.FullBytes())
  }

  /** The path and its blocks in the index. */
  lemma PromptItems(geo: Geometry, ix: IndexState, blocks: nat)
    requires Sound(geo, ix)
    ensures var turn := Overflow.Ask(0, blocks * geo.width);
            && PathItems(Touch(geo, ix, turn), PathOf(geo, turn)) == FullItems(blocks, geo.cost.BlockBytes(geo.width))
            && Overflow.Indexed(Touch(geo, ix, turn), PathItems(Touch(geo, ix, turn), PathOf(geo, turn)))
  {
    var turn := Overflow.Ask(0, blocks * geo.width);
    var items := PathItems(Touch(geo, ix, turn), PathOf(geo, turn));
    Overflow.WholePrompt(geo, 0, blocks);
    forall i | 0 <= i < blocks
      ensures items[i] == Item(Private(0, i), geo.cost.BlockBytes(geo.width))
      ensures items[i].key in Touch(geo, ix, turn).blocks
    {
      PathIsFull(geo, ix, blocks, i);
    }
    assert geo.cost.BlockBytes(geo.width) >= 1;
  }

  lemma EmptyAdmits(kind: Kind, p: Probe, capacity: nat, items: seq<Item>)
    ensures Admitted(kind, p, [], capacity, items) == items
  {
    assert 0 as real / MaxInt(1, capacity) as real == 0.0;
  }

  lemma TwoAreFresh(cfg: SimConfig, kind: Kind)
    ensures FreshBlocks(cfg, kind, START, Whole(cfg, 2)) == FullItems(2, cfg.FullBytes())
  {
    var turn := Whole(cfg, 2);
    PromptItems(cfg.Shape(), EMPTY, 2);
    Overflow.AllMissing(Touch(cfg.Shape(), EMPTY, turn), [], PathOf(cfg.Shape(), turn));
    EmptyAdmits(kind, ProbeOf(cfg, START, turn), cfg.ram.capacity, FullItems(2, cfg.FullBytes()));
  }

  lemma FirstTwo(cfg: SimConfig, kind: Kind, sched: Schedule)
    requires 2 * cfg.FullBytes() <= cfg.ram.capacity
    ensures ItemsOf(StepControl(cfg, kind, sched, START, Whole(cfg, 2)).host.entries) == FullItems(2, cfg.FullBytes())
  {
    var p, items := ProbeOf(cfg, START, Whole(cfg, 2)), FullItems(2, cfg.FullBytes());
    TwoAreFresh(cfg, kind);
    FullItemBytes(2, cfg.FullBytes());
    Uncontended.SettlesAll(kind, p, sched, START.host, items);
    StepItems(cfg, kind, sched, START, Whole(cfg, 2));
    assert ItemsOf([]) + items == items;
  }

  lemma FirstState(cfg: SimConfig, kind: Kind, sched: Schedule)
    requires 2 * cfg.FullBytes() <= cfg.ram.capacity
    ensures HoldsTwo(cfg, StepControl(cfg, kind, sched, START, Whole(cfg, 2)))
  {
    FirstTwo(cfg, kind, sched);
    StepHoused(cfg, kind, sched, START, Whole(cfg, 2));
    Overflow.EvenTouch(cfg.Shape(), EMPTY, 0, 2 * cfg.Shape().width);
  }

  lemma ThirdIsMissing(cfg: SimConfig, c: Control)
    requires HoldsTwo(cfg, c)
    ensures var ix := Touch(cfg.Shape(), c.ix, Whole(cfg, 3));
            var items := Candidates(ix, c.host.entries, PathOf(cfg.Shape(), Whole(cfg, 3)));
            items == [Item(Private(0, 2), cfg.FullBytes())] && Overflow.Indexed(ix, items)
  {
    PromptItems(cfg.Shape(), c.ix, 3);
    FirstTwoHeld(cfg, c);
    MissingTail(Touch(cfg.Shape(), c.ix, Whole(cfg, 3)), c.host.entries, PathOf(cfg.Shape(), Whole(cfg, 3)), 2);
  }

  lemma FirstTwoHeld(cfg: SimConfig, c: Control)
    requires HoldsTwo(cfg, c)
    ensures ResidentPrefix(c.host.entries, PathOf(cfg.Shape(), Whole(cfg, 3)), 2)
  {
    PathKeys(cfg);
    TwoEntries(c.host.entries, cfg.FullBytes());
  }

  lemma PathKeys(cfg: SimConfig)
    ensures PathOf(cfg.Shape(), Whole(cfg, 3)) == [Private(0, 0), Private(0, 1), Private(0, 2)]
  {
    Overflow.WholePrompt(cfg.Shape(), 0, 3);
  }

  /** The third block is missing, and is admitted. */
  lemma ThirdIsFresh(cfg: SimConfig, kind: Kind, c: Control)
    requires HoldsTwo(cfg, c)
    ensures FreshBlocks(cfg, kind, c, Whole(cfg, 3)) == [Item(Private(0, 2), cfg.FullBytes())]
  {
    var turn := Whole(cfg, 3);
    ThirdIsMissing(cfg, c);
    Overflow.EvenTouch(cfg.Shape(), c.ix, 0, 3 * cfg.Shape().width);
    Overflow.IndexedHoused(cfg.Shape(), c, turn);
    Overflow.AdmitsEven(kind, ProbeOf(cfg, c, turn), c.host.entries, [Item(Private(0, 2), cfg.FullBytes())]);
  }

  lemma {:induction false} TwoEntries(es: seq<Entry>, size: nat)
    requires ItemsOf(es) == FullItems(2, size)
    ensures |es| == 2 && es[0].key == Private(0, 0) && es[1].key == Private(0, 1)
    ensures es[0].nbytes == es[1].nbytes == size && Bytes(es) == 2 * size
    ensures HasKey(es, Private(0, 0)) && HasKey(es, Private(0, 1)) && !HasKey(es, Private(0, 2))
  {
    assert |es| == |ItemsOf(es)|;
    assert ItemsOf(es)[0] == Item(Private(0, 0), size) && ItemsOf(es)[1] == Item(Private(0, 1), size);
    BytesOfItems(es);
    FullItemBytes(2, size);
  }

  lemma AtMostOne(n: nat, size: nat)
    requires size * n < size
    ensures n < 1
  {
    if n >= 1 { MulMono(size, 1, n); }
  }

  /** Among blocks of one size, one victim is enough for no more than that. */
  lemma JustOne(vs: seq<Entry>, size: nat, needed: int)
    requires vs != [] && forall i :: 0 <= i < |vs| ==> vs[i].nbytes == size
    requires Bytes(vs[..|vs| - 1]) < needed <= size
    ensures |vs| == 1
  {
    Belady.EqualBytes(vs[..|vs| - 1], size);
    AtMostOne(|vs| - 1, size);
  }

  lemma OneVictim(kind: Kind, p: Probe, es: seq<Entry>, needed: int, protected: set<Key>, size: nat)
    requires Open(kind, p, es, protected) && Current(kind, p, es) == es && |es| == 2
    requires es[0].nbytes == es[1].nbytes == size && 0 < needed <= size
    ensures var vs := Victims(kind, p, es, needed, protected); vs == [es[0]] || vs == [es[1]]
  {
    var vs := Victims(kind, p, es, needed, protected);
    EvictFreesEnough(kind, p, es, needed, protected);
    NoneProtected(es, protected);
    VictimsAreResidents(kind, p, es, needed, protected);
    assert vs != [] by { assert es[0] in es; }
    forall i | 0 <= i < |vs|
      ensures vs[i] == es[0] || vs[i] == es[1]
    {
      assert vs[i] in vs;
    }
    JustOne(vs, size, needed);
  }

  /** Of two blocks of one chain and one size, the deeper one goes. */
  lemma DeeperGoes(kind: Kind, p: Probe, es: seq<Entry>, needed: int, protected: set<Key>, size: nat)
    requires Open(kind, p, es, protected) && Current(kind, p, es) == es && |es| == 2
    requires es[0].nbytes == es[1].nbytes == size && 0 < needed <= size
    requires ChainOfEntry(p, es[0]) == ChainOfEntry(p, es[1]) && p.view.Depth(es[0].key) < p.view.Depth(es[1].key)
    ensures Victims(kind, p, es, needed, protected) == [es[1]]
  {
    var vs := Victims(kind, p, es, needed, protected);
    OneVictim(kind, p, es, needed, protected, size);
    if es[0] in vs { LeafEndFirst(kind, p, es, needed, protected, es[0], es[1]); }
    assert es[0] in vs ==> es[1] in vs;
  }

  lemma GivenUpIs(cfg: SimConfig, kind: Kind, c: Control, turn: Turn)
    requires FreshBlocks(cfg, kind, c, turn) != [] && Needed(cfg, kind, c, turn) > 0
    ensures GivenUp(cfg, kind, c, turn)
         == EntryKeys(Victims(kind, ProbeOf(cfg, c, turn), c.host.entries, Needed(cfg, kind, c, turn),
                              KeySet(ItemKeys(FreshBlocks(cfg, kind, c, turn)))))
  {
    VictimKeysAre(kind, ProbeOf(cfg, c, turn), c.host.entries, Needed(cfg, kind, c, turn),
        KeySet(ItemKeys(FreshBlocks(cfg, kind, c, turn))));
  }

  lemma ThirdNeeds(cfg: SimConfig, kind: Kind, c: Control)
    requires HoldsTwo(cfg, c) && 2 * cfg.FullBytes() <= cfg.ram.capacity < 3 * cfg.FullBytes()
    ensures FreshBlocks(cfg, kind, c, Whole(cfg, 3)) != [] && 0 < Needed(cfg, kind, c, Whole(cfg, 3)) <= cfg.FullBytes()
  {
    ThirdIsFresh(cfg, kind, c);
    TwoEntries(c.host.entries, cfg.FullBytes());
    assert ItemBytes([Item(Private(0, 2), cfg.FullBytes())]) == cfg.FullBytes();
  }

  /** Of the two blocks the later one is given up. */
  lemma LaterGoes(cfg: SimConfig, kind: Kind, c: Control)
    requires HoldsTwo(cfg, c) && Ready(cfg, kind, c, Whole(cfg, 3))
    requires 2 * cfg.FullBytes() <= cfg.ram.capacity < 3 * cfg.FullBytes()
    ensures GivenUp(cfg, kind, c, Whole(cfg, 3)) == [Private(0, 1)]
  {
    ThirdNeeds(cfg, kind, c);
    SameChain(cfg, kind, c);
    TwoEntries(c.host.entries, cfg.FullBytes());
    DeeperGoes(kind, ProbeOf(cfg, c, Whole(cfg, 3)), c.host.entries, Needed(cfg, kind, c, Whole(cfg, 3)),
        KeySet(ItemKeys(FreshBlocks(cfg, kind, c, Whole(cfg, 3)))), cfg.FullBytes());
    GivenUpIs(cfg, kind, c, Whole(cfg, 3));
  }

  lemma SameChain(cfg: SimConfig, kind: Kind, c: Control)
    requires HoldsTwo(cfg, c) && Ready(cfg, kind, c, Whole(cfg, 3))
    ensures var p, es := ProbeOf(cfg, c, Whole(cfg, 3)), c.host.entries;
            && |es| == 2 && ChainOfEntry(p, es[0]) == ChainOfEntry(p, es[1])
            && p.view.Depth(es[0].key) < p.view.Depth(es[1].key)
  {
    var v, keys := ProbeOf(cfg, c, Whole(cfg, 3)).view, PathOf(cfg.Shape(), Whole(cfg, 3));
    TwoEntries(c.host.entries, cfg.FullBytes());
    PathIsFull(cfg.Shape(), c.ix, 3, 0);
    PathIsFull(cfg.Shape(), c.ix, 3, 1);
    assert BlockSized(cfg.Shape(), keys[0], v.ix.blocks[keys[0]]);
    SameChainLater(cfg.Shape(), v, 0, 0, 1);
  }

  lemma {:induction false} FitOne(item: Item, room: int)
    requires item.nbytes <= room
    ensures Fit([item], room) == [item]
  {
  }

  lemma {:induction false} OneBlockBytes(ix: IndexState, k: Key)
    ensures PathBytes(ix, [k]) == ix.Bytes(k)
  {
  }

  lemma AcceptedOne(p: Probe, es: seq<Entry>, k: Key, item: Item)
    requires p.view.ix.Bytes(k) == item.nbytes
    ensures Accepted(p, es, [item], [k]) == [item]
  {
    OneBlockBytes(p.view.ix, k);
    FitOne(item, Spare(p.tier.capacity, es) + PathBytes(p.view.ix, [k]));
  }

  /** One block is stored in the room of another. */
  lemma StoredInRoom(cfg: SimConfig, kind: Kind, c: Control, turn: Turn, k: Key, item: Item)
    requires GivenUp(cfg, kind, c, turn) == [k] && FreshBlocks(cfg, kind, c, turn) == [item]
    requires Touch(cfg.Shape(), c.ix, turn).Bytes(k) == item.nbytes
    ensures StoredBlocks(cfg, kind, c, turn) == [item]
  {
    AcceptedOne(ProbeOf(cfg, c, turn), c.host.entries, k, item);
  }

  lemma Swapped(cfg: SimConfig, kind: Kind, sched: Schedule, c: Control, turn: Turn, k: Key, item: Item)
    requires Ready(cfg, kind, c, turn) && HasKey(c.host.entries, k) && k != item.key
    requires GivenUp(cfg, kind, c, turn) == [k] && StoredBlocks(cfg, kind, c, turn) == [item]
    ensures var r := StepControl(cfg, kind, sched, c, turn).host.entries; HasKey(r, item.key) && !HasKey(r, k)
  {
    TurnHolds(cfg, kind, sched, c, turn);
    GivenUpIsGone(cfg, kind, c, turn, k);
    assert ItemKeys([item]) == [item.key];
  }

  lemma BreaksState(cfg: SimConfig, kind: Kind, sched: Schedule, c: Control)
    requires HoldsTwo(cfg, c) && Ready(cfg, kind, c, Whole(cfg, 3))
    requires 2 * cfg.FullBytes() <= cfg.ram.capacity < 3 * cfg.FullBytes()
    ensures !PrefixHeld(StepControl(cfg, kind, sched, c, Whole(cfg, 3)).host.entries,
                        PathOf(cfg.Shape(), Whole(cfg, 3)))
  {
    LaterGoes(cfg, kind, c);
    ThirdIsFresh(cfg, kind, c);
    PathIsFull(cfg.Shape(), c.ix, 3, 1);
    StoredInRoom(cfg, kind, c, Whole(cfg, 3), Private(0, 1), Item(Private(0, 2), cfg.FullBytes()));
    TwoEntries(c.host.entries, cfg.FullBytes());
    Swapped(cfg, kind, sched, c, Whole(cfg, 3), Private(0, 1), Item(Private(0, 2), cfg.FullBytes()));
    PathKeys(cfg);
  }

  lemma {:induction false} HeldAtFirst(cfg: SimConfig, kind: Kind, sched: Schedule)
    requires 2 * cfg.FullBytes() <= cfg.ram.capacity
    ensures var c := RunControl(cfg, kind, sched, [Whole(cfg, 2)]);
            HoldsTwo(cfg, c) && PrefixHeld(c.host.entries, PathOf(cfg.Shape(), Whole(cfg, 3)))
  {
    Overflow.RunOne(cfg, kind, sched, Whole(cfg, 2));
    FirstState(cfg, kind, sched);
    FirstTwoHeld(cfg, RunControl(cfg, kind, sched, [Whole(cfg, 2)]));
    PrefixIsHeld(RunControl(cfg, kind, sched, [Whole(cfg, 2)]).host.entries, PathOf(cfg.Shape(), Whole(cfg, 3)), 2);
  }

  /** With room for two full blocks and not for three: a session asks for two blocks and then for three, and
      the adaptive policy gives up the second to store the third. */
  lemma {:induction false} ServedPrefixBreaks(cfg: SimConfig, kind: Kind, sched: Schedule)
    requires kind.Adaptive? && 2 * cfg.FullBytes() <= cfg.ram.capacity < 3 * cfg.FullBytes()
    ensures PrefixHeld(RunControl(cfg, kind, sched, [Whole(cfg, 2)]).host.entries, PathOf(cfg.Shape(), Whole(cfg, 3)))
    ensures !PrefixHeld(RunControl(cfg, kind, sched, [Whole(cfg, 2), Whole(cfg, 3)]).host.entries,
                        PathOf(cfg.Shape(), Whole(cfg, 3)))
  {
    HeldAtFirst(cfg, kind, sched);
    EveryRoundOpen(cfg, kind, sched, [Whole(cfg, 2)], Whole(cfg, 3));
    BreaksState(cfg, kind, sched, RunControl(cfg, kind, sched, [Whole(cfg, 2)]));
    Overflow.RunTwo(cfg, kind, sched, Whole(cfg, 2), Whole(cfg, 3));
  }
}
