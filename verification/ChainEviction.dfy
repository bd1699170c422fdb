/** A round of the chain-aware eviction of the adaptive policy keeps prefixes.

    It takes whole chains, the worst first, and each from the leaf end; blocks shared by live sessions
    go last.  So what survives of a live session's path is still a prefix of it. */
module ChainEviction {
  import opened Base
  import opened Sorting
  import opened Trace
  import opened Config
  import opened Prefix
  import opened Leases
  import opened Policies
  import opened Replay
  import opened HostFacts
  import opened Foresight

  // ---- the groups -----------------------------------------------------------

  /** The entries of one chain. */
  function Mates(v: View, es: seq<Entry>, id: ChainId): seq<Entry> {
    if es == [] then []
    else
      var n := |es| - 1;
      if ChainIdOf(v, es[n].key) == id then Mates(v, es[..n], id) + [es[n]] else Mates(v, es[..n], id)
  }

  lemma {:induction false} MatesAre(v: View, es: seq<Entry>, id: ChainId)
    ensures forall e :: e in Mates(v, es, id) <==> e in es && ChainIdOf(v, e.key) == id
  {
    if es != [] {
      var n := |es| - 1;
      MatesAre(v, es[..n], id);
      assert es == es[..n] + [es[n]];
    }
  }

  /** Groups with distinct ids. */
  ghost predicate DistinctIds(gs: seq<Group>) { forall i, j :: 0 <= i < j < |gs| ==> gs[i].id != gs[j].id }

  predicate HasId(gs: seq<Group>, id: ChainId) { exists i :: 0 <= i < |gs| && gs[i].id == id }

  /** What `AddTo` does to the groups: one more member of its id, the others as they were. */
  lemma {:induction false} AddToGroups(gs: seq<Group>, id: ChainId, e: Entry)
    requires DistinctIds(gs)
    ensures DistinctIds(AddTo(gs, id, e))
    ensures forall x :: HasId(AddTo(gs, id, e), x) <==> HasId(gs, x) || x == id
    ensures forall g :: g in AddTo(gs, id, e) && g.id != id ==> g in gs
    ensures forall g :: g in AddTo(gs, id, e) && g.id == id ==>
              if HasId(gs, id) then exists h :: h in gs && h.id == id && g == Group(id, h.members + [e])
              else g == Group(id, [e])
  {
    var r := AddTo(gs, id, e);
    if gs == [] {
      assert r[0].id == id;
    } else if gs[0].id == id {
      AddToFirst(gs, e);
    } else {
      AddToGroups(gs[1..], id, e);
      AddToLater(gs, id, e);
    }
  }

  lemma AddToFirst(gs: seq<Group>, e: Entry)
    requires DistinctIds(gs) && gs != []
    ensures var id, r := gs[0].id, [Group(gs[0].id, gs[0].members + [e])] + gs[1..];
            && DistinctIds(r) && (forall x :: HasId(r, x) <==> HasId(gs, x)) && HasId(gs, id)
            && (forall g :: g in r && g.id != id ==> g in gs)
            && forall g :: g in r && g.id == id ==> g == Group(id, gs[0].members + [e])
  {
    var id, r := gs[0].id, [Group(gs[0].id, gs[0].members + [e])] + gs[1..];
    assert forall i :: 0 <= i < |gs| ==> r[i].id == gs[i].id;
    forall x
      ensures HasId(r, x) <==> HasId(gs, x)
    {
      if HasId(r, x) { var i :| 0 <= i < |r| && r[i].id == x; assert gs[i].id == x; }
      if HasId(gs, x) { var i :| 0 <= i < |gs| && gs[i].id == x; assert r[i].id == x; }
    }
    assert gs[0].id == id;
  }

  lemma {:induction false} AddToLater(gs: seq<Group>, id: ChainId, e: Entry)
    requires DistinctIds(gs) && gs != [] && gs[0].id != id
    requires var t := AddTo(gs[1..], id, e);
             && DistinctIds(t) && (forall x :: HasId(t, x) <==> HasId(gs[1..], x) || x == id)
    ensures DistinctIds(AddTo(gs, id, e))
    ensures forall x :: HasId(AddTo(gs, id, e), x) <==> HasId(gs, x) || x == id
    ensures HasId(gs, id) == HasId(gs[1..], id)
  {
    var t := AddTo(gs[1..], id, e);
    var r := [gs[0]] + t;
    HasIdCons(gs[0], t);
    HasIdCons(gs[0], gs[1..]);
    assert gs == [gs[0]] + gs[1..];
    forall j | 0 <= j < |t|
      ensures gs[0].id != t[j].id
    {
      assert HasId(t, t[j].id);
    }
  }

  lemma HasIdCons(g: Group, gs: seq<Group>)
    ensures forall x :: HasId([g] + gs, x) <==> g.id == x || HasId(gs, x)
  {
    forall x
      ensures HasId([g] + gs, x) <==> g.id == x || HasId(gs, x)
    {
      if HasId([g] + gs, x) {
        var i :| 0 <= i < |[g] + gs| && ([g] + gs)[i].id == x;
        if i > 0 { assert gs[i - 1].id == x; }
      }
      if g.id == x { assert ([g] + gs)[0].id == x; }
      if HasId(gs, x) {
        var i :| 0 <= i < |gs| && gs[i].id == x;
        assert ([g] + gs)[i + 1].id == x;
      }
    }
  }

  /** Every group holds all entries of its chain, and every entry is in the group of its chain. */
  lemma {:induction false} GroupsAreChains(v: View, es: seq<Entry>)
    ensures DistinctIds(Groups(v, es))
    ensures forall g :: g in Groups(v, es) ==> g.members == Mates(v, es, g.id)
    ensures forall e :: e in es ==> HasId(Groups(v, es), ChainIdOf(v, e.key))
    ensures forall id :: !HasId(Groups(v, es), id) ==> Mates(v, es, id) == []
  {
    if es != [] {
      var n := |es| - 1;
      var gs, id := Groups(v, es[..n]), ChainIdOf(v, es[n].key);
      GroupsAreChains(v, es[..n]);
      AddToGroups(gs, id, es[n]);
      forall g | g in AddTo(gs, id, es[n])
        ensures g.members == Mates(v, es, g.id)
      {
        if g.id == id && HasId(gs, id) {
          var h :| h in gs && h.id == id && g == Group(id, h.members + [es[n]]);
        }
      }
      forall e | e in es
        ensures HasId(Groups(v, es), ChainIdOf(v, e.key))
      {
        if e != es[n] { assert e in es[..n]; }
      }
    }
  }

  // ---- ranking the groups ---------------------------------------------------

  lemma GroupOrderTotal(kind: Kind, p: Probe)
    requires kind.Adaptive?
    ensures TotalPreorder(GroupOrder(kind, p))
  {
    forall a, b
      ensures GroupBefore(kind, p, a, b) || GroupBefore(kind, p, b, a)
    {
    }
    forall a, b, c | GroupBefore(kind, p, a, b) && GroupBefore(kind, p, b, c)
      ensures GroupBefore(kind, p, a, c)
    {
    }
  }

  lemma DepthOrderTotal(v: View)
    ensures TotalPreorder(DepthOrder(v))
  {
  }

  lemma {:induction false} InsertIds(g: Group, gs: seq<Group>, le: (Group, Group) -> bool)
    requires DistinctIds([g] + gs)
    ensures DistinctIds(InsertSorted(g, gs, le))
    ensures forall x :: HasId(InsertSorted(g, gs, le), x) <==> HasId([g] + gs, x)
  {
    if gs == [] || le(g, gs[0]) {
    } else {
      var t := InsertSorted(g, gs[1..], le);
      TailIds(g, gs);
      InsertIds(g, gs[1..], le);
      InsertIdsLater(g, gs, t);
    }
  }

  lemma TailIds(g: Group, gs: seq<Group>)
    requires DistinctIds([g] + gs) && gs != []
    ensures DistinctIds([g] + gs[1..]) && !HasId([g] + gs[1..], gs[0].id)
  {
    forall i, j | 0 <= i < j < |[g] + gs[1..]|
      ensures ([g] + gs[1..])[i].id != ([g] + gs[1..])[j].id
    {
      assert ([g] + gs[1..])[j] == ([g] + gs)[j + 1];
      assert ([g] + gs[1..])[i] == ([g] + gs)[if i == 0 then 0 else i + 1];
    }
    forall i | 0 <= i < |[g] + gs[1..]|
      ensures ([g] + gs[1..])[i].id != gs[0].id
    {
      assert ([g] + gs)[1] == gs[0];
      assert ([g] + gs[1..])[i] == ([g] + gs)[if i == 0 then 0 else i + 1];
    }
  }

  lemma InsertIdsLater(g: Group, gs: seq<Group>, t: seq<Group>)
    requires gs != [] && DistinctIds(t) && !HasId([g] + gs[1..], gs[0].id)
    requires forall x :: HasId(t, x) <==> HasId([g] + gs[1..], x)
    ensures DistinctIds([gs[0]] + t)
    ensures forall x :: HasId([gs[0]] + t, x) <==> HasId([g] + gs, x)
  {
    HasIdCons(gs[0], t);
    HasIdCons(g, gs);
    HasIdCons(g, gs[1..]);
    HasIdCons(gs[0], gs[1..]);
    assert gs == [gs[0]] + gs[1..];
    forall j | 0 <= j < |t|
      ensures gs[0].id != t[j].id
    {
      assert HasId(t, t[j].id);
    }
  }

  lemma {:induction false} SortIds(gs: seq<Group>, le: (Group, Group) -> bool)
    requires DistinctIds(gs)
    ensures DistinctIds(StableSort(gs, le))
    ensures forall x :: HasId(StableSort(gs, le), x) <==> HasId(gs, x)
  {
    if gs != [] {
      var t := StableSort(gs[1..], le);
      SortIds(gs[1..], le);
      HasIdCons(gs[0], t);
      HasIdCons(gs[0], gs[1..]);
      assert gs == [gs[0]] + gs[1..];
      forall j | 0 <= j < |t|
        ensures gs[0].id != t[j].id
      {
        assert HasId(t, t[j].id);
        var i :| 0 <= i < |gs[1..]| && gs[1..][i].id == t[j].id;
        assert gs[i + 1].id == t[j].id;
      }
      InsertIds(gs[0], t, le);
    }
  }

  // ---- where a prefix of the order ends -------------------------------------

  /** A prefix of the leaf-first order: some whole groups, and the leaf end of the next. */
  ghost predicate Cut(v: View, gs: seq<Group>, vs: seq<Entry>, c: nat, part: seq<Entry>) {
    && c <= |gs| && (c == |gs| ==> part == [])
    && (c < |gs| ==> part <= StableSort(gs[c].members, DepthOrder(v)))
    && forall e :: e in vs <==> (exists i :: 0 <= i < c && e in gs[i].members) || e in part
  }

  lemma {:induction false} PrefixCuts(v: View, gs: seq<Group>, vs: seq<Entry>) returns (c: nat, part: seq<Entry>)
    requires vs <= LeafFirst(v, gs)
    ensures Cut(v, gs, vs, c, part)
  {
    if gs == [] {
      c, part := 0, [];
    } else {
      var first := StableSort(gs[0].members, DepthOrder(v));
      if |vs| <= |first| {
        c, part := 0, vs;
        assert vs <= first by {
          assert forall i :: 0 <= i < |vs| ==> vs[i] == (first + LeafFirst(v, gs[1..]))[i];
        }
      } else {
        var later := vs[|first|..];
        assert vs == first + later && later <= LeafFirst(v, gs[1..]) by {
          assert forall i :: 0 <= i < |vs| ==> vs[i] == (first + LeafFirst(v, gs[1..]))[i];
        }
        var b;
        b, part := PrefixCuts(v, gs[1..], later);
        c := b + 1;
        CutMore(v, gs, vs, later, b, part);
      }
    }
  }

  lemma CutMore(v: View, gs: seq<Group>, vs: seq<Entry>, later: seq<Entry>, b: nat, part: seq<Entry>)
    requires gs != [] && Cut(v, gs[1..], later, b, part) && vs == StableSort(gs[0].members, DepthOrder(v)) + later
    ensures Cut(v, gs, vs, b + 1, part)
  {
    SortMembers(gs[0].members, DepthOrder(v));
    forall e
      ensures e in vs <==> (exists i :: 0 <= i < b + 1 && e in gs[i].members) || e in part
    {
      if exists i :: 0 <= i < b + 1 && e in gs[i].members {
        var i :| 0 <= i < b + 1 && e in gs[i].members;
        if i > 0 { assert e in gs[1..][i - 1].members; }
      }
      if exists i :: 0 <= i < b && e in gs[1..][i].members {
        var i :| 0 <= i < b && e in gs[1..][i].members;
        assert e in gs[i + 1].members;
      }
    }
  }

  // ---- what an eviction round takes -----------------------------------------

  /** An eviction round with no protected resident. */
  ghost predicate Open(kind: Kind, p: Probe, es: seq<Entry>, protected: set<Key>) {
    kind.Adaptive? && UniqueKeys(es) && forall e :: e in Current(kind, p, es) ==> e.key !in protected
  }

  function ChainOfEntry(p: Probe, e: Entry): ChainId { ChainIdOf(p.view, e.key) }

  /** The chains in eviction order. */
  ghost predicate Ranked(kind: Kind, p: Probe, es: seq<Entry>, gs: seq<Group>) {
    && kind.Adaptive? && DistinctIds(gs) && Sorted(gs, GroupOrder(kind, p))
    && (forall g :: g in gs ==> g.members == Mates(p.view, es, g.id))
    && forall e :: e in es ==> HasId(gs, ChainOfEntry(p, e))
  }

  lemma {:induction false} RankingIsRanked(kind: Kind, p: Probe, es: seq<Entry>)
    requires kind.Adaptive?
    ensures Ranked(kind, p, es, StableSort(Groups(p.view, es), GroupOrder(kind, p)))
  {
    var gs, le := Groups(p.view, es), GroupOrder(kind, p);
    GroupsAreChains(p.view, es);
    SortIds(gs, le);
    SortMembers(gs, le);
    GroupOrderTotal(kind, p);
    SortIsSorted(gs, le);
  }

  /** The victims: whole chains off the front of the ranking, and the leaf end of the next one. */
  lemma VictimsCut(kind: Kind, p: Probe, es: seq<Entry>, needed: int, protected: set<Key>)
      returns (gs: seq<Group>, c: nat, part: seq<Entry>)
    requires Open(kind, p, es, protected)
    ensures Ranked(kind, p, Current(kind, p, es), gs)
    ensures Cut(p.view, gs, Victims(kind, p, es, needed, protected), c, part)
  {
    var current := Current(kind, p, es);
    NoneProtected(current, protected);
    RankingIsRanked(kind, p, current);
    gs := StableSort(Groups(p.view, current), GroupOrder(kind, p));
    TakenPrefix(kind, LeafFirst(p.view, gs), needed);
    c, part := PrefixCuts(p.view, gs, Victims(kind, p, es, needed, protected));
  }

  /** The position of an entry's chain in the ranking. */
  lemma RankOf(kind: Kind, p: Probe, es: seq<Entry>, gs: seq<Group>, e: Entry) returns (i: nat)
    requires Ranked(kind, p, es, gs) && e in es
    ensures i < |gs| && gs[i].id == ChainOfEntry(p, e) && e in gs[i].members
    ensures forall j :: 0 <= j < |gs| && e in gs[j].members ==> j == i
  {
    i :| 0 <= i < |gs| && gs[i].id == ChainOfEntry(p, e);
    assert gs[i] in gs;
    MatesAre(p.view, es, gs[i].id);
    forall j | 0 <= j < |gs| && e in gs[j].members
      ensures j == i
    {
      assert gs[j] in gs;
      MatesAre(p.view, es, gs[j].id);
      assert gs[j].id == gs[i].id;
    }
  }

  /** A victim is in a chain that is taken whole, or at the leaf end of the chain that is cut. */
  lemma VictimRank(kind: Kind, p: Probe, es: seq<Entry>, gs: seq<Group>, vs: seq<Entry>, c: nat, part: seq<Entry>,
          u: Entry)
      returns (i: nat)
    requires Ranked(kind, p, es, gs) && Cut(p.view, gs, vs, c, part) && u in vs && u in es
    ensures i < |gs| && i <= c && gs[i].id == ChainOfEntry(p, u) && (i == c ==> u in part)
  {
    i := RankOf(kind, p, es, gs, u);
    if u in part {
      SortMembers(gs[c].members, DepthOrder(p.view));
      PartIsMember(part, StableSort(gs[c].members, DepthOrder(p.view)), u);
    }
  }

  lemma PartIsMember(part: seq<Entry>, whole: seq<Entry>, u: Entry)
    requires part <= whole && u in part
    ensures u in whole
  {
    var i :| 0 <= i < |part| && part[i] == u;
    assert whole[i] == u;
  }

  /** Within a chain the victims are closed towards the leaf: no deeper resident of the chain survives a
      victim. */
  lemma LeafEndFirst(kind: Kind, p: Probe, es: seq<Entry>, needed: int, protected: set<Key>, u: Entry, w: Entry)
    requires Open(kind, p, es, protected)
    requires u in Victims(kind, p, es, needed, protected) && w in Current(kind, p, es)
    requires ChainOfEntry(p, u) == ChainOfEntry(p, w) && p.view.Depth(w.key) > p.view.Depth(u.key)
    ensures w in Victims(kind, p, es, needed, protected)
  {
    var current, vs := Current(kind, p, es), Victims(kind, p, es, needed, protected);
    VictimsAreResidents(kind, p, es, needed, protected);
    var gs, c, part := VictimsCut(kind, p, es, needed, protected);
    var i := VictimRank(kind, p, current, gs, vs, c, part, u);
    var j := RankOf(kind, p, current, gs, w);
    assert i == j;
    if i == c { DeeperInPart(p.view, gs[c].members, part, u, w); }
  }

  lemma {:induction false} DeeperInPart(v: View, members: seq<Entry>, part: seq<Entry>, u: Entry, w: Entry)
    requires part <= StableSort(members, DepthOrder(v)) && u in part && w in members && v.Depth(w.key) > v.Depth(u.key)
    ensures w in part
  {
    var order := StableSort(members, DepthOrder(v));
    DepthOrderTotal(v);
    SortIsSorted(members, DepthOrder(v));
    SortMembers(members, DepthOrder(v));
    if w !in part {
      PrefixRanksFirst(order, part, DepthOrder(v), u, w);
      assert false;
    }
  }

  /** At most one chain is left partly resident. */
  lemma OnePartialChain(kind: Kind, p: Probe, es: seq<Entry>, needed: int, protected: set<Key>,
                        u: Entry, w: Entry, u': Entry, w': Entry)
    requires Open(kind, p, es, protected)
    requires var vs := Victims(kind, p, es, needed, protected);
             u in vs && u' in vs && w !in vs && w' !in vs && w in Current(kind, p, es) && w' in Current(kind, p, es)
    requires ChainOfEntry(p, u) == ChainOfEntry(p, w) && ChainOfEntry(p, u') == ChainOfEntry(p, w')
    ensures ChainOfEntry(p, u) == ChainOfEntry(p, u')
  {
    var current, vs := Current(kind, p, es), Victims(kind, p, es, needed, protected);
    VictimsAreResidents(kind, p, es, needed, protected);
    var gs, c, part := VictimsCut(kind, p, es, needed, protected);
    CutChain(kind, p, current, gs, vs, c, part, u, w);
    CutChain(kind, p, current, gs, vs, c, part, u', w');
  }

  lemma CutChain(kind: Kind, p: Probe, es: seq<Entry>, gs: seq<Group>, vs: seq<Entry>, c: nat, part: seq<Entry>,
          u: Entry, w: Entry)
    requires Ranked(kind, p, es, gs) && Cut(p.view, gs, vs, c, part)
    requires u in vs && u in es && w in es && w !in vs && ChainOfEntry(p, u) == ChainOfEntry(p, w)
    ensures c < |gs| && gs[c].id == ChainOfEntry(p, u)
  {
    var i := VictimRank(kind, p, es, gs, vs, c, part, u);
    var j := RankOf(kind, p, es, gs, w);
    assert i == j;
  }

  /** The chain of the entry is made of shared blocks only. */
  predicate SharedChain(p: Probe, es: seq<Entry>, e: Entry) { AllShared(p.view, Mates(p.view, es, ChainOfEntry(p, e))) }

  lemma SharedNotBefore(kind: Kind, p: Probe, a: Group, b: Group)
    requires kind.Adaptive? && AllShared(p.view, a.members) && !AllShared(p.view, b.members)
    ensures !GroupOrder(kind, p)(a, b)
  {
  }

  lemma SharedAfter(kind: Kind, p: Probe, gs: seq<Group>, i: nat, j: nat)
    requires kind.Adaptive? && Sorted(gs, GroupOrder(kind, p)) && i < |gs| && j < |gs|
    requires AllShared(p.view, gs[i].members) && !AllShared(p.view, gs[j].members)
    ensures j < i
  {
    SharedNotBefore(kind, p, gs[i], gs[j]);
  }

  /** A chain of shared blocks is touched only when no other chain is left. */
  lemma SharedLast(kind: Kind, p: Probe, es: seq<Entry>, needed: int, protected: set<Key>, u: Entry, w: Entry)
    requires Open(kind, p, es, protected)
    requires u in Victims(kind, p, es, needed, protected) && w in Current(kind, p, es)
    requires SharedChain(p, Current(kind, p, es), u) && !SharedChain(p, Current(kind, p, es), w)
    ensures w in Victims(kind, p, es, needed, protected)
  {
    var current, vs := Current(kind, p, es), Victims(kind, p, es, needed, protected);
    VictimsAreResidents(kind, p, es, needed, protected);
    var gs, c, part := VictimsCut(kind, p, es, needed, protected);
    var i := VictimRank(kind, p, current, gs, vs, c, part, u);
    var j := RankOf(kind, p, current, gs, w);
    assert gs[i] in gs && gs[j] in gs;
    SharedAfter(kind, p, gs, i, j);
  }

  // ---- prefixes -------------------------------------------------------------

  /** The session was seen recently. */
  ghost predicate Live(v: View, s: Session) { s in v.ix.lastSeen && v.now - v.ix.lastSeen[s] <= STALE_AFTER }

  /** Blocks later on a live session's path are in the chain of an earlier one that it leases alone. */
  lemma SameChainLater(geo: Geometry, v: View, s: Session, i: nat, j: nat)
    requires Sound(geo, v.ix) && Live(v, s) && i < j < |v.ix.Path(s)|
    requires var k := v.ix.Path(s)[i]; ChainIdOf(v, k).Root? ==> !v.ix.blocks[k].shared
    ensures var path := v.ix.Path(s);
            ChainIdOf(v, path[i]) == ChainIdOf(v, path[j]) && v.Depth(path[i]) == i && v.Depth(path[j]) == j
  {
    var path := v.ix.Path(s);
    assert path[i] in path && path[j] in path;
    assert BlockSized(geo, path[i], v.ix.blocks[path[i]]) && BlockSized(geo, path[j], v.ix.blocks[path[j]]);
    assert ChainLike(path, s);
    LeasedAlone(geo, v, s, i);
    LeasedAloneLater(geo, v, s, i, j);
  }

  /** A block that several live sessions lease is shared, so this one is leased by the session alone. */
  lemma LeasedAlone(geo: Geometry, v: View, s: Session, i: nat)
    requires Sound(geo, v.ix) && Live(v, s) && i < |v.ix.Path(s)|
    requires var k := v.ix.Path(s)[i]; ChainIdOf(v, k).Root? ==> !v.ix.blocks[k].shared
    ensures LiveLeases(v.ix, v.ix.Path(s)[i], v.now) == {s} && ChainIdOf(v, v.ix.Path(s)[i]) == Lease(s)
  {
    var path := v.ix.Path(s);
    var k := path[i];
    var live := LiveLeases(v.ix, k, v.now);
    assert k in path && s in live;
    assert ChainLike(path, s) && BlockSized(geo, k, v.ix.blocks[k]);
    if live != {s} {
      var t :| t in live && t != s;
      Pair(live, s, t);
      assert ChainIdOf(v, k) == Root(k);
      assert k in v.ix.Path(t) && ChainLike(v.ix.Path(t), t);
      OwnPrivate(v.ix.Path(t), t, k);
      assert false;
    }
    assert MinOf({s}) == s;
  }

  lemma OwnPrivate(path: seq<Key>, t: Session, k: Key)
    requires ChainLike(path, t) && k in path
    ensures k.Private? ==> k.session == t
  {
    var i :| 0 <= i < |path| && path[i] == k;
  }

  lemma Pair(live: set<Session>, s: Session, t: Session)
    requires s in live && t in live && s != t
    ensures |live| > 1
  {
    assert live == {s} + (live - {s}) && t in live - {s};
  }

  /** Whoever else leases a later block of the path leases the earlier ones too. */
  lemma LeasedAloneLater(geo: Geometry, v: View, s: Session, i: nat, j: nat)
    requires Sound(geo, v.ix) && Live(v, s) && i < j < |v.ix.Path(s)|
    requires LiveLeases(v.ix, v.ix.Path(s)[i], v.now) == {s}
    ensures LiveLeases(v.ix, v.ix.Path(s)[j], v.now) == {s} && ChainIdOf(v, v.ix.Path(s)[j]) == Lease(s)
  {
    var path := v.ix.Path(s);
    var live := LiveLeases(v.ix, path[j], v.now);
    assert path[j] in path && s in live;
    forall t | t in live
      ensures t == s
    {
      assert path[j] in v.ix.Path(t);
      EarlierToo(path, s, v.ix.Path(t), t, i, j);
      assert t in LiveLeases(v.ix, path[i], v.now) || t == s;
    }
    assert live == {s};
    assert MinOf({s}) == s;
  }

  lemma EarlierToo(path: seq<Key>, s: Session, other: seq<Key>, t: Session, i: nat, j: nat)
    requires ChainLike(path, s) && ChainLike(other, t) && i < j < |path| && path[j] in other
    ensures path[i] in other || t == s
  {
    var l :| 0 <= l < |other| && other[l] == path[j];
    assert l == j;
    if path[j].Shared? {
      assert path[i] == Shared(path[j].role, i) && other[i] == Shared(path[j].role, i);
    }
  }

  /** When the round takes no chain of shared blocks, a live session loses every resident block past the
      first one it loses. */
  lemma NothingLeftPast(geo: Geometry, kind: Kind, p: Probe, es: seq<Entry>, needed: int, protected: set<Key>,
                        s: Session, i: nat, j: nat, u: Entry, w: Entry)
    requires Open(kind, p, es, protected) && Sound(geo, p.view.ix) && Live(p.view, s) && i < j < |p.view.ix.Path(s)|
    requires u in Victims(kind, p, es, needed, protected) && u.key == p.view.ix.Path(s)[i]
    requires w in Current(kind, p, es) && w.key == p.view.ix.Path(s)[j]
    requires !SharedChain(p, Current(kind, p, es), u)
    ensures w in Victims(kind, p, es, needed, protected)
  {
    VictimsAreResidents(kind, p, es, needed, protected);
    RootChain(p, Current(kind, p, es), u);
    SameChainLater(geo, p.view, s, i, j);
    LeafEndFirst(kind, p, es, needed, protected, u, w);
  }

  /** A block that several live sessions lease is a chain of its own. */
  lemma RootChain(p: Probe, es: seq<Entry>, u: Entry)
    requires UniqueKeys(es) && u in es && !SharedChain(p, es, u)
    ensures ChainOfEntry(p, u).Root? ==> !p.view.ix.blocks[u.key].shared
  {
    var id := ChainOfEntry(p, u);
    MatesAre(p.view, es, id);
    var mates := Mates(p.view, es, id);
    if id.Root? && p.view.ix.blocks[u.key].shared {
      forall i | 0 <= i < |mates|
        ensures mates[i].key == u.key
      {
        assert mates[i] in mates;
      }
      assert AllShared(p.view, mates);
      assert false;
    }
  }

  /** The first `n` blocks of the path are resident, and no other block of it is. */
  ghost predicate ResidentPrefix(es: seq<Entry>, path: seq<Key>, n: nat) {
    n <= |path| && forall i :: 0 <= i < |path| ==> (HasKey(es, path[i]) <==> i < n)
  }

  /** An eviction round that takes no chain of shared blocks leaves every live session with a resident
      prefix of its path, when it had one before. */
  lemma PrefixesSurvive(geo: Geometry, kind: Kind, p: Probe, es: seq<Entry>, needed: int, protected: set<Key>,
          s: Session, n: nat)
      returns (left: nat)
    requires Open(kind, p, es, protected) && Sound(geo, p.view.ix) && Live(p.view, s)
    requires forall u :: u in Victims(kind, p, es, needed, protected) ==> !SharedChain(p, Current(kind, p, es), u)
    requires ResidentPrefix(Current(kind, p, es), p.view.ix.Path(s), n)
    ensures left <= n && ResidentPrefix(Evicted(kind, p, es, needed, protected).rest, p.view.ix.Path(s), left)
  {
    left := SurvivesFrom(geo, kind, p, es, needed, protected, s, n, 0);
  }

  /** Walk up the path while its blocks survive. */
  lemma {:induction false} SurvivesFrom(geo: Geometry, kind: Kind, p: Probe, es: seq<Entry>, needed: int,
                                        protected: set<Key>, s: Session, n: nat, m: nat) returns (left: nat)
    requires Open(kind, p, es, protected) && Sound(geo, p.view.ix) && Live(p.view, s)
    requires forall u :: u in Victims(kind, p, es, needed, protected) ==> !SharedChain(p, Current(kind, p, es), u)
    requires ResidentPrefix(Current(kind, p, es), p.view.ix.Path(s), n)
    requires m <= n && forall i :: 0 <= i < m ==>
        HasKey(Evicted(kind, p, es, needed, protected).rest, p.view.ix.Path(s)[i])
    ensures left <= n && ResidentPrefix(Evicted(kind, p, es, needed, protected).rest, p.view.ix.Path(s), left)
    decreases n - m
  {
    var path, current, rest := p.view.ix.Path(s), Current(kind, p, es), Evicted(kind, p, es, needed, protected).rest;
    RestIsSurvivors(kind, p, es, needed, protected);
    if m < n && HasKey(rest, path[m]) {
      left := SurvivesFrom(geo, kind, p, es, needed, protected, s, n, m + 1);
    } else {
      left := m;
      forall i | m <= i < |path|
        ensures !HasKey(rest, path[i])
      {
        if i < n {
          GonePast(geo, kind, p, es, needed, protected, s, m, i);
        } else {
          NotBack(rest, current, path[i]);
        }
      }
    }
  }

  /** What is left is the residents that are not victims. */
  lemma RestIsSurvivors(kind: Kind, p: Probe, es: seq<Entry>, needed: int, protected: set<Key>)
    requires UniqueKeys(es)
    ensures var vs, rest := Victims(kind, p, es, needed, protected), Evicted(kind, p, es, needed, protected).rest;
            forall e :: e in rest <==> e in Current(kind, p, es) && e !in vs
  {
    var current, vs := Current(kind, p, es), Victims(kind, p, es, needed, protected);
    VictimsAreResidents(kind, p, es, needed, protected);
    WithoutSub(current, KeySet(EntryKeys(vs)));
    WithoutNone(current);
    assert EntryKeys(vs) == [] ==> vs == [];
    forall e | e in current
      ensures e.key in KeySet(EntryKeys(vs)) <==> e in vs
    {
      VictimKey(current, vs, e);
    }
  }

  lemma VictimKey(current: seq<Entry>, vs: seq<Entry>, e: Entry)
    requires UniqueKeys(current) && e in current && forall v :: v in vs ==> v in current
    ensures e.key in EntryKeys(vs) <==> e in vs
  {
    if e.key in EntryKeys(vs) {
      var i :| 0 <= i < |EntryKeys(vs)| && EntryKeys(vs)[i] == e.key;
      assert vs[i] in vs;
      var a :| 0 <= a < |current| && current[a] == vs[i];
      var b :| 0 <= b < |current| && current[b] == e;
    }
    if e in vs {
      var i :| 0 <= i < |vs| && vs[i] == e;
      assert EntryKeys(vs)[i] == e.key;
    }
  }

  lemma KeyOfMember(es: seq<Entry>, e: Entry)
    ensures e in es ==> HasKey(es, e.key)
  {
  }

  lemma NotBack(rest: seq<Entry>, current: seq<Entry>, k: Key)
    requires !HasKey(current, k) && forall e :: e in rest ==> e in current
    ensures !HasKey(rest, k)
  {
    forall l | 0 <= l < |rest|
      ensures rest[l].key != k
    {
      assert rest[l] in rest;
      var d :| 0 <= d < |current| && current[d] == rest[l];
    }
  }

  lemma GonePast(geo: Geometry, kind: Kind, p: Probe, es: seq<Entry>, needed: int, protected: set<Key>, s: Session,
          m: nat, i: nat)
    requires Open(kind, p, es, protected) && Sound(geo, p.view.ix) && Live(p.view, s) && m <= i < |p.view.ix.Path(s)|
    requires forall u :: u in Victims(kind, p, es, needed, protected) ==> !SharedChain(p, Current(kind, p, es), u)
    requires var path := p.view.ix.Path(s);
             && HasKey(Current(kind, p, es), path[m]) && HasKey(Current(kind, p, es), path[i])
             && !HasKey(Evicted(kind, p, es, needed, protected).rest, path[m])
    ensures !HasKey(Evicted(kind, p, es, needed, protected).rest, p.view.ix.Path(s)[i])
  {
    var path := p.view.ix.Path(s);
    var u := Lost(kind, p, es, needed, protected, path[m]);
    if m < i {
      var current := Current(kind, p, es);
      var b :| 0 <= b < |current| && current[b].key == path[i];
      NothingLeftPast(geo, kind, p, es, needed, protected, s, m, i, u, current[b]);
      VictimGone(kind, p, es, needed, protected, current[b]);
    }
  }

  /** A resident key that is not left is the key of a victim. */
  lemma Lost(kind: Kind, p: Probe, es: seq<Entry>, needed: int, protected: set<Key>, k: Key) returns (u: Entry)
    requires UniqueKeys(es) && HasKey(Current(kind, p, es), k)
        && !HasKey(Evicted(kind, p, es, needed, protected).rest, k)
    ensures u in Victims(kind, p, es, needed, protected) && u.key == k
  {
    var current := Current(kind, p, es);
    RestIsSurvivors(kind, p, es, needed, protected);
    var a :| 0 <= a < |current| && current[a].key == k;
    u := current[a];
    KeyOfMember(Evicted(kind, p, es, needed, protected).rest, u);
  }

  lemma VictimGone(kind: Kind, p: Probe, es: seq<Entry>, needed: int, protected: set<Key>, w: Entry)
    requires UniqueKeys(es) && w in Victims(kind, p, es, needed, protected)
    ensures !HasKey(Evicted(kind, p, es, needed, protected).rest, w.key)
  {
    RestIsSurvivors(kind, p, es, needed, protected);
    VictimsAreResidents(kind, p, es, needed, protected);
    GoneKey(Evicted(kind, p, es, needed, protected).rest, Current(kind, p, es), w);
  }

  lemma GoneKey(rest: seq<Entry>, current: seq<Entry>, w: Entry)
    requires UniqueKeys(current) && w in current && w !in rest && forall e :: e in rest ==> e in current
    ensures !HasKey(rest, w.key)
  {
    var b :| 0 <= b < |current| && current[b] == w;
    forall l | 0 <= l < |rest|
      ensures rest[l].key != w.key
    {
      assert rest[l] in rest;
      var d :| 0 <= d < |current| && current[d] == rest[l];
    }
  }
}
