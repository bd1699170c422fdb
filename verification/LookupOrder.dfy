/** What the order of the lookup list decides.

    The pass over the groups does not go back to a group, so its result can depend on the order in which
    they are listed.  For full-prefix groups that drop no tail this module says exactly when it does, and
    for all groups when the result would survive a second pass. */
module LookupOrder {
  import opened Base
  import opened Sorting
  import opened Lookup

  // ---- the limit of a group -------------------------------------------------

  predicate Full<Key>(g: Group<Key>) { g.window.None? && !g.tail }

  ghost predicate AllFull<Key>(gs: seq<Group<Key>>) { forall i :: 0 <= i < |gs| ==> Full(gs[i]) }

  /** The end of the group's keys that are resident in a row from its computed start, in tokens. */
  function Limit<Key>(g: Group<Key>, computed: nat, stored: set<Key>): int {
    var start := computed / g.chunk;
    Min(|g.keys| * g.chunk, g.chunk * (start + LeadingHits(Slice(g.keys, start, |g.keys|), stored)))
  }

  lemma {:induction false} LeadingOfPrefix<Key>(keys: seq<Key>, s: set<Key>, n: nat)
    requires n <= |keys|
    ensures LeadingHits(keys[..n], s) == Min(LeadingHits(keys, s), n)
  {
    if n > 0 && keys[0] in s {
      assert keys[..n][1..] == keys[1..][..n - 1];
      LeadingOfPrefix(keys[1..], s, n - 1);
    }
  }

  lemma {:induction false} FullHits<Key>(g: Group<Key>, computed: nat, s: set<Key>, m: int)
    requires Full(g) && computed + g.chunk <= m <= |g.keys| * g.chunk
    ensures var start, stop := computed / g.chunk, Cdiv(m, g.chunk);
            && start < stop <= |g.keys|
            && Hits(g, computed, s, false, m) == Min(LeadingHits(g.keys[start..], s), stop - start)
  {
    var start, stop := computed / g.chunk, Cdiv(m, g.chunk);
    SliceInside(g, computed, false, m);
    assert g.keys[start..stop] == g.keys[start..][..stop - start];
    LeadingOfPrefix(g.keys[start..], s, stop - start);
  }

  lemma StartWithin(computed: nat, c: Positive)
    ensures c * (computed / c) <= computed
  {
  }

  /** The cut at the last leading hit is the limit, within the boundary. */
  lemma CutAtLimit(c: Positive, m: int, most: int, start: nat, leading: nat, stop: int)
    requires m <= most && stop == Cdiv(m, c) && start <= stop
    ensures Min(m, c * (start + Min(leading, stop - start))) == Min(m, Min(most, c * (start + leading)))
  {
    CdivBounds(m, c);
    if leading > stop - start { MulMono(c, stop, start + leading); }
  }

  /** Such a group cuts the boundary to its limit, unless that leaves less than a chunk. */
  lemma FullShrink<Key>(g: Group<Key>, computed: nat, s: set<Key>, b: int)
    requires Full(g)
    ensures var r := Min(b, Limit(g, computed, s));
            Shrink(g, computed, s, false, b) == if r - computed < g.chunk then None else Some(r)
  {
    var m, start := Min(b, |g.keys| * g.chunk), computed / g.chunk;
    if m - computed >= g.chunk {
      FullHits(g, computed, s, m);
      StartWithin(computed, g.chunk);
      assert Slice(g.keys, start, |g.keys|) == g.keys[start..];
      CutAtLimit(g.chunk, m, |g.keys| * g.chunk, start, LeadingHits(g.keys[start..], s), Cdiv(m, g.chunk));
    }
  }

  // ---- orders of a list -----------------------------------------------------

  /** A list that names the same groups as often. */
  ghost predicate Reorders<Key>(q: Query<Key>, a: seq<nat>) { Named(q, a) && multiset(a) == multiset(q.lookup) }

  function In<Key>(q: Query<Key>, a: seq<nat>): Query<Key> { q.(lookup := a) }

  ghost predicate NoTail<Key>(q: Query<Key>, todo: seq<nat>)
    requires Named(q, todo)
  {
    forall i :: 0 <= i < |todo| ==> !q.groups[todo[i]].tail
  }

  lemma ReorderedNames<Key>(q: Query<Key>, a: seq<nat>, b: seq<nat>, i: nat) returns (j: nat)
    requires Reorders(q, a) && Reorders(q, b) && i < |b|
    ensures j < |a| && a[j] == b[i]
  {
    assert b[i] in multiset(a);
    j :| 0 <= j < |a| && a[j] == b[i];
  }

  lemma SameLength<Key>(q: Query<Key>, a: seq<nat>)
    requires Reorders(q, a)
    ensures |a| == |q.lookup|
  {
    assert |multiset(a)| == |a| && |multiset(q.lookup)| == |q.lookup|;
  }

  lemma NoTailAnywhere<Key>(q: Query<Key>, a: seq<nat>)
    requires q.Valid() && Reorders(q, a) && NoTail(q, q.lookup)
    ensures NoTail(q, a)
  {
    forall i | 0 <= i < |a|
      ensures !q.groups[a[i]].tail
    {
      var j := ReorderedNames(q, q.lookup, a, i);
    }
  }

  /** What an order predicts, group by group. */
  lemma {:induction false} PredictedIn<Key>(q: Query<Key>, s: set<Key>, a: seq<nat>)
    requires q.Valid() && Reorders(q, a) && NoTail(q, q.lookup) && q.lookup != []
    ensures NoTail(q, a) && a != [] && Select(In(q, a), a) == Select(q, a)
    ensures var r := Fold(Select(q, a), q.computed, s, q.Initial());
            Predicted(In(q, a), s) == if r.None? then 0 else r.value - q.computed
  {
    NoTailAnywhere(q, a);
    SameLength(q, a);
    PredictedIsFold(In(q, a), s);
  }

  // ---- a second pass --------------------------------------------------------

  /** A group that drops no tail now keeps a boundary exactly when it has a whole chunk and enough keys up
      to it, and serves it. */
  lemma KeepsIff<Key>(g: Group<Key>, computed: nat, s: set<Key>, b: int)
    ensures Shrink(g, computed, s, false, b) == Some(b)
       <==> computed + g.chunk <= b <= |g.keys| * g.chunk && Serves(g, computed, s, b)
  {
    if Shrink(g, computed, s, false, b) == Some(b) { ShrinkServes(g, computed, s, false, b); }
    if computed + g.chunk <= b <= |g.keys| * g.chunk && Serves(g, computed, s, b) {
      ServedSurvives(g, computed, s, b, b);
      ShrinkShrinks(g, computed, s, false, b);
    }
  }

  /** The group leaves the prediction as it is. */
  ghost predicate Agrees<Key>(g: Group<Key>, computed: nat, s: set<Key>, hit: int) {
    g.chunk <= hit && (g.window.Some? ==> Serves(g, computed, s, computed + hit))
  }

  ghost predicate AllAgree<Key>(q: Query<Key>, s: set<Key>, todo: seq<nat>, hit: int)
    requires Named(q, todo)
  {
    forall i :: 0 <= i < |todo| ==> Agrees(q.groups[todo[i]], q.computed, s, hit)
  }

  /** What a first pass leaves behind: enough keys, and a full-prefix group serves the prediction. */
  ghost predicate Passed<Key>(g: Group<Key>, computed: nat, s: set<Key>, hit: int) {
    computed + hit <= |g.keys| * g.chunk && (g.window.None? ==> Serves(g, computed, s, computed + hit))
  }

  lemma AgreesIff<Key>(g: Group<Key>, computed: nat, s: set<Key>, hit: int)
    requires Passed(g, computed, s, hit)
    ensures Shrink(g, computed, s, false, computed + hit) == Some(computed + hit) <==> Agrees(g, computed, s, hit)
  {
    KeepsIff(g, computed, s, computed + hit);
  }

  lemma OnceAgain<Key>(q: Query<Key>, s: set<Key>, i: nat, l: Loop)
    requires i < |q.groups| && l.hit == l.bound - q.computed && (q.groups[i].tail ==> i in l.verified)
    requires Passed(q.groups[i], q.computed, s, l.hit)
    ensures Agrees(q.groups[i], q.computed, s, l.hit) ==> Once(q, s, i, l) == Some(l)
    ensures !Agrees(q.groups[i], q.computed, s, l.hit) ==>
              Once(q, s, i, l).None? || Once(q, s, i, l).value.bound < l.bound
  {
    AgreesIff(q.groups[i], q.computed, s, l.hit);
    OnceShrinks(q, s, i, l);
  }

  lemma {:induction false} PassAgain<Key>(q: Query<Key>, s: set<Key>, todo: seq<nat>, l: Loop)
    requires Named(q, todo) && l.hit == l.bound - q.computed > 0
    requires forall i :: 0 <= i < |todo| && q.groups[todo[i]].tail ==> todo[i] in l.verified
    requires forall i :: 0 <= i < |todo| ==> Passed(q.groups[todo[i]], q.computed, s, l.hit)
    ensures Pass(q, s, todo, l) == l.hit <==> AllAgree(q, s, todo, l.hit)
  {
    if todo != [] {
      OnceAgain(q, s, todo[0], l);
      if Agrees(q.groups[todo[0]], q.computed, s, l.hit) {
        PassAgain(q, s, todo[1..], l);
        AgreeCons(q, s, todo, l.hit);
      } else if Once(q, s, todo[0], l).Some? {
        PassRange(q, s, todo[1..], Once(q, s, todo[0], l).value);
      }
    }
  }

  lemma AgreeCons<Key>(q: Query<Key>, s: set<Key>, todo: seq<nat>, hit: int)
    requires todo != [] && Named(q, todo) && Agrees(q.groups[todo[0]], q.computed, s, hit)
    ensures AllAgree(q, s, todo, hit) <==> AllAgree(q, s, todo[1..], hit)
  {
    if AllAgree(q, s, todo[1..], hit) {
      forall i | 0 <= i < |todo|
        ensures Agrees(q.groups[todo[i]], q.computed, s, hit)
      {
        if i > 0 { assert todo[i] == todo[1..][i - 1]; }
      }
    }
  }

  /** A positive result is within the keys of every group of the list. */
  lemma {:induction false} WithinKeys<Key>(q: Query<Key>, s: set<Key>, todo: seq<nat>, l: Loop, i: nat)
    requires i < |todo| && Named(q, todo) && Pass(q, s, todo, l) > 0
    ensures q.computed + Pass(q, s, todo, l) <= |q.groups[todo[i]].keys| * q.groups[todo[i]].chunk
  {
    var next := Once(q, s, todo[0], l).value;
    OnceShrinks(q, s, todo[0], l);
    PassRange(q, s, todo[1..], next);
    if i > 0 { WithinKeys(q, s, todo[1..], next, i - 1); }
  }

  /** For all groups: a second pass from a positive prediction, with every tail verified, leaves it as it is
      exactly when it is a whole chunk for every group of the list and every windowed group serves it. */
  lemma {:induction false} SecondPassIff<Key>(q: Query<Key>, s: set<Key>, l: Loop)
    requires q.Valid() && l.hit == Predicted(q, s) > 0 && l.bound == q.computed + l.hit
    requires forall i :: 0 <= i < |q.lookup| && q.groups[q.lookup[i]].tail ==> q.lookup[i] in l.verified
    ensures Pass(q, s, q.lookup, l) == l.hit <==> AllAgree(q, s, q.lookup, l.hit)
  {
    forall i | 0 <= i < |q.lookup|
      ensures Passed(q.groups[q.lookup[i]], q.computed, s, l.hit)
    {
      WithinKeys(q, s, q.lookup, Entry(q), i);
      if q.groups[q.lookup[i]].window.None? { FullServes(q, s, q.lookup, Entry(q), i); }
    }
    PassAgain(q, s, q.lookup, l);
  }

  // ---- orders of windowed groups --------------------------------------------

  /** The list gives a positive prediction that survives a second pass. */
  ghost predicate Settles<Key>(q: Query<Key>, s: set<Key>)
    requires q.Valid()
  {
    Predicted(q, s) > 0 && AllAgree(q, s, q.lookup, Predicted(q, s))
  }

  /** Every group of the list can serve `hit` tokens, has keys for them and a whole chunk of them. */
  ghost predicate Servable<Key>(q: Query<Key>, s: set<Key>, todo: seq<nat>, hit: int)
    requires Named(q, todo)
  {
    forall i :: 0 <= i < |todo| ==> CanServe(q.groups[todo[i]], q.computed, s, hit)
  }

  ghost predicate CanServe<Key>(g: Group<Key>, computed: nat, s: set<Key>, hit: int) {
    g.chunk <= hit && computed + hit <= |g.keys| * g.chunk && Serves(g, computed, s, computed + hit)
  }

  /** Of one group in the list. */
  lemma PredictedServable<Key>(q: Query<Key>, s: set<Key>, i: nat)
    requires q.Valid() && Predicted(q, s) > 0 && i < |q.lookup|
    ensures CanServe(q.groups[q.lookup[i]], q.computed, s, Predicted(q, s))
       <==> Agrees(q.groups[q.lookup[i]], q.computed, s, Predicted(q, s))
  {
    WithinKeys(q, s, q.lookup, Entry(q), i);
    if q.groups[q.lookup[i]].window.None? { FullServes(q, s, q.lookup, Entry(q), i); }
  }

  /** A positive prediction survives a second pass exactly when all groups can serve it. */
  lemma SettlesIff<Key>(q: Query<Key>, s: set<Key>)
    requires q.Valid() && Predicted(q, s) > 0
    ensures Settles(q, s) <==> Servable(q, s, q.lookup, Predicted(q, s))
  {
    forall i | 0 <= i < |q.lookup| { PredictedServable(q, s, i); }
  }

  lemma ServableAnywhere<Key>(q: Query<Key>, s: set<Key>, a: seq<nat>, b: seq<nat>, hit: int)
    requires Reorders(q, a) && Reorders(q, b) && Servable(q, s, a, hit)
    ensures Servable(q, s, b, hit)
  {
    forall i | 0 <= i < |b|
      ensures CanServe(q.groups[b[i]], q.computed, s, hit)
    {
      var j := ReorderedNames(q, a, b, i);
    }
  }

  /** What all groups can serve is a lower bound, whatever the order. */
  lemma AtLeastServable<Key>(q: Query<Key>, s: set<Key>, hit: int)
    requires q.Valid() && NoTail(q, q.lookup) && q.lookup != [] && q.computed + hit <= q.Initial()
    requires Servable(q, s, q.lookup, hit)
    ensures Predicted(q, s) >= hit
  {
    ServableIsPredicted(q, s, q.computed + hit);
  }

  /** On lists that drop no tail, windowed groups among them: what survives a second pass in one order is
      reached in every order. */
  lemma SettledIsLeast<Key>(q: Query<Key>, s: set<Key>, a: seq<nat>, b: seq<nat>)
    requires q.Valid() && NoTail(q, q.lookup) && Reorders(q, a) && Reorders(q, b) && Settles(In(q, a), s)
    ensures Predicted(In(q, a), s) <= Predicted(In(q, b), s)
  {
    var hit := Predicted(In(q, a), s);
    SettlesIff(In(q, a), s);
    PassRange(In(q, a), s, a, Entry(In(q, a)));
    ServableAnywhere(q, s, a, b, hit);
    NoTailAnywhere(q, b);
    SameLength(q, a);
    SameLength(q, b);
    AtLeastServable(In(q, b), s, hit);
  }

  /** So the settled prediction is one, and the others are larger: when some order settles, the order does
      not matter exactly when every order does. */
  lemma SettledOrdersIff<Key>(q: Query<Key>, s: set<Key>, a: seq<nat>)
    requires q.Valid() && NoTail(q, q.lookup) && Reorders(q, a) && Settles(In(q, a), s)
    ensures forall b :: Reorders(q, b) ==>
              && Predicted(In(q, a), s) <= Predicted(In(q, b), s)
              && (Settles(In(q, b), s) <==> Predicted(In(q, b), s) == Predicted(In(q, a), s))
  {
    forall b | Reorders(q, b)
      ensures Predicted(In(q, a), s) <= Predicted(In(q, b), s)
      ensures Settles(In(q, b), s) <==> Predicted(In(q, b), s) == Predicted(In(q, a), s)
    {
      SettledIsLeast(q, s, a, b);
      SettlesIff(In(q, b), s);
      if Settles(In(q, b), s) {
        SettledIsLeast(q, s, b, a);
      } else if Predicted(In(q, b), s) == Predicted(In(q, a), s) {
        SettlesIff(In(q, a), s);
        ServableAnywhere(q, s, a, b, Predicted(In(q, a), s));
      }
    }
  }

  /** The settled prediction is the greatest number of tokens that all groups can serve. */
  lemma SettledIsGreatest<Key>(q: Query<Key>, s: set<Key>, hit: int)
    requires q.Valid() && NoTail(q, q.lookup) && Settles(q, s)
    requires q.computed + hit <= q.Initial() && Servable(q, s, q.lookup, hit)
    ensures hit <= Predicted(q, s) && Servable(q, s, q.lookup, Predicted(q, s))
  {
    SettlesIff(q, s);
    AtLeastServable(q, s, hit);
  }

  // ---- every order ----------------------------------------------------------

  /** How far the group lets the boundary be, on its own: no further than the computed tokens when it makes
      the result zero. */
  function Reach<Key>(g: Group<Key>, computed: nat, s: set<Key>, b: int): int {
    match Shrink(g, computed, s, false, b)
    case None => computed
    case Some(r) => r
  }

  function Least<Key>(gs: seq<Group<Key>>, computed: nat, s: set<Key>, b: int): int
    requires gs != []
  {
    if |gs| == 1 then Reach(gs[0], computed, s, b)
    else Min(Reach(gs[0], computed, s, b), Least(gs[1..], computed, s, b))
  }

  /** The least number of tokens that a group of the list gives on its own. */
  function Best<Key>(q: Query<Key>, s: set<Key>): int
    requires q.Valid()
  {
    if q.lookup == [] then 0 else Least(Select(q, q.lookup), q.computed, s, q.Initial()) - q.computed
  }

  lemma ReachRange<Key>(g: Group<Key>, computed: nat, s: set<Key>, b: int)
    ensures var r := Reach(g, computed, s, b);
            if Shrink(g, computed, s, false, b).None? then r == computed
            else computed + g.chunk <= r <= b && r <= |g.keys| * g.chunk && Serves(g, computed, s, r)
  {
    if Shrink(g, computed, s, false, b).Some? { ShrinkServes(g, computed, s, false, b); }
  }

  lemma {:induction false} LeastIs<Key>(gs: seq<Group<Key>>, computed: nat, s: set<Key>, b: int)
    requires gs != []
    ensures var m := Least(gs, computed, s, b);
            && (forall i :: 0 <= i < |gs| ==> m <= Reach(gs[i], computed, s, b))
            && exists i :: 0 <= i < |gs| && m == Reach(gs[i], computed, s, b)
  {
    if |gs| > 1 {
      LeastIs(gs[1..], computed, s, b);
      var m := Least(gs, computed, s, b);
      var i :| 0 <= i < |gs[1..]| && Least(gs[1..], computed, s, b) == Reach(gs[1..][i], computed, s, b);
      assert gs[1..][i] == gs[i + 1];
      assert m == Reach(gs[0], computed, s, b) || m == Reach(gs[i + 1], computed, s, b);
      forall j | 0 <= j < |gs|
        ensures m <= Reach(gs[j], computed, s, b)
      {
        if j > 0 { assert gs[j] == gs[1..][j - 1]; }
      }
    }
  }

  function ReachOf<Key>(q: Query<Key>, s: set<Key>, i: nat): int {
    if i < |q.groups| then Reach(q.groups[i], q.computed, s, q.Initial()) else 0
  }

  /** `Best` is the least of what the groups give alone. */
  lemma BestIs<Key>(q: Query<Key>, s: set<Key>)
    requires q.Valid() && q.lookup != []
    ensures forall i :: 0 <= i < |q.lookup| ==> q.computed + Best(q, s) <= ReachOf(q, s, q.lookup[i])
    ensures exists i :: 0 <= i < |q.lookup| && q.computed + Best(q, s) == ReachOf(q, s, q.lookup[i])
    ensures Best(q, s) >= 0
  {
    var gs := Select(q, q.lookup);
    LeastIs(gs, q.computed, s, q.Initial());
    var i :| 0 <= i < |gs| && Least(gs, q.computed, s, q.Initial()) == Reach(gs[i], q.computed, s, q.Initial());
    assert q.computed + Best(q, s) == ReachOf(q, s, q.lookup[i]);
    ReachRange(gs[i], q.computed, s, q.Initial());
    forall j | 0 <= j < |q.lookup|
      ensures q.computed + Best(q, s) <= ReachOf(q, s, q.lookup[j])
    {
      assert Least(gs, q.computed, s, q.Initial()) <= Reach(gs[j], q.computed, s, q.Initial());
    }
  }

  /** A list of one group gives what the group gives alone. */
  lemma {:induction false} AloneIs<Key>(q: Query<Key>, s: set<Key>, i: nat)
    requires i < |q.groups| && !q.groups[i].tail
    ensures Predicted(In(q, [i]), s) == ReachOf(q, s, i) - q.computed
  {
    var r := Shrink(q.groups[i], q.computed, s, false, q.Initial());
    assert [i][1..] == [];
    if r.Some? { assert Pass(In(q, [i]), s, [], Loop({}, r.value, r.value - q.computed)) == r.value - q.computed; }
  }

  /** `Best` is the least prediction of a list of one of the groups. */
  lemma BestIsAlone<Key>(q: Query<Key>, s: set<Key>)
    requires q.Valid() && NoTail(q, q.lookup) && q.lookup != []
    ensures forall i :: 0 <= i < |q.lookup| ==> Best(q, s) <= Predicted(In(q, [q.lookup[i]]), s)
    ensures exists i :: 0 <= i < |q.lookup| && Best(q, s) == Predicted(In(q, [q.lookup[i]]), s)
  {
    BestIs(q, s);
    forall i | 0 <= i < |q.lookup|
      ensures Predicted(In(q, [q.lookup[i]]), s) == ReachOf(q, s, q.lookup[i]) - q.computed
    {
      AloneIs(q, s, q.lookup[i]);
    }
  }

  ghost predicate TailFree<Key>(gs: seq<Group<Key>>) { forall i :: 0 <= i < |gs| ==> !gs[i].tail }

  /** No list gives more than one of its groups alone. */
  lemma {:induction false} FoldAtMost<Key>(gs: seq<Group<Key>>, computed: nat, s: set<Key>, b: int, i: nat)
    requires TailFree(gs) && i < |gs|
    ensures AtMost(Fold(gs, computed, s, b), Shrink(gs[i], computed, s, false, b))
  {
    var r := Shrink(gs[0], computed, s, false, b);
    ShrinkShrinks(gs[0], computed, s, false, b);
    if r.Some? {
      if i == 0 {
        if gs[1..] != [] { FoldPositive(gs[1..], computed, s, r.value); }
      } else {
        FoldAtMost(gs[1..], computed, s, r.value, i - 1);
        ShrinkMono(gs[i], computed, s, s, false, r.value, b);
      }
    }
  }

  /** A group does not cut a boundary below what it lets one be that is no smaller. */
  lemma ReachSurvives<Key>(g: Group<Key>, computed: nat, s: set<Key>, b: int, v: int)
    requires Shrink(g, computed, s, false, b).Some? && Reach(g, computed, s, b) <= v
    ensures AtMost(Some(Reach(g, computed, s, b)), Shrink(g, computed, s, false, v))
  {
    ReachRange(g, computed, s, b);
    ServedSurvives(g, computed, s, v, Reach(g, computed, s, b));
  }

  /** When each group gives something alone, and those that give more come first, the list reaches what all
      of them give alone. */
  lemma {:induction false} DescendingReaches<Key>(gs: seq<Group<Key>>, computed: nat, s: set<Key>, b: int, v: int,
          m: int)
    requires TailFree(gs) && m <= v && (gs != [] ==> Reach(gs[0], computed, s, b) <= v)
    requires forall i :: 0 <= i < |gs| ==>
               Shrink(gs[i], computed, s, false, b).Some? && m <= Reach(gs[i], computed, s, b)
    requires forall i, j :: 0 <= i < j < |gs| ==> Reach(gs[i], computed, s, b) >= Reach(gs[j], computed, s, b)
    ensures AtMost(Some(m), Fold(gs, computed, s, v))
  {
    if gs != [] {
      ReachSurvives(gs[0], computed, s, b, v);
      DescendingReaches(gs[1..], computed, s, b, Shrink(gs[0], computed, s, false, v).value, m);
    }
  }

  lemma SelectTailFree<Key>(q: Query<Key>, a: seq<nat>)
    requires Named(q, a) && NoTail(q, a)
    ensures TailFree(Select(q, a))
  {
  }

  /** No order gives more than the least that a group gives alone. */
  lemma AtMostBest<Key>(q: Query<Key>, s: set<Key>, a: seq<nat>)
    requires q.Valid() && NoTail(q, q.lookup) && Reorders(q, a)
    ensures 0 <= Predicted(In(q, a), s) <= Best(q, s)
  {
    SameLength(q, a);
    PredictedRange(In(q, a), s);
    if q.lookup != [] {
      BestIs(q, s);
      var i :| 0 <= i < |q.lookup| && q.computed + Best(q, s) == ReachOf(q, s, q.lookup[i]);
      var j := ReorderedNames(q, a, q.lookup, i);
      PredictedIn(q, s, a);
      SelectTailFree(q, a);
      FoldAtMost(Select(q, a), q.computed, s, q.Initial(), j);
    }
  }

  function Descending<Key>(q: Query<Key>, s: set<Key>): (nat, nat) -> bool {
    (i: nat, j: nat) => ReachOf(q, s, i) >= ReachOf(q, s, j)
  }

  /** The list with the groups that give most alone first. */
  function LargestFirst<Key>(q: Query<Key>, s: set<Key>): seq<nat> { StableSort(q.lookup, Descending(q, s)) }

  lemma LargestFirstReorders<Key>(q: Query<Key>, s: set<Key>)
    requires q.Valid()
    ensures var a := LargestFirst(q, s);
            Reorders(q, a) && forall i, j :: 0 <= i < j < |a| ==> ReachOf(q, s, a[i]) >= ReachOf(q, s, a[j])
  {
    var a := LargestFirst(q, s);
    SortMultiset(q.lookup, Descending(q, s));
    SortMembers(q.lookup, Descending(q, s));
    assert TotalPreorder(Descending(q, s));
    SortIsSorted(q.lookup, Descending(q, s));
    forall i | 0 <= i < |a|
      ensures a[i] < |q.groups|
    {
      assert a[i] in q.lookup;
    }
    forall i, j | 0 <= i < j < |a|
      ensures ReachOf(q, s, a[i]) >= ReachOf(q, s, a[j])
    {
      assert Descending(q, s)(a[i], a[j]);
    }
  }

  /** In no list does a group give more than the boundary there is. */
  lemma GivesAlone<Key>(q: Query<Key>, s: set<Key>, a: seq<nat>, i: nat)
    requires q.Valid() && Reorders(q, a) && i < |a| && q.lookup != [] && Best(q, s) > 0
    ensures var g := q.groups[a[i]];
            && Shrink(g, q.computed, s, false, q.Initial()).Some?
            && q.computed + Best(q, s) <= Reach(g, q.computed, s, q.Initial()) <= q.Initial()
  {
    var j := ReorderedNames(q, q.lookup, a, i);
    BestIs(q, s);
    assert q.computed + Best(q, s) <= ReachOf(q, s, q.lookup[j]);
    ReachRange(q.groups[a[i]], q.computed, s, q.Initial());
  }

  /** Listing the groups by what they give alone, most first, is best, windowed groups among them: it gives
      the least that a group gives alone, and no order gives more. */
  lemma LargestFirstIsBest<Key>(q: Query<Key>, s: set<Key>)
    requires q.Valid() && NoTail(q, q.lookup)
    ensures var a := LargestFirst(q, s); Reorders(q, a) && Predicted(In(q, a), s) == Best(q, s)
    ensures forall b :: Reorders(q, b) ==> Predicted(In(q, b), s) <= Best(q, s)
  {
    var a := LargestFirst(q, s);
    LargestFirstReorders(q, s);
    forall b | Reorders(q, b)
      ensures Predicted(In(q, b), s) <= Best(q, s)
    {
      AtMostBest(q, s, b);
    }
    AtMostBest(q, s, a);
    if Best(q, s) > 0 { LargestFirstReaches(q, s); }
  }

  lemma LargestFirstReaches<Key>(q: Query<Key>, s: set<Key>)
    requires q.Valid() && NoTail(q, q.lookup) && Best(q, s) > 0 && Reorders(q, LargestFirst(q, s))
    ensures Predicted(In(q, LargestFirst(q, s)), s) >= Best(q, s)
  {
    var a := LargestFirst(q, s);
    var gs := Select(q, a);
    LargestFirstReorders(q, s);
    PredictedIn(q, s, a);
    SelectTailFree(q, a);
    forall i | 0 <= i < |gs|
      ensures Shrink(gs[i], q.computed, s, false, q.Initial()).Some?
      ensures q.computed + Best(q, s) <= Reach(gs[i], q.computed, s, q.Initial()) <= q.Initial()
    {
      GivesAlone(q, s, a, i);
    }
    assert q.computed + Best(q, s) <= Reach(gs[0], q.computed, s, q.Initial()) <= q.Initial();
    forall i, j | 0 <= i < j < |gs|
      ensures Reach(gs[i], q.computed, s, q.Initial()) >= Reach(gs[j], q.computed, s, q.Initial())
    {
      assert ReachOf(q, s, a[i]) >= ReachOf(q, s, a[j]);
    }
    DescendingReaches(gs, q.computed, s, q.Initial(), q.Initial(), q.computed + Best(q, s));
  }

  function MovedLast<T>(xs: seq<T>, i: nat): (r: seq<T>)
    requires i < |xs|
    ensures r != [] && r[|r| - 1] == xs[i]
  {
    xs[..i] + xs[i + 1..] + [xs[i]]
  }

  lemma MovedReorders<Key>(q: Query<Key>, i: nat)
    requires q.Valid() && i < |q.lookup|
    ensures Reorders(q, MovedLast(q.lookup, i))
  {
    assert q.lookup == q.lookup[..i] + [q.lookup[i]] + q.lookup[i + 1..];
  }

  lemma {:induction false} LastWhole<Key>(q: Query<Key>, s: set<Key>, todo: seq<nat>, l: Loop)
    requires todo != [] && Named(q, todo) && Pass(q, s, todo, l) > 0
    ensures q.groups[todo[|todo| - 1]].chunk <= Pass(q, s, todo, l)
  {
    if |todo| > 1 { LastWhole(q, s, todo[1..], Once(q, s, todo[0], l).value); }
  }

  /** The group that comes last can serve a positive prediction. */
  lemma LastCanServe<Key>(q: Query<Key>, s: set<Key>)
    requires q.Valid() && q.lookup != [] && Predicted(q, s) > 0
    ensures CanServe(q.groups[q.lookup[|q.lookup| - 1]], q.computed, s, Predicted(q, s))
  {
    LastWhole(q, s, q.lookup, Entry(q));
    LastServes(q, s, q.lookup, Entry(q));
    WithinKeys(q, s, q.lookup, Entry(q), |q.lookup| - 1);
  }

  /** When every order gives the same, each group may come last, so all can serve it. */
  lemma SameIsServable<Key>(q: Query<Key>, s: set<Key>, hit: int)
    requires q.Valid() && hit > 0 && forall a :: Reorders(q, a) ==> Predicted(In(q, a), s) == hit
    ensures Servable(q, s, q.lookup, hit)
  {
    forall i | 0 <= i < |q.lookup|
      ensures CanServe(q.groups[q.lookup[i]], q.computed, s, hit)
    {
      MovedReorders(q, i);
      assert Predicted(In(q, MovedLast(q.lookup, i)), s) == hit;
      LastCanServe(In(q, MovedLast(q.lookup, i)), s);
    }
  }

  /** What all can serve is reached in every order, when no order gives more. */
  lemma ServableIsReached<Key>(q: Query<Key>, s: set<Key>, a: seq<nat>)
    requires q.Valid() && NoTail(q, q.lookup) && Reorders(q, a)
    requires Best(q, s) == 0 || Servable(q, s, q.lookup, Best(q, s))
    ensures Predicted(In(q, a), s) == Best(q, s)
  {
    AtMostBest(q, s, a);
    if Best(q, s) > 0 {
      SameLength(q, a);
      NoTailAnywhere(q, a);
      ServableAnywhere(q, s, q.lookup, a, Best(q, s));
      GivesAlone(q, s, a, 0);
      AtLeastServable(In(q, a), s, Best(q, s));
    }
  }

  /** Exactly when the order of the list does not matter, for lists that drop no tail, windowed groups among
      them: some group gives nothing on its own, or all groups can serve the least that one gives alone. */
  lemma OrderIrrelevantIff<Key>(q: Query<Key>, s: set<Key>)
    requires q.Valid() && NoTail(q, q.lookup)
    ensures (forall a, b :: Reorders(q, a) && Reorders(q, b) ==> Predicted(In(q, a), s) == Predicted(In(q, b), s))
       <==> Best(q, s) == 0 || Servable(q, s, q.lookup, Best(q, s))
  {
    LargestFirstIsBest(q, s);
    if Best(q, s) == 0 || Servable(q, s, q.lookup, Best(q, s)) {
      forall a | Reorders(q, a)
        ensures Predicted(In(q, a), s) == Best(q, s)
      {
        ServableIsReached(q, s, a);
      }
    } else if forall a, b :: Reorders(q, a) && Reorders(q, b) ==> Predicted(In(q, a), s) == Predicted(In(q, b), s) {
      AtMostBest(q, s, LargestFirst(q, s));
      SameIsServable(q, s, Best(q, s));
    }
  }

  /** Every order reaches the best exactly when all groups can serve it, and every order gives nothing exactly
      when some group does so on its own. */
  lemma AllOrdersIff<Key>(q: Query<Key>, s: set<Key>)
    requires q.Valid() && NoTail(q, q.lookup)
    ensures (forall a :: Reorders(q, a) ==> Predicted(In(q, a), s) == Best(q, s) > 0)
       <==> Best(q, s) > 0 && Servable(q, s, q.lookup, Best(q, s))
    ensures (forall a :: Reorders(q, a) ==> Predicted(In(q, a), s) == 0) <==> Best(q, s) == 0
  {
    LargestFirstIsBest(q, s);
    if Best(q, s) > 0 && Servable(q, s, q.lookup, Best(q, s)) {
      forall a | Reorders(q, a) { ServableIsReached(q, s, a); }
    } else if forall a :: Reorders(q, a) ==> Predicted(In(q, a), s) == Best(q, s) > 0 {
      assert Reorders(q, LargestFirst(q, s));
      SameIsServable(q, s, Best(q, s));
    }
    forall a | Reorders(q, a)
      ensures Best(q, s) == 0 ==> Predicted(In(q, a), s) == 0
    {
      AtMostBest(q, s, a);
    }
  }

  // ---- full-prefix groups ---------------------------------------------------

  /** Full-prefix groups can serve the best exactly when it is a whole chunk for each of them. */
  lemma FullServableIff<Key>(q: Query<Key>, s: set<Key>)
    requires q.Valid() && AllFull(Select(q, q.lookup)) && Best(q, s) > 0
    ensures Servable(q, s, q.lookup, Best(q, s))
       <==> forall i :: 0 <= i < |q.lookup| ==> q.groups[q.lookup[i]].chunk <= Best(q, s)
  {
    forall i | 0 <= i < |q.lookup|
      ensures CanServe(q.groups[q.lookup[i]], q.computed, s, Best(q, s))
         <==> q.groups[q.lookup[i]].chunk <= Best(q, s)
    {
      var g := q.groups[q.lookup[i]];
      assert Full(Select(q, q.lookup)[i]);
      GivesAlone(q, s, q.lookup, i);
      ReachRange(g, q.computed, s, q.Initial());
      ServesLess(g, q.computed, s, Reach(g, q.computed, s, q.Initial()), q.computed + Best(q, s));
    }
  }

  /** Widest first: full-prefix groups that each give something alone give something together. */
  lemma {:induction false} WidestFirst<Key>(gs: seq<Group<Key>>, computed: nat, s: set<Key>, b: int, m: int)
    requires AllFull(gs) && m <= b && forall i, j :: 0 <= i < j < |gs| ==> gs[i].chunk >= gs[j].chunk
    requires forall i :: 0 <= i < |gs| ==> gs[i].chunk <= Min(b, Limit(gs[i], computed, s)) - computed
    requires forall i :: 0 <= i < |gs| ==> m <= Limit(gs[i], computed, s)
    ensures AtMost(Some(m), Fold(gs, computed, s, b))
  {
    if gs != [] {
      FullShrink(gs[0], computed, s, b);
      assert gs[0].chunk <= Min(b, Limit(gs[0], computed, s)) - computed;
      var next := Min(b, Limit(gs[0], computed, s));
      forall i | 0 <= i < |gs[1..]|
        ensures gs[1..][i].chunk <= Min(next, Limit(gs[1..][i], computed, s)) - computed
      {
        assert gs[i + 1].chunk <= Min(b, Limit(gs[i + 1], computed, s)) - computed && gs[0].chunk >= gs[i + 1].chunk;
      }
      WidestFirst(gs[1..], computed, s, next, m);
    }
  }

  function Wide<Key>(q: Query<Key>): (nat, nat) -> bool {
    (i: nat, j: nat) => WidthOf(q, i) >= WidthOf(q, j)
  }

  function WidthOf<Key>(q: Query<Key>, i: nat): nat { if i < |q.groups| then q.groups[i].chunk else 0 }

  lemma SortReorders<Key>(q: Query<Key>)
    requires q.Valid()
    ensures var a := StableSort(q.lookup, Wide(q));
            Reorders(q, a) && forall i, j :: 0 <= i < j < |a| ==> q.groups[a[i]].chunk >= q.groups[a[j]].chunk
  {
    var a := StableSort(q.lookup, Wide(q));
    SortMultiset(q.lookup, Wide(q));
    SortMembers(q.lookup, Wide(q));
    assert TotalPreorder(Wide(q));
    SortIsSorted(q.lookup, Wide(q));
    forall i | 0 <= i < |a|
      ensures a[i] < |q.groups|
    {
      assert a[i] in q.lookup;
    }
    forall i, j | 0 <= i < j < |a|
      ensures q.groups[a[i]].chunk >= q.groups[a[j]].chunk
    {
      assert Wide(q)(a[i], a[j]);
    }
  }

  lemma FullTailFree<Key>(q: Query<Key>, a: seq<nat>)
    requires q.Valid() && AllFull(Select(q, q.lookup)) && Reorders(q, a)
    ensures NoTail(q, q.lookup) && AllFull(Select(q, a))
  {
    forall i | 0 <= i < |q.lookup|
      ensures !q.groups[q.lookup[i]].tail
    {
      assert Full(Select(q, q.lookup)[i]);
    }
    forall i | 0 <= i < |a|
      ensures Full(Select(q, a)[i])
    {
      var j := ReorderedNames(q, q.lookup, a, i);
      assert Full(Select(q, q.lookup)[j]);
    }
  }

  lemma FullAlone<Key>(q: Query<Key>, s: set<Key>, a: seq<nat>, i: nat)
    requires q.Valid() && Reorders(q, a) && i < |a| && Full(q.groups[a[i]]) && q.lookup != [] && Best(q, s) > 0
    ensures var g := q.groups[a[i]];
            && g.chunk <= Min(q.Initial(), Limit(g, q.computed, s)) - q.computed
            && q.computed + Best(q, s) <= Min(q.Initial(), Limit(g, q.computed, s))
  {
    GivesAlone(q, s, a, i);
    FullShrink(q.groups[a[i]], q.computed, s, q.Initial());
  }

  lemma {:induction false} WidestFirstReaches<Key>(q: Query<Key>, s: set<Key>, a: seq<nat>)
    requires q.Valid() && AllFull(Select(q, q.lookup)) && Best(q, s) > 0 && Reorders(q, a)
    requires forall i, j :: 0 <= i < j < |a| ==> q.groups[a[i]].chunk >= q.groups[a[j]].chunk
    ensures AtMost(Some(q.computed + Best(q, s)), Fold(Select(q, a), q.computed, s, q.Initial()))
  {
    var gs := Select(q, a);
    FullTailFree(q, a);
    SameLength(q, a);
    forall i | 0 <= i < |gs|
      ensures gs[i].chunk <= Min(q.Initial(), Limit(gs[i], q.computed, s)) - q.computed
      ensures q.computed + Best(q, s) <= Min(q.Initial(), Limit(gs[i], q.computed, s))
    {
      assert Full(gs[i]);
      FullAlone(q, s, a, i);
    }
    assert q.computed + Best(q, s) <= Min(q.Initial(), Limit(gs[0], q.computed, s));
    WidestFirst(gs, q.computed, s, q.Initial(), q.computed + Best(q, s));
  }

  /** For full-prefix groups, listing the widest first is best too. */
  lemma WidestFirstIsBest<Key>(q: Query<Key>, s: set<Key>)
    requires q.Valid() && AllFull(Select(q, q.lookup))
    ensures var a := StableSort(q.lookup, Wide(q)); Reorders(q, a) && Predicted(In(q, a), s) == Best(q, s)
  {
    var a := StableSort(q.lookup, Wide(q));
    SortReorders(q);
    FullTailFree(q, a);
    AtMostBest(q, s, a);
    if Best(q, s) > 0 {
      PredictedIn(q, s, a);
      WidestFirstReaches(q, s, a);
    }
  }

  // ---- an input on which it matters -----------------------------------------

  const WIDE: Group<int> := Group(4, [10, 11], None, false)
  const THIN: Group<int> := Group(1, [0, 1, 2, 3, 4, 5, 6, 7], None, false)

  const RESIDENT: set<int> := {10, 11, 0, 1}

  lemma WideKeepsAll()
    ensures Shrink(WIDE, 0, RESIDENT, false, 8) == Some(8)
  {
    assert WIDE.keys[0..2] == WIDE.keys;
  }

  lemma ThinKeepsTwo()
    ensures Shrink(THIN, 0, RESIDENT, false, 8) == Some(2)
  {
    assert THIN.keys[0..8] == THIN.keys;
  }

  lemma WideThenThin()
    ensures Predicted(Query([WIDE, THIN], [0, 1], [], 8, 0, None), RESIDENT) == 2
  {
    var a := Query([WIDE, THIN], [0, 1], [], 8, 0, None);
    WideKeepsAll();
    ThinKeepsTwo();
    assert Pass(a, RESIDENT, [1], Loop({}, 8, 8)) == Pass(a, RESIDENT, [], Loop({}, 2, 2)) == 2;
    assert Pass(a, RESIDENT, [0, 1], Loop({}, 8, 0)) == 2;
  }

  lemma ThinThenWide()
    ensures Predicted(Query([WIDE, THIN], [1, 0], [], 8, 0, None), RESIDENT) == 0
  {
    var b := Query([WIDE, THIN], [1, 0], [], 8, 0, None);
    ThinKeepsTwo();
    assert Pass(b, RESIDENT, [0], Loop({}, 2, 2)) == 0;
    assert Pass(b, RESIDENT, [1, 0], Loop({}, 8, 0)) == 0;
  }

  /** Two groups in either order. */
  lemma OrderMatters()
    ensures Predicted(Query([WIDE, THIN], [0, 1], [], 8, 0, None), RESIDENT) == 2 < WIDE.chunk
    ensures Predicted(Query([WIDE, THIN], [1, 0], [], 8, 0, None), RESIDENT) == 0
  {
    WideThenThin();
    ThinThenWide();
  }

  // ---- a tail group named twice ---------------------------------------------

  const TAIL: Group<int> := Group(1, [0, 1, 2, 3, 4, 5, 6, 7], None, true)
  const PLAIN: Group<int> := Group(1, [10, 11, 12, 13, 14, 15, 16, 17], None, false)

  const TWICE: Query<int> := Query([TAIL, PLAIN], [0, 1, 0], [], 8, 0, None)
  /** The first `n` keys of the tail group, and the first four of the other. */
  function Held(n: nat): (s: set<int>)
    requires n <= 8
    ensures forall i :: i in s <==> 0 <= i < n || 10 <= i < 14
  {
    if n == 0 then {10, 11, 12, 13} else Held(n - 1) + {n - 1}
  }

  lemma {:induction false} LeadingIs<Key>(keys: seq<Key>, s: set<Key>, n: nat)
    requires n <= |keys| && (forall i :: 0 <= i < n ==> keys[i] in s) && (n < |keys| ==> keys[n] !in s)
    ensures LeadingHits(keys, s) == n
  {
    LeadingAtLeast(keys, s, n);
  }

  lemma UnitShrink<Key>(g: Group<Key>, s: set<Key>, drop: bool, b: nat, n: nat)
    requires g.chunk == 1 && g.window.None? && n <= b && 1 <= b <= |g.keys|
    requires (forall i :: 0 <= i < n ==> g.keys[i] in s) && (n < b ==> g.keys[n] !in s)
    ensures var r := n - if drop then 1 else 0;
            Shrink(g, 0, s, drop, b) == if r < 1 then None else Some(r)
  {
    UnitHits(g, s, drop, b, n);
  }

  lemma UnitHits<Key>(g: Group<Key>, s: set<Key>, drop: bool, b: nat, n: nat)
    requires g.chunk == 1 && g.window.None? && n <= b && 1 <= b <= |g.keys|
    requires (forall i :: 0 <= i < n ==> g.keys[i] in s) && (n < b ==> g.keys[n] !in s)
    ensures Hits(g, 0, s, drop, b) == n
  {
    assert Slice(g.keys, 0, Chunks(g, drop, b)) == g.keys[..b];
    LeadingIs(g.keys[..b], s, n);
  }

  const TAILS: Query<int> := Query([TAIL, TAIL], [0, 1], [], 2, 0, None)

  lemma {:induction false} PassOfOne<Key>(q: Query<Key>, s: set<Key>, i: nat, l: Loop, m: Loop)
    requires i < |q.groups| && Once(q, s, i, l) == Some(m)
    ensures Pass(q, s, [i], l) == m.hit
  {
    assert Pass(q, s, [], m) == m.hit;
    assert [i][1..] == [];
  }

  lemma {:induction false} PassOfTwo<Key>(q: Query<Key>, s: set<Key>, i: nat, j: nat, m: Loop)
    requires i < |q.groups| && j < |q.groups|
    requires Once(q, s, i, Entry(q)) == Some(m) && Once(q, s, j, m) == None
    ensures Predicted(In(q, [i, j]), s) == 0 && Predicted(In(q, [i]), s) == m.hit
  {
    SameOnce(q, s, [i, j], i, Entry(q));
    SameOnce(q, s, [i, j], j, m);
    SameOnce(q, s, [i], i, Entry(q));
    PassOfOne(In(q, [i]), s, i, Entry(q), m);
    assert [i, j][1..] == [j];
    assert Pass(In(q, [i, j]), s, [j], m) == 0;
  }

  /** A turn of the loop does not look at the list. */
  lemma SameOnce<Key>(q: Query<Key>, s: set<Key>, a: seq<nat>, i: nat, l: Loop)
    requires i < |q.groups|
    ensures Once(In(q, a), s, i, l) == Once(q, s, i, l) && Entry(In(q, a)) == Entry(q)
  {
  }

  lemma TailsStep<Key>(q: Query<Key>, s: set<Key>, g: Group<Key>, i: nat, j: nat)
    requires i < |q.groups| && j < |q.groups| && i != j && q.groups[i] == g && q.groups[j] == g && g.tail
    requires q.computed == 0 && q.Initial() == 2 && g.chunk == 1 && g.window.None? && |g.keys| >= 2
    requires g.keys[0] in s && g.keys[1] in s
    ensures Once(q, s, i, Entry(q)) == Some(Loop({i}, 1, 1)) && Once(q, s, j, Loop({i}, 1, 1)) == None
  {
    UnitShrink(g, s, true, 2, 2);
    UnitShrink(g, s, true, 1, 1);
    assert {} + {i} == {i};
  }

  lemma TailsOrder(i: nat, j: nat)
    requires i < 2 && j < 2 && i != j
    ensures Predicted(In(TAILS, [i, j]), {0, 1}) == 0 && Predicted(In(TAILS, [i]), {0, 1}) == 1
  {
    TailsStep(TAILS, {0, 1}, TAIL, i, j);
    PassOfTwo(TAILS, {0, 1}, i, j, Loop({i}, 1, 1));
  }

  /** Two groups that drop their tails give nothing in either order, though each gives a token alone. */
  lemma TailsDropTwice()
    ensures Predicted(In(TAILS, [0, 1]), {0, 1}) == 0 && Predicted(In(TAILS, [1, 0]), {0, 1}) == 0
    ensures Predicted(In(TAILS, [0]), {0, 1}) == 1 && Predicted(In(TAILS, [1]), {0, 1}) == 1
  {
    TailsOrder(0, 1);
    TailsOrder(1, 0);
  }

  lemma TwiceGroups()
    ensures TWICE.groups[0] == TAIL && TWICE.groups[1] == PLAIN && TWICE.computed == 0
    ensures forall i :: 0 <= i < 8 ==> TAIL.keys[i] == i && PLAIN.keys[i] == 10 + i
  {
  }

  /** A step of the first group, which holds its first `n` keys. */
  lemma {:induction false} TailStep(n: nat, l: Loop, next: Loop)
    requires n <= 8 && 1 <= l.bound <= 8 && next.verified == l.verified + {0}
    requires next.bound == next.hit == Min(n, l.bound) - (if 0 in l.verified then 0 else 1) >= 1
    ensures Once(TWICE, Held(n), 0, l) == Some(next)
  {
    TwiceGroups();
    UnitShrink(TAIL, Held(n), 0 !in l.verified, l.bound, Min(n, l.bound));
    TailOnceMore(TWICE, Held(n), 0, l, next);
  }

  lemma TailOnceMore<Key>(q: Query<Key>, s: set<Key>, i: nat, l: Loop, next: Loop)
    requires i < |q.groups| && q.groups[i].tail && next.verified == l.verified + {i}
    requires Shrink(q.groups[i], q.computed, s, i !in l.verified, l.bound) == Some(next.bound)
    requires next.hit == next.bound - q.computed
    ensures Once(q, s, i, l) == Some(next)
  {
    assert i in l.verified ==> l.verified + {i} == l.verified;
  }

  /** A step of the second, which holds its first four. */
  lemma {:induction false} PlainStep(n: nat, l: Loop, next: Loop)
    requires n <= 8 && 1 <= l.bound <= 8
    requires next.bound == next.hit == Min(4, l.bound) && next.verified == if next.hit < l.hit then {} else l.verified
    ensures Once(TWICE, Held(n), 1, l) == Some(next)
  {
    TwiceGroups();
    UnitShrink(PLAIN, Held(n), false, l.bound, Min(4, l.bound));
  }

  lemma {:induction false} PassOfThree<Key>(q: Query<Key>, s: set<Key>, a: nat, b: nat, c: nat, l: Loop, m: Loop,
          n: Loop, r: Loop)
    requires Named(q, [a, b, c])
    requires a < |q.groups| && Once(q, s, a, l) == Some(m)
    requires b < |q.groups| && Once(q, s, b, m) == Some(n)
    requires c < |q.groups| && Once(q, s, c, n) == Some(r)
    ensures Pass(q, s, [a, b, c], l) == r.hit
  {
    assert [a, b, c][1..] == [b, c] && [b, c][1..] == [c] && [c][1..] == [];
    assert Named(q, [c]) && Named(q, [b, c]) && Named(q, []);
    assert Pass(q, s, [], r) == r.hit;
    assert Pass(q, s, [c], n) == r.hit;
    assert Pass(q, s, [b, c], m) == r.hit;
  }

  lemma TwicePasses(s: set<int>, m: Loop, n: Loop, r: Loop)
    requires Once(TWICE, s, 0, Loop({}, 8, 0)) == Some(m) && Once(TWICE, s, 1, m) == Some(n)
    requires Once(TWICE, s, 0, n) == Some(r)
    ensures Predicted(TWICE, s) == r.hit
  {
    PassOfThree(TWICE, s, 0, 1, 0, Loop({}, 8, 0), m, n, r);
  }

  lemma TwiceWithFewer()
    ensures Predicted(TWICE, Held(5)) == 4
  {
    TailStep(5, Loop({}, 8, 0), Loop({0}, 4, 4));
    PlainStep(5, Loop({0}, 4, 4), Loop({0}, 4, 4));
    TailStep(5, Loop({0}, 4, 4), Loop({0}, 4, 4));
    TwicePasses(Held(5), Loop({0}, 4, 4), Loop({0}, 4, 4), Loop({0}, 4, 4));
  }

  lemma TwiceWithMore()
    ensures Predicted(TWICE, Held(6)) == 3
  {
    TailStep(6, Loop({}, 8, 0), Loop({0}, 5, 5));
    PlainStep(6, Loop({0}, 5, 5), Loop({}, 4, 4));
    TailStep(6, Loop({}, 4, 4), Loop({0}, 3, 3));
    TwicePasses(Held(6), Loop({0}, 5, 5), Loop({}, 4, 4), Loop({0}, 3, 3));
  }

  /** When a group that drops its tail is named twice, one more resident key can lower the prediction: it
      lets the first sighting reach further, the group in between forgets that the tail was verified, and
      the second sighting drops a tail again. */
  lemma TailTwiceHurts()
    ensures !TailOnce(TWICE, TWICE.lookup) && Held(5) <= Held(6)
        && Predicted(TWICE, Held(6)) < Predicted(TWICE, Held(5))
  {
    TwiceWithFewer();
    TwiceWithMore();
    assert TWICE.lookup[0] == TWICE.lookup[2];
  }
}
