/** The multi-group lookup arithmetic of experiments/connector_lookup_veto_probe.py (`predict`).

    One boundary, in tokens, is shrunk by each cache group in turn.  Groups differ in chunk width,
    in whether they need the whole prefix or only a trailing window, and in whether they drop a
    speculative tail chunk.  Keys are a type parameter; `stored` is the resident set. */
module Lookup {
  import opened Base

  datatype Group<Key> = Group(chunk: Positive, keys: seq<Key>, window: Option<Positive>, tail: bool)

  /** The request and the scheduler's configuration.  `lookup` and `sliding` list group indices. */
  datatype Query<Key> = Query(groups: seq<Group<Key>>, lookup: seq<nat>, sliding: seq<nat>,
                              tokens: nat, computed: nat, align: Option<Positive>) {
    ghost predicate Valid() { Named(this, lookup) }

    /** The boundary before any group is looked up. */
    function Initial(): int {
      if sliding == [] then tokens
      else if align.Some? then RoundDown(tokens - 1, align.value) else tokens - 1
    }
  }

  function Min(a: int, b: int): int { if a <= b then a else b }

  function Cdiv(a: int, b: Positive): int { -(-a / b) }

  function RoundDown(a: int, b: Positive): int { (a / b) * b }

  // ---- resident runs --------------------------------------------------------

  function LeadingHits<Key>(keys: seq<Key>, stored: set<Key>): (n: nat)
    ensures n <= |keys| && (forall i :: 0 <= i < n ==> keys[i] in stored)
    ensures n < |keys| ==> keys[n] !in stored
  {
    if keys == [] || keys[0] !in stored then 0 else 1 + LeadingHits(keys[1..], stored)
  }

  /** The `window` keys that end just before index `end` are all resident. */
  predicate FullAt<Key>(keys: seq<Key>, window: Positive, stored: set<Key>, end: nat) {
    window <= end <= |keys| && forall i :: end - window <= i < end ==> keys[i] in stored
  }

  /** The last end, at or before `end`, of a full resident window. */
  function LastFull<Key>(keys: seq<Key>, window: Positive, stored: set<Key>, end: nat): (e: Option<nat>)
    ensures e.Some? ==> e.value <= end && FullAt(keys, window, stored, e.value)
    ensures forall f: nat :: f <= end && FullAt(keys, window, stored, f) ==> e.Some? && f <= e.value
  {
    if FullAt(keys, window, stored, end) then Some(end)
    else if end == 0 then None else LastFull(keys, window, stored, end - 1)
  }

  function TrailingRun<Key>(keys: seq<Key>, window: Positive, stored: set<Key>): nat {
    match LastFull(keys, window, stored, |keys|)
    case Some(e) => e
    case None => LeadingHits(keys, stored)
  }

  method CountLeading<Key(==)>(keys: seq<Key>, stored: set<Key>) returns (n: nat)
    ensures n == LeadingHits(keys, stored)
  {
    n := 0;
    while n < |keys| && keys[n] in stored
      invariant n <= |keys| && forall i :: 0 <= i < n ==> keys[i] in stored
    {
      n := n + 1;
    }
  }

  /** The scan from the end: stop at the first full window, else report the run that starts the list. */
  method CountTrailing<Key(==)>(keys: seq<Key>, window: Positive, stored: set<Key>) returns (n: nat)
    ensures n == TrailingRun(keys, window, stored)
  {
    var run := 0;
    var idx := |keys|;
    while idx > 0
      invariant 0 <= idx <= |keys| && 0 <= run < window && idx + run <= |keys|
      invariant forall i :: idx <= i < idx + run ==> keys[i] in stored
      invariant idx + run < |keys| ==> keys[idx + run] !in stored
      invariant forall e: nat :: idx + run < e ==> !FullAt(keys, window, stored, e)
    {
      idx := idx - 1;
      if keys[idx] in stored {
        run := run + 1;
      } else {
        assert forall e: nat :: idx < e <= idx + 1 + run && FullAt(keys, window, stored, e) ==> keys[idx] in stored;
        run := 0;
      }
      if run == window {
        assert FullAt(keys, window, stored, idx + window);
        return idx + window;
      }
    }
    forall e: nat
      ensures !FullAt(keys, window, stored, e)
    {
    }
    return run;
  }

  // ---- one group ------------------------------------------------------------

  /** What one group makes of the boundary; `None` is a result of zero for the whole query. */
  function Shrink<Key>(g: Group<Key>, computed: nat, stored: set<Key>, drop: bool, bound: int): Option<int> {
    var b := Min(bound, |g.keys| * g.chunk);
    if b - computed < g.chunk then None
    else
      var hits := Hits(g, computed, stored, drop, b);
      if hits == 0 then None
      else Cut(g.chunk, computed, b, computed / g.chunk + hits - if drop then 1 else 0)
  }

  /** The boundary cut to chunk `end`, unless it leaves less than a chunk to hit. */
  function Cut(chunk: Positive, computed: nat, b: int, end: int): Option<int> {
    var r := Min(b, chunk * end);
    if r - computed < chunk then None else Some(r)
  }

  function Chunks<Key>(g: Group<Key>, drop: bool, b: int): int {
    var q := if drop && g.window.Some? then Min(b + g.chunk, |g.keys| * g.chunk) else b;
    Min(Cdiv(q, g.chunk), |g.keys|)
  }

  /** Python's keys[start:stop] for 0 <= start. */
  function Slice<Key>(keys: seq<Key>, start: nat, stop: int): seq<Key> {
    if start <= stop <= |keys| then keys[start..stop] else []
  }

  /** Resident chunks counted from the computed start of the group. */
  function Hits<Key>(g: Group<Key>, computed: nat, stored: set<Key>, drop: bool, b: int): nat {
    var sliced := Slice(g.keys, computed / g.chunk, Chunks(g, drop, b));
    match g.window
    case None => LeadingHits(sliced, stored)
    case Some(w) => TrailingRun(sliced, w + if drop then 1 else 0, stored)
  }

  // ---- the pass over the groups ---------------------------------------------

  /** What the loop over the groups carries: the tail groups already verified, the boundary, the hit tokens. */
  datatype Loop = Loop(verified: set<nat>, bound: int, hit: int)

  /** One turn of the loop; `None` is an early return of zero. */
  function Once<Key>(q: Query<Key>, stored: set<Key>, i: nat, l: Loop): Option<Loop>
    requires i < |q.groups|
  {
    var g := q.groups[i];
    var drop := g.tail && i !in l.verified;
    match Shrink(g, q.computed, stored, drop, l.bound)
    case None => None
    case Some(b) =>
      var seen := if drop then l.verified + {i} else l.verified;
      Some(Loop(if b - q.computed < l.hit && !g.tail then {} else seen, b, b - q.computed))
  }

  /** The groups of a list are groups of the query. */
  ghost predicate Named<Key>(q: Query<Key>, todo: seq<nat>) { forall i :: 0 <= i < |todo| ==> todo[i] < |q.groups| }

  /** The loop over the groups. */
  function Pass<Key>(q: Query<Key>, stored: set<Key>, todo: seq<nat>, l: Loop): int
    requires Named(q, todo)
  {
    if todo == [] then l.hit
    else
      match Once(q, stored, todo[0], l)
      case None => 0
      case Some(next) => Pass(q, stored, todo[1..], next)
  }

  /** The same pass when no group is looked up twice: every tail group drops its tail. */
  function Fold<Key>(gs: seq<Group<Key>>, computed: nat, stored: set<Key>, bound: int): Option<int> {
    if gs == [] then Some(bound)
    else
      match Shrink(gs[0], computed, stored, gs[0].tail, bound)
      case None => None
      case Some(b) => Fold(gs[1..], computed, stored, b)
  }

  function Select<Key>(q: Query<Key>, todo: seq<nat>): (gs: seq<Group<Key>>)
    requires Named(q, todo)
    ensures |gs| == |todo| && forall i :: 0 <= i < |gs| ==> gs[i] == q.groups[todo[i]]
  {
    seq(|todo|, i requires 0 <= i < |todo| => q.groups[todo[i]])
  }

  /** Where the loop starts. */
  function Entry<Key>(q: Query<Key>): Loop { Loop({}, q.Initial(), 0) }

  /** The predicted number of hit tokens. */
  function Predicted<Key>(q: Query<Key>, stored: set<Key>): int
    requires q.Valid()
  {
    Pass(q, stored, q.lookup, Entry(q))
  }

  /** No group that drops a tail is named twice. */
  ghost predicate TailOnce<Key>(q: Query<Key>, todo: seq<nat>)
    requires Named(q, todo)
  {
    forall i, j :: 0 <= i < j < |todo| && todo[i] == todo[j] ==> !q.groups[todo[i]].tail
  }

  lemma {:induction false} PassIsFold<Key>(q: Query<Key>, stored: set<Key>, todo: seq<nat>, l: Loop)
    requires Named(q, todo) && TailOnce(q, todo)
    requires forall i :: 0 <= i < |todo| && q.groups[todo[i]].tail ==> todo[i] !in l.verified
    ensures var r := Fold(Select(q, todo), q.computed, stored, l.bound);
            Pass(q, stored, todo, l) == if r.None? then 0 else if todo == [] then l.hit else r.value - q.computed
  {
    if todo != [] {
      assert Select(q, todo)[1..] == Select(q, todo[1..]);
      match Once(q, stored, todo[0], l)
      case None =>
      case Some(next) => PassIsFold(q, stored, todo[1..], next);
    }
  }

  lemma {:induction false} PredictedIsFold<Key>(q: Query<Key>, stored: set<Key>)
    requires q.Valid() && TailOnce(q, q.lookup) && q.lookup != []
    ensures var r := Fold(Select(q, q.lookup), q.computed, stored, q.Initial());
            Predicted(q, stored) == if r.None? then 0 else r.value - q.computed
  {
    PassIsFold(q, stored, q.lookup, Entry(q));
  }

  /** The body of the loop over the groups, up to its early returns of zero. */
  method LookUpGroup<Key(==)>(g: Group<Key>, computed: nat, stored: set<Key>, unverified: bool, bound: int)
    returns (r: Option<int>)
    ensures r == Shrink(g, computed, stored, unverified, bound)
  {
    var maxHit := Min(bound, |g.keys| * g.chunk);
    if maxHit - computed < g.chunk { return None; }
    var qmax := maxHit;
    if unverified && g.window.Some? { qmax := Min(maxHit + g.chunk, |g.keys| * g.chunk); }
    var nchunks := Min(Cdiv(qmax, g.chunk), |g.keys|);
    var start := computed / g.chunk;
    var sliced := Slice(g.keys, start, nchunks);
    var nhit: int;
    match g.window {
      case None => nhit := CountLeading(sliced, stored);
      case Some(w) => nhit := CountTrailing(sliced, w + if unverified then 1 else 0, stored);
    }
    if nhit == 0 { return None; }
    if unverified { nhit := nhit - 1; }
    maxHit := Min(maxHit, g.chunk * (start + nhit));
    if maxHit - computed < g.chunk { return None; }
    return Some(maxHit);
  }

  /** Fewer keys than whole chunks of tokens: the assertion of the loop fails on such a group. */
  predicate TooFew<Key>(g: Group<Key>, tokens: nat) { |g.keys| < tokens / g.chunk }

  /** The loop reaches such a group. */
  predicate Stops<Key>(q: Query<Key>, stored: set<Key>, todo: seq<nat>, l: Loop)
    requires Named(q, todo)
  {
    if todo == [] then false
    else if TooFew(q.groups[todo[0]], q.tokens) then true
    else
      match Once(q, stored, todo[0], l)
      case None => false
      case Some(next) => Stops(q, stored, todo[1..], next)
  }

  /** The loop over the groups of one round; `ok` unless the key-count assertion fails. */
  method OnePass<Key(==)>(q: Query<Key>, stored: set<Key>, giter: seq<nat>, bound: int) returns (hit: int, ok: bool)
    requires Named(q, giter)
    ensures ok <==> !Stops(q, stored, giter, Loop({}, bound, 0))
    ensures ok ==> hit == Pass(q, stored, giter, Loop({}, bound, 0))
  {
    var maxHit, verified: set<nat> := bound, {};
    hit := 0;
    for i := 0 to |giter|
      invariant Pass(q, stored, giter[i..], Loop(verified, maxHit, hit)) == Pass(q, stored, giter, Loop({}, bound, 0))
      invariant Stops(q, stored, giter[i..], Loop(verified, maxHit, hit))
             == Stops(q, stored, giter, Loop({}, bound, 0))
    {
      assert giter[i..][1..] == giter[i + 1..];
      var g := q.groups[giter[i]];
      if |g.keys| < q.tokens / g.chunk { return 0, false; }
      var unverified := g.tail && giter[i] !in verified;
      var r := LookUpGroup(g, q.computed, stored, unverified, maxHit);
      if r.None? { return 0, true; }
      if unverified { verified := verified + {giter[i]}; }
      maxHit := r.value;
      var gained := maxHit - q.computed;
      if gained < hit && !g.tail { verified := {}; }
      hit := gained;
    }
    return hit, true;
  }

  datatype Halt = Returned | LoopGuard | TooFewKeys

  /** `predict`.  The outer loop empties its worklist, so it runs at most once and its convergence
      guard never fires. */
  method Predict<Key(==)>(q: Query<Key>, stored: set<Key>) returns (hit: int, halt: Halt)
    requires q.Valid()
    ensures halt == if Stops(q, stored, q.lookup, Entry(q)) then TooFewKeys else Returned
    ensures halt == Returned ==> hit == Predicted(q, stored)
  {
    var maxHit: int := q.tokens;
    if q.sliding != [] {
      maxHit := maxHit - 1;
      if q.align.Some? { maxHit := RoundDown(maxHit, q.align.value); }
    }
    var groups := q.lookup;
    hit := 0;
    var guard := 0;
    while groups != []
      invariant groups != [] ==> groups == q.lookup && guard == 0 && maxHit == q.Initial() && hit == 0
      invariant groups == [] ==> hit == Predicted(q, stored) && !Stops(q, stored, q.lookup, Entry(q))
      decreases |groups|
    {
      guard := guard + 1;
      if guard > 20 { return 0, LoopGuard; }
      var giter := groups;
      groups := [];
      var ok;
      hit, ok := OnePass(q, stored, giter, maxHit);
      if !ok { return 0, TooFewKeys; }
    }
    return hit, Returned;
  }

  // ---- arithmetic of chunks -------------------------------------------------

  lemma CdivBounds(a: int, b: Positive)
    ensures (Cdiv(a, b) - 1) * b < a <= Cdiv(a, b) * b
  {
  }

  /** `Cdiv(a, b)` is the least `n` with a <= n * b. */
  lemma CdivLeast(a: int, b: Positive, n: int)
    ensures a <= n * b <==> Cdiv(a, b) <= n
  {
    CdivBounds(a, b);
    if Cdiv(a, b) <= n { MulMono(b, Cdiv(a, b), n); } else { MulMono(b, n, Cdiv(a, b) - 1); }
  }

  lemma CdivMono(a: int, a': int, b: Positive)
    requires a <= a'
    ensures Cdiv(a, b) <= Cdiv(a', b)
  {
    CdivBounds(a', b);
    CdivLeast(a, b, Cdiv(a', b));
  }

  lemma CdivNext(a: int, b: Positive)
    ensures Cdiv(a + b, b) == Cdiv(a, b) + 1
  {
    CdivBounds(a, b);
    CdivLeast(a + b, b, Cdiv(a, b) + 1);
    CdivLeast(a + b, b, Cdiv(a, b));
  }

  lemma StartBelow(computed: nat, c: Positive, b: int)
    requires computed + c <= b
    ensures computed / c < Cdiv(b, c)
  {
    var s := computed / c;
    assert s * c == computed - computed % c;
    CdivLeast(b, c, s);
  }

  /** With a whole chunk to look up, the slice is not empty and stays inside the key list. */
  lemma SliceInside<Key>(g: Group<Key>, computed: nat, drop: bool, b: int)
    requires computed + g.chunk <= b <= |g.keys| * g.chunk
    ensures computed / g.chunk < Cdiv(b, g.chunk) <= Chunks(g, drop, b) <= |g.keys|
    ensures Chunks(g, drop, b) <= Cdiv(b, g.chunk) + if drop && g.window.Some? then 1 else 0
  {
    var c, most := g.chunk, |g.keys| * g.chunk;
    StartBelow(computed, c, b);
    CdivLeast(b, c, |g.keys|);
    if drop && g.window.Some? {
      CdivMono(b, Min(b + c, most), c);
      CdivMono(Min(b + c, most), b + c, c);
      CdivNext(b, c);
    }
  }

  lemma InitialAtMost<Key>(q: Query<Key>)
    ensures q.Initial() <= q.tokens
  {
    if q.align.Some? {
      var a, b := q.tokens - 1, q.align.value;
      assert (a / b) * b == a - a % b;
    }
  }

  // ---- monotonicity ---------------------------------------------------------

  /** The order of partial results: a miss is below every boundary. */
  predicate AtMost(a: Option<int>, b: Option<int>) {
    a.None? || (b.Some? && a.value <= b.value)
  }

  lemma {:induction false} LeadingAtLeast<Key>(k: seq<Key>, s: set<Key>, n: nat)
    requires n <= |k| && forall i :: 0 <= i < n ==> k[i] in s
    ensures LeadingHits(k, s) >= n
  {
    if n > 0 { LeadingAtLeast(k[1..], s, n - 1); }
  }

  lemma {:induction false} LeadingMono<Key>(k: seq<Key>, k': seq<Key>, s: set<Key>, s': set<Key>)
    requires k <= k' && s <= s'
    ensures LeadingHits(k, s) <= LeadingHits(k', s')
  {
    LeadingAtLeast(k', s', LeadingHits(k, s));
  }

  lemma TrailingMono<Key>(k: seq<Key>, k': seq<Key>, w: Positive, s: set<Key>, s': set<Key>)
    requires k <= k' && s <= s'
    ensures TrailingRun(k, w, s) <= TrailingRun(k', w, s')
  {
    match LastFull(k, w, s, |k|)
    case Some(e) =>
      assert FullAt(k', w, s', e);
    case None =>
      LeadingMono(k, k', s, s');
      LeadingWithin(k', w, s');
  }

  /** The trailing run never falls short of the leading run. */
  lemma {:induction false} LeadingWithin<Key>(k: seq<Key>, w: Positive, s: set<Key>)
    ensures LeadingHits(k, s) <= TrailingRun(k, w, s)
  {
    var n := LeadingHits(k, s);
    if n >= w { assert FullAt(k, w, s, n); }
  }

  lemma ShrinkMono<Key>(g: Group<Key>, computed: nat, s: set<Key>, s': set<Key>, drop: bool, b: int, b': int)
    requires s <= s' && b <= b'
    ensures AtMost(Shrink(g, computed, s, drop, b), Shrink(g, computed, s', drop, b'))
  {
    var m, m' := Min(b, |g.keys| * g.chunk), Min(b', |g.keys| * g.chunk);
    if m - computed >= g.chunk {
      HitsMono(g, computed, s, s', drop, m, m');
      var start, d := computed / g.chunk, if drop then 1 else 0;
      CutMono(g.chunk, computed, m, m', start + Hits(g, computed, s, drop, m) - d,
          start + Hits(g, computed, s', drop, m') - d);
    }
  }

  lemma CutMono(chunk: Positive, computed: nat, b: int, b': int, end: int, end': int)
    requires b <= b' && end <= end'
    ensures AtMost(Cut(chunk, computed, b, end), Cut(chunk, computed, b', end'))
  {
    MulMono(chunk, end, end');
  }

  lemma HitsMono<Key>(g: Group<Key>, computed: nat, s: set<Key>, s': set<Key>, drop: bool, m: int, m': int)
    requires s <= s' && computed + g.chunk <= m <= m' <= |g.keys| * g.chunk
    ensures Hits(g, computed, s, drop, m) <= Hits(g, computed, s', drop, m')
  {
    SliceInside(g, computed, drop, m);
    SliceInside(g, computed, drop, m');
    ChunksMono(g, drop, m, m');
    var start := computed / g.chunk;
    var k, k' := Slice(g.keys, start, Chunks(g, drop, m)), Slice(g.keys, start, Chunks(g, drop, m'));
    assert k <= k';
    match g.window {
      case None => LeadingMono(k, k', s, s');
      case Some(w) => TrailingMono(k, k', w + if drop then 1 else 0, s, s');
    }
  }

  lemma ChunksMono<Key>(g: Group<Key>, drop: bool, b: int, b': int)
    requires b <= b'
    ensures Chunks(g, drop, b) <= Chunks(g, drop, b')
  {
    var c, most := g.chunk, |g.keys| * g.chunk;
    if drop && g.window.Some? {
      CdivMono(Min(b + c, most), Min(b' + c, most), c);
    } else {
      CdivMono(b, b', c);
    }
  }

  lemma ShrinkShrinks<Key>(g: Group<Key>, computed: nat, s: set<Key>, drop: bool, b: int)
    ensures AtMost(Shrink(g, computed, s, drop, b), Some(b))
  {
  }

  lemma {:induction false} FoldMono<Key>(gs: seq<Group<Key>>, computed: nat, s: set<Key>, s': set<Key>, b: int, b': int)
    requires s <= s' && b <= b'
    ensures AtMost(Fold(gs, computed, s, b), Fold(gs, computed, s', b'))
  {
    if gs != [] {
      ShrinkMono(gs[0], computed, s, s', gs[0].tail, b, b');
      var r, r' := Shrink(gs[0], computed, s, gs[0].tail, b), Shrink(gs[0], computed, s', gs[0].tail, b');
      if r.Some? { FoldMono(gs[1..], computed, s, s', r.value, r'.value); }
    }
  }

  lemma {:induction false} FoldDrop<Key>(gs: seq<Group<Key>>, k: nat, computed: nat, s: set<Key>, b: int, b': int)
    requires k < |gs| && b <= b'
    ensures AtMost(Fold(gs, computed, s, b), Fold(gs[..k] + gs[k + 1..], computed, s, b'))
  {
    var rest := gs[..k] + gs[k + 1..];
    var r := Shrink(gs[0], computed, s, gs[0].tail, b);
    if k == 0 {
      assert rest == gs[1..];
      ShrinkShrinks(gs[0], computed, s, gs[0].tail, b);
      if r.Some? { FoldMono(gs[1..], computed, s, s, r.value, b'); }
    } else {
      assert rest[0] == gs[0] && rest[1..] == gs[1..][..k - 1] + gs[1..][k..];
      ShrinkMono(gs[0], computed, s, s, gs[0].tail, b, b');
      var r' := Shrink(gs[0], computed, s, gs[0].tail, b');
      if r.Some? { FoldDrop(gs[1..], k - 1, computed, s, r.value, r'.value); }
    }
  }

  /** A boundary that survives leaves a positive number of hit tokens. */
  lemma {:induction false} FoldPositive<Key>(gs: seq<Group<Key>>, computed: nat, s: set<Key>, b: int)
    requires gs != []
    ensures var r := Fold(gs, computed, s, b); r.Some? ==> computed < r.value <= b
  {
    var r := Shrink(gs[0], computed, s, gs[0].tail, b);
    ShrinkShrinks(gs[0], computed, s, gs[0].tail, b);
    if r.Some? && gs[1..] != [] { FoldPositive(gs[1..], computed, s, r.value); }
  }

  lemma OnceShrinks<Key>(q: Query<Key>, stored: set<Key>, i: nat, l: Loop)
    requires i < |q.groups|
    ensures var next := Once(q, stored, i, l);
            next.Some? ==> q.computed < next.value.bound <= l.bound && next.value.hit == next.value.bound - q.computed
  {
  }

  /** A pass returns zero, or a positive number within its bound. */
  lemma {:induction false} PassRange<Key>(q: Query<Key>, stored: set<Key>, todo: seq<nat>, l: Loop)
    requires Named(q, todo)
    ensures var r := Pass(q, stored, todo, l);
            if todo == [] then r == l.hit else r == 0 || 0 < r <= l.bound - q.computed
  {
    if todo != [] {
      OnceShrinks(q, stored, todo[0], l);
      match Once(q, stored, todo[0], l)
      case None =>
      case Some(next) => PassRange(q, stored, todo[1..], next);
    }
  }

  lemma PredictedRange<Key>(q: Query<Key>, stored: set<Key>)
    requires q.Valid()
    ensures 0 <= Predicted(q, stored)
    ensures Predicted(q, stored) == 0 || Predicted(q, stored) <= q.tokens - q.computed
  {
    InitialAtMost(q);
    PassRange(q, stored, q.lookup, Entry(q));
  }

  /** Group `i` of the list has too few keys, and the pass over the groups before it does not return zero. */
  predicate StopsAt<Key>(q: Query<Key>, stored: set<Key>, todo: seq<nat>, l: Loop, i: nat)
    requires Named(q, todo) && i < |todo|
  {
    TooFew(q.groups[todo[i]], q.tokens) && (i == 0 || Pass(q, stored, todo[..i], l) > 0)
  }

  lemma {:induction false} StopsSomewhere<Key>(q: Query<Key>, stored: set<Key>, todo: seq<nat>, l: Loop)
      returns (i: nat)
    requires Named(q, todo) && Stops(q, stored, todo, l)
    ensures i < |todo| && StopsAt(q, stored, todo, l, i)
  {
    if TooFew(q.groups[todo[0]], q.tokens) {
      i := 0;
    } else {
      var next := Once(q, stored, todo[0], l).value;
      OnceShrinks(q, stored, todo[0], l);
      var j := StopsSomewhere(q, stored, todo[1..], next);
      i := j + 1;
      assert todo[..i][1..] == todo[1..][..j];
    }
  }

  lemma {:induction false} StopsThere<Key>(q: Query<Key>, stored: set<Key>, todo: seq<nat>, l: Loop, i: nat)
    requires Named(q, todo) && i < |todo| && StopsAt(q, stored, todo, l, i)
    ensures Stops(q, stored, todo, l)
  {
    if i > 0 && !TooFew(q.groups[todo[0]], q.tokens) {
      assert todo[..i][1..] == todo[1..][..i - 1];
      StopsThere(q, stored, todo[1..], Once(q, stored, todo[0], l).value, i - 1);
    }
  }

  /** The loop fails its assertion exactly when there is such a group. */
  lemma {:induction false} StopsIff<Key>(q: Query<Key>, stored: set<Key>)
    requires q.Valid()
    ensures Stops(q, stored, q.lookup, Entry(q))
       <==> exists i :: 0 <= i < |q.lookup| && StopsAt(q, stored, q.lookup, Entry(q), i)
  {
    if Stops(q, stored, q.lookup, Entry(q)) { var i := StopsSomewhere(q, stored, q.lookup, Entry(q)); }
    forall i | 0 <= i < |q.lookup| && StopsAt(q, stored, q.lookup, Entry(q), i)
      ensures Stops(q, stored, q.lookup, Entry(q))
    {
      StopsThere(q, stored, q.lookup, Entry(q), i);
    }
  }

  /** Making more keys resident never lowers the prediction. */
  lemma MoreResidentNeverHurts<Key>(q: Query<Key>, s: set<Key>, s': set<Key>)
    requires q.Valid() && TailOnce(q, q.lookup) && s <= s'
    ensures Predicted(q, s) <= Predicted(q, s')
  {
    if q.lookup != [] {
      PredictedIsFold(q, s);
      PredictedIsFold(q, s');
      FoldMono(Select(q, q.lookup), q.computed, s, s', q.Initial(), q.Initial());
      FoldPositive(Select(q, q.lookup), q.computed, s', q.Initial());
    }
  }

  /** The query without the group at position `k` of the lookup list, also taken off the sliding list. */
  function WithoutGroup<Key>(q: Query<Key>, k: nat, sliding: seq<nat>): Query<Key>
    requires k < |q.lookup|
  {
    q.(lookup := q.lookup[..k] + q.lookup[k + 1..], sliding := sliding)
  }

  lemma InitialDrop<Key>(q: Query<Key>, p: Query<Key>)
    requires p.tokens == q.tokens && p.align == q.align && forall x :: x in p.sliding ==> x in q.sliding
    ensures q.Initial() <= p.Initial()
  {
    InitialAtMost(q);
    if p.sliding != [] { assert p.sliding[0] in q.sliding; }
  }

  /** Dropping a group never lowers the prediction while one lookup group remains. */
  lemma FewerGroupsNeverHurt<Key>(q: Query<Key>, k: nat, sliding: seq<nat>, s: set<Key>)
    requires q.Valid() && TailOnce(q, q.lookup) && k < |q.lookup| && |q.lookup| >= 2
    requires forall x :: x in sliding ==> x in q.sliding
    ensures Predicted(q, s) <= Predicted(WithoutGroup(q, k, sliding), s)
  {
    var p := WithoutGroup(q, k, sliding);
    InitialDrop(q, p);
    PredictedIsFold(q, s);
    PredictedIsFold(p, s);
    assert Select(p, p.lookup) == Select(q, q.lookup)[..k] + Select(q, q.lookup)[k + 1..];
    FoldDrop(Select(q, q.lookup), k, q.computed, s, q.Initial(), p.Initial());
    FoldPositive(Select(p, p.lookup), q.computed, s, p.Initial());
  }

  // ---- soundness and completeness -------------------------------------------

  ghost predicate Resident<Key>(g: Group<Key>, stored: set<Key>, lo: int, hi: int) {
    0 <= lo && hi <= |g.keys| && forall i :: lo <= i < hi ==> g.keys[i] in stored
  }

  /** The group can serve the boundary `b`: all its chunks from the computed start up to the ceiling
      of the boundary are resident or, for a windowed group, a whole window that ends there. */
  ghost predicate Serves<Key>(g: Group<Key>, computed: nat, stored: set<Key>, b: int) {
    var start, end := computed / g.chunk, Cdiv(b, g.chunk);
    || Resident(g, stored, start, end)
    || (g.window.Some? && start <= end - g.window.value && Resident(g, stored, end - g.window.value, end))
  }

  /** A group that shrinks the boundary to `r` serves `r`. */
  lemma ShrinkServes<Key>(g: Group<Key>, computed: nat, s: set<Key>, drop: bool, b: int)
    requires Shrink(g, computed, s, drop, b).Some?
    ensures Serves(g, computed, s, Shrink(g, computed, s, drop, b).value)
  {
    var m := Min(b, |g.keys| * g.chunk);
    SliceInside(g, computed, drop, m);
    ShrinkCeiling(g, computed, s, drop, b);
    HitsServe(g, s, drop, computed / g.chunk, Chunks(g, drop, m), Cdiv(Shrink(g, computed, s, drop, b).value, g.chunk));
  }

  /** The boundary that is left ends in the last counted chunk. */
  lemma ShrinkCeiling<Key>(g: Group<Key>, computed: nat, s: set<Key>, drop: bool, b: int)
    requires Shrink(g, computed, s, drop, b).Some?
    ensures Cdiv(Shrink(g, computed, s, drop, b).value, g.chunk)
         == computed / g.chunk + Hits(g, computed, s, drop, Min(b, |g.keys| * g.chunk)) - (if drop then 1 else 0)
  {
    var m := Min(b, |g.keys| * g.chunk);
    SliceInside(g, computed, drop, m);
    HitsAtMost(g, computed, s, drop, m);
    CutCeiling(g.chunk, computed, m, computed / g.chunk + Hits(g, computed, s, drop, m) - if drop then 1 else 0);
  }

  lemma HitsAtMost<Key>(g: Group<Key>, computed: nat, s: set<Key>, drop: bool, m: int)
    ensures Hits(g, computed, s, drop, m) <= |Slice(g.keys, computed / g.chunk, Chunks(g, drop, m))|
  {
  }

  /** The chunks up to the last counted one are resident, or a whole window of them. */
  lemma {:induction false} HitsServe<Key>(g: Group<Key>, s: set<Key>, drop: bool, start: nat, stop: nat, end: int)
    requires start <= stop <= |g.keys|
    requires var k, d := g.keys[start..stop], if drop then 1 else 0;
             end == start - d + match g.window case None => LeadingHits(k, s) case Some(w) => TrailingRun(k, w + d, s)
    ensures Resident(g, s, start, end)
         || (g.window.Some? && start <= end - g.window.value && Resident(g, s, end - g.window.value, end))
  {
    HitsResident(g, drop, start, stop, s);
  }

  /** The ceiling of a cut boundary is at most the cut, and is the cut when that lies within the boundary. */
  lemma CutCeiling(chunk: Positive, computed: nat, b: int, end: int)
    requires Cut(chunk, computed, b, end).Some?
    ensures var r := Cut(chunk, computed, b, end).value;
            Cdiv(r, chunk) <= end && (end <= Cdiv(b, chunk) ==> Cdiv(r, chunk) == end)
  {
    CdivLeast(Min(b, chunk * end), chunk, end);
    if end <= Cdiv(b, chunk) { EndOfWindow(b, chunk, end); }
  }

  /** What the hits of a slice say about the group's own keys. */
  lemma {:induction false} HitsResident<Key>(g: Group<Key>, drop: bool, start: nat, stop: nat, s: set<Key>)
    requires start <= stop <= |g.keys|
    ensures var k, d := g.keys[start..stop], if drop then 1 else 0;
            match g.window
            case None => Resident(g, s, start, start + LeadingHits(k, s))
            case Some(w) =>
              match LastFull(k, w + d, s, |k|)
              case None => Resident(g, s, start, start + TrailingRun(k, w + d, s))
              case Some(e) => Resident(g, s, start + e - w - d, start + e) && e >= w + d
  {
    var k := g.keys[start..stop];
    forall i | start <= i < stop
      ensures g.keys[i] == k[i - start]
    {
    }
  }

  /** A boundary cut to the end of a window has that end as its ceiling. */
  lemma EndOfWindow(m: int, c: Positive, end: int)
    requires end <= Cdiv(m, c)
    ensures Cdiv(Min(m, c * end), c) == end
  {
    CdivLeast(m, c, end - 1);
    CdivLeast(c * end, c, end - 1);
    CdivLeast(Min(m, c * end), c, end);
    CdivLeast(Min(m, c * end), c, end - 1);
    assert c * (end - 1) < c * end;
  }

  lemma ServesLess<Key>(g: Group<Key>, computed: nat, s: set<Key>, b: int, b': int)
    requires g.window.None? && Serves(g, computed, s, b) && b' <= b
    ensures Serves(g, computed, s, b')
  {
    CdivMono(b', b, g.chunk);
  }

  /** The group serves what the loop carries on with. */
  lemma OnceServes<Key>(q: Query<Key>, s: set<Key>, i: nat, l: Loop)
    requires i < |q.groups| && Once(q, s, i, l).Some?
    ensures Serves(q.groups[i], q.computed, s, Once(q, s, i, l).value.bound)
  {
    ShrinkServes(q.groups[i], q.computed, s, q.groups[i].tail && i !in l.verified, l.bound);
  }

  lemma {:induction false} LastServes<Key>(q: Query<Key>, s: set<Key>, todo: seq<nat>, l: Loop)
    requires todo != [] && Named(q, todo) && Pass(q, s, todo, l) > 0
    ensures Serves(q.groups[todo[|todo| - 1]], q.computed, s, q.computed + Pass(q, s, todo, l))
  {
    var next := Once(q, s, todo[0], l).value;
    if |todo| == 1 { OnceServes(q, s, todo[0], l); } else { LastServes(q, s, todo[1..], next); }
  }

  lemma {:induction false} FullServes<Key>(q: Query<Key>, s: set<Key>, todo: seq<nat>, l: Loop, i: nat)
    requires i < |todo| && Named(q, todo) && q.groups[todo[i]].window.None? && Pass(q, s, todo, l) > 0
    ensures Serves(q.groups[todo[i]], q.computed, s, q.computed + Pass(q, s, todo, l))
  {
    var next := Once(q, s, todo[0], l).value;
    OnceShrinks(q, s, todo[0], l);
    PassRange(q, s, todo[1..], next);
    if i == 0 {
      OnceServes(q, s, todo[0], l);
      ServesLess(q.groups[todo[0]], q.computed, s, next.bound, q.computed + Pass(q, s, todo, l));
    } else {
      FullServes(q, s, todo[1..], next, i - 1);
    }
  }

  /** The last group of the list serves the boundary, and so does every full-prefix group. */
  ghost predicate ServedBy<Key>(q: Query<Key>, s: set<Key>, todo: seq<nat>, b: int)
    requires Named(q, todo)
  {
    && (todo != [] ==> Serves(q.groups[todo[|todo| - 1]], q.computed, s, b))
    && forall i :: 0 <= i < |todo| && q.groups[todo[i]].window.None? ==> Serves(q.groups[todo[i]], q.computed, s, b)
  }

  lemma {:induction false} PassServes<Key>(q: Query<Key>, s: set<Key>, todo: seq<nat>, l: Loop)
    requires Named(q, todo) && todo != [] && Pass(q, s, todo, l) > 0
    ensures ServedBy(q, s, todo, q.computed + Pass(q, s, todo, l))
  {
    LastServes(q, s, todo, l);
    forall i | 0 <= i < |todo| && q.groups[todo[i]].window.None?
      ensures Serves(q.groups[todo[i]], q.computed, s, q.computed + Pass(q, s, todo, l))
    {
      FullServes(q, s, todo, l, i);
    }
  }

  /** Soundness: a positive prediction is served by every full-prefix group and by the last group. */
  lemma PredictedIsServed<Key>(q: Query<Key>, stored: set<Key>)
    requires q.Valid() && Predicted(q, stored) > 0
    ensures ServedBy(q, stored, q.lookup, q.computed + Predicted(q, stored))
  {
    PassServes(q, stored, q.lookup, Entry(q));
  }

  /** A group that serves `t`, and drops no tail now, does not shrink a boundary below `t`. */
  lemma ServedSurvives<Key>(g: Group<Key>, computed: nat, s: set<Key>, b: int, t: int)
    requires t <= b && Serves(g, computed, s, t)
    requires computed + g.chunk <= t <= |g.keys| * g.chunk
    ensures AtMost(Some(t), Shrink(g, computed, s, false, b))
  {
    var m := Min(b, |g.keys| * g.chunk);
    var hits := Hits(g, computed, s, false, m);
    ServedReach(g, computed, s, m, t);
    StartBelow(computed, g.chunk, t);
    CdivLeast(t, g.chunk, computed / g.chunk + hits);
    CutAtLeast(g.chunk, computed, m, computed / g.chunk + hits, t);
  }

  lemma ServedReach<Key>(g: Group<Key>, computed: nat, s: set<Key>, m: int, t: int)
    requires Serves(g, computed, s, t)
    requires computed + g.chunk <= t <= m <= |g.keys| * g.chunk
    ensures Cdiv(t, g.chunk) <= computed / g.chunk + Hits(g, computed, s, false, m)
  {
    SliceInside(g, computed, false, m);
    StartBelow(computed, g.chunk, t);
    CdivMono(t, m, g.chunk);
    ServedHits(g, s, computed / g.chunk, Cdiv(t, g.chunk), Chunks(g, false, m));
  }

  lemma CutAtLeast(chunk: Positive, computed: nat, b: int, end: int, t: int)
    requires computed + chunk <= t <= b && t <= end * chunk
    ensures AtMost(Some(t), Cut(chunk, computed, b, end))
  {
  }

  lemma {:induction false} ServedHits<Key>(g: Group<Key>, s: set<Key>, start: nat, end: nat, stop: nat)
    requires start < end <= stop <= |g.keys|
    requires Resident(g, s, start, end)
          || (g.window.Some? && start <= end - g.window.value && Resident(g, s, end - g.window.value, end))
    ensures var k := g.keys[start..stop];
            start + (match g.window case None => LeadingHits(k, s) case Some(w) => TrailingRun(k, w, s)) >= end
  {
    var k := g.keys[start..stop];
    if Resident(g, s, start, end) {
      LeadingAtLeast(k, s, end - start);
      if g.window.Some? { LeadingWithin(k, g.window.value, s); }
    } else {
      assert FullAt(k, g.window.value, s, end - start);
    }
  }

  lemma {:induction false} FoldReaches<Key>(gs: seq<Group<Key>>, computed: nat, s: set<Key>, b: int, t: int)
    requires t <= b
    requires forall i :: 0 <= i < |gs| ==>
               !gs[i].tail && Serves(gs[i], computed, s, t) && computed + gs[i].chunk <= t <= |gs[i].keys| * gs[i].chunk
    ensures AtMost(Some(t), Fold(gs, computed, s, b))
  {
    if gs != [] {
      ServedSurvives(gs[0], computed, s, b, t);
      FoldReaches(gs[1..], computed, s, Shrink(gs[0], computed, s, false, b).value, t);
    }
  }

  /** Completeness: when no group drops a tail, the prediction reaches every boundary that all groups
      can serve and that leaves each of them a whole chunk. */
  lemma ServableIsPredicted<Key>(q: Query<Key>, stored: set<Key>, t: int)
    requires q.Valid() && q.lookup != [] && t <= q.Initial()
    requires forall i :: 0 <= i < |q.lookup| ==>
               var g := q.groups[q.lookup[i]];
               !g.tail && Serves(g, q.computed, stored, t) && q.computed + g.chunk <= t <= |g.keys| * g.chunk
    ensures q.computed + Predicted(q, stored) >= t
  {
    PredictedIsFold(q, stored);
    FoldReaches(Select(q, q.lookup), q.computed, stored, q.Initial(), t);
  }

  // ---- vetoes ---------------------------------------------------------------

  /** A full-prefix group of which only the first chunk can be hit leaves at most one chunk, and nothing
      when it drops its tail. */
  lemma RingShrink<Key>(g: Group<Key>, s: set<Key>, drop: bool, b: int)
    requires g.window.None? && |g.keys| >= 2 && g.keys[1] !in s
    ensures var r := Shrink(g, 0, s, drop, b); r.Some? ==> !drop && r.value <= g.chunk
  {
    var m := Min(b, |g.keys| * g.chunk);
    if m >= g.chunk {
      SliceInside(g, 0, drop, m);
      var sliced := Slice(g.keys, 0, Chunks(g, drop, m));
      assert LeadingHits(sliced, s) < 2;
    }
  }

  lemma {:induction false} PassVeto<Key>(q: Query<Key>, s: set<Key>, todo: seq<nat>, l: Loop, k: nat, j: nat)
    requires k < |todo| && Named(q, todo)
    requires var g := q.groups[todo[k]]; q.computed == 0 && g.window.None? && |g.keys| >= 2 && g.keys[1] !in s
    requires var g := q.groups[todo[k]];
             (g.tail && todo[k] !in l.verified) || (k < j < |todo| && q.groups[todo[j]].chunk > g.chunk)
    ensures Pass(q, s, todo, l) == 0
  {
    var g := q.groups[todo[0]];
    if todo[0] == todo[k] { RingShrink(g, s, g.tail && todo[0] !in l.verified, l.bound); }
    match Once(q, s, todo[0], l)
    case None =>
    case Some(next) =>
      if k > 0 {
        PassVeto(q, s, todo[1..], next, k - 1, if j > 0 then j - 1 else 0);
      } else {
        TooNarrow(q, s, todo[1..], next, j - 1);
      }
  }

  lemma {:induction false} TooNarrow<Key>(q: Query<Key>, s: set<Key>, todo: seq<nat>, l: Loop, j: nat)
    requires j < |todo| && Named(q, todo) && q.computed == 0 && l.bound < q.groups[todo[j]].chunk
    ensures Pass(q, s, todo, l) == 0
  {
    OnceShrinks(q, s, todo[0], l);
    match Once(q, s, todo[0], l)
    case None =>
    case Some(next) => if j > 0 { TooNarrow(q, s, todo[1..], next, j - 1); }
  }

  /** Ring veto: with nothing computed locally, one full-prefix group that holds only its first chunk
      forces a prediction of zero when it drops its tail or some later group is wider. */
  lemma RingVeto<Key>(q: Query<Key>, k: nat, j: nat, stored: set<Key>)
    requires q.Valid() && q.computed == 0 && k < |q.lookup|
    requires var g := q.groups[q.lookup[k]];
             && g.window.None? && |g.keys| >= 2
             && (forall i :: 0 <= i < |g.keys| ==> (g.keys[i] in stored <==> i == 0))
             && (g.tail || (k < j < |q.lookup| && q.groups[q.lookup[j]].chunk > g.chunk))
    ensures Predicted(q, stored) == 0
  {
    PassVeto(q, stored, q.lookup, Entry(q), k, j);
  }
}
