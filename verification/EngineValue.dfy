/** The value policy the serving engine loads (src/acr/vllm/policy.py).

    `State` and the functions on it say what each call does; class `AcrValuePolicy` is the object of the
    source.  Which of several equally ranked blocks `evict` takes depends on the iteration order of a
    set, so `Evicts` is a relation. */
module EngineValue {
  import opened Base
  import opened Sorting
  import opened Config

  type OffloadKey = nat

  /** The engine's block status; only its reference count is looked at. */
  datatype Block = Block(refCnt: int)

  datatype Meta = Meta(lastUse: real, uses: nat, iat: real, leases: real, weight: real, bytes: real)

  /** What the gateway stamps on a request.  A missing role is the empty string. */
  datatype Hints = Hints(role: string, toolEta: Option<real>, sessionLeaseCount: Option<real>, leases: Option<real>)

  const FLOOR_P := 0.05
  const GIB := 1073741824.0

  /** Tuning knobs.  `exp` is math.exp and `pow` the power operator. */
  datatype Params = Params(horizon: real, lambdaMem: real, lambdaIo: real, roleWeight: map<string, real>,
                           kvBytesPerToken: real, prefillRate: Rate, restoreGbs: Rate, blockTokens: int,
                           exp: real -> real, pow: (real, real) -> real) {
    /** `_bytes_of`. */
    function BytesOf(): real { if blockTokens <= 0 then 0.0 else blockTokens as real * kvBytesPerToken }

    function ReuseProb(m: Meta, now: real): real {
      var p := if m.iat <= 0.0 then FLOOR_P
               else exp(-MaxReal(0.0, now - m.lastUse) / m.iat) * (1.0 - exp(-horizon / m.iat));
      var leases := MaxReal(1.0, m.leases);
      if leases <= 1.0 then p else 1.0 - pow(1.0 - p, MinReal(leases, 8.0))
    }

    function Score(m: Meta, now: real, pressure: real): real {
      var p := ReuseProb(m, now);
      var nbytes := if m.bytes != 0.0 then m.bytes else BytesOf();
      var tokens := nbytes / MaxReal(1.0, kvBytesPerToken);
      var bps: Rate := BytesPerSecond();
      var saved := p * MaxReal(0.0, tokens / prefillRate - nbytes / bps);
      var rent := lambdaMem * (nbytes / GIB) * pressure * 0.1;
      var io := lambdaIo * (nbytes / GIB) * p * 0.01;
      (saved - rent - io) * m.weight
    }

    function BytesPerSecond(): (r: real)
      ensures r > 0.0
    {
      restoreGbs * GIGA
    }

    /** What a use at `now` does to a block's record. */
    function Used(m: Meta, hints: Option<Hints>, now: real): Meta {
      var gap := MaxReal(0.0, now - m.lastUse);
      var u := m.(iat := if m.iat <= 0.0 then gap else 0.7 * m.iat + 0.3 * gap, lastUse := now, uses := m.uses + 1);
      match hints
      case None => u
      case Some(h) =>
        u.(weight := if h.role in roleWeight then roleWeight[h.role] else 1.0,
           lastUse := if h.toolEta.Some? then MinReal(u.lastUse + h.toolEta.value, now) else u.lastUse,
           leases := if h.sessionLeaseCount.Some? then h.sessionLeaseCount.value
                     else if h.leases.Some? then h.leases.value else u.leases)
    }
  }

  // ---- the policy as a value ------------------------------------------------

  datatype State = State(blocks: map<OffloadKey, Block>, evictable: set<OffloadKey>, meta: map<OffloadKey, Meta>)

  const EMPTY := State(map[], {}, map[])

  /** The three containers are in step. */
  ghost predicate InStep(s: State) { s.evictable <= s.blocks.Keys && s.meta.Keys == s.blocks.Keys }

  function Insert(ps: Params, s: State, k: OffloadKey, block: Block, now: real): State {
    State(s.blocks[k := block],
          if block.refCnt == 0 then s.evictable + {k} else s.evictable,
          if k in s.meta then s.meta else s.meta[k := Meta(now, 0, 0.0, 1.0, 1.0, ps.BytesOf())])
  }

  function Remove(s: State, ks: set<OffloadKey>): State { State(s.blocks - ks, s.evictable - ks, s.meta - ks) }

  /** One use of each key, in order; keys without a record are skipped. */
  function Touch(ps: Params, s: State, ks: seq<OffloadKey>, hints: Option<Hints>, now: real): State
    decreases |ks|
  {
    if ks == [] then s
    else if ks[0] !in s.meta then Touch(ps, s, ks[1..], hints, now)
    else Touch(ps, s.(meta := s.meta[ks[0] := ps.Used(s.meta[ks[0]], hints, now)]), ks[1..], hints, now)
  }

  function Pressure(s: State, capacity: nat): real { |s.blocks| as real / MaxInt(1, capacity) as real }

  /** The sort key of a candidate: score, last use, uses. */
  datatype Rank = Rank(score: real, lastUse: real, uses: nat) {
    predicate Before(other: Rank) {
      || score < other.score
      || (score == other.score && (lastUse < other.lastUse || (lastUse == other.lastUse && uses <= other.uses)))
    }
  }

  function RankOf(ps: Params, s: State, capacity: nat, now: real, k: OffloadKey): Rank {
    if k in s.meta then
      var m := s.meta[k];
      Rank(ps.Score(m, now, Pressure(s, capacity)), m.lastUse, m.uses)
    else Rank(0.0, 0.0, 0)
  }

  function RankOrder(ps: Params, s: State, capacity: nat, now: real): (OffloadKey, OffloadKey) -> bool {
    (a: OffloadKey, b: OffloadKey) => RankOf(ps, s, capacity, now, a).Before(RankOf(ps, s, capacity, now, b))
  }

  function Keys(out: seq<(OffloadKey, Block)>): set<OffloadKey> { set v | v in out :: v.0 }

  function KeysIn(ks: seq<OffloadKey>): set<OffloadKey> { set k | k in ks }

  /** What `evict` may answer, and the state it leaves.  It is atomic: too few candidates, and nothing
      changes; otherwise exactly `n` distinct candidates go, none of them protected, and none ranked
      after a candidate that stays. */
  ghost predicate Evicts(ps: Params, s: State, capacity: nat, n: nat, protected: set<OffloadKey>, now: real,
                         out: Option<seq<(OffloadKey, Block)>>, s': State) {
    var candidates := s.evictable - protected;
    match out
    case None => n > |candidates| && s' == s
    case Some(vs) =>
      && n <= |candidates| && |vs| == n && s' == Remove(s, Keys(vs))
      && (forall i, j :: 0 <= i < j < n ==> vs[i].0 != vs[j].0)
      && (forall v :: v in vs ==> v.0 in candidates && v.0 in s.blocks && v.1 == s.blocks[v.0])
      && (forall i, j :: 0 <= i < j < n ==> RankOrder(ps, s, capacity, now)(vs[i].0, vs[j].0))
      && forall v, w :: v in vs && w in candidates - Keys(vs) ==> RankOrder(ps, s, capacity, now)(v.0, w)
  }

  // ---- the object -----------------------------------------------------------

  class AcrValuePolicy {
    const ps: Params
    const capacity: nat
    var blocks: map<OffloadKey, Block>
    var evictable: set<OffloadKey>
    var meta: map<OffloadKey, Meta>

    function Value(): State
      reads this
    {
      State(blocks, evictable, meta)
    }

    ghost predicate Valid()
      reads this
    {
      InStep(Value())
    }

    constructor (ps: Params, capacity: nat)
      ensures Valid() && Value() == EMPTY && this.ps == ps && this.capacity == capacity
    {
      this.ps, this.capacity := ps, capacity;
      blocks, evictable, meta := map[], {}, map[];
    }

    method InsertBlock(k: OffloadKey, block: Block, now: real)
      requires Valid()
      modifies this
      ensures Valid() && Value() == Insert(ps, old(Value()), k, block, now)
    {
      blocks := blocks[k := block];
      if block.refCnt == 0 { evictable := evictable + {k}; }
      if k !in meta { meta := meta[k := Meta(now, 0, 0.0, 1.0, 1.0, ps.BytesOf())]; }
    }

    method RemoveBlock(k: OffloadKey)
      requires Valid()
      modifies this
      ensures Valid() && Value() == Remove(old(Value()), {k})
    {
      blocks, evictable, meta := blocks - {k}, evictable - {k}, meta - {k};
    }

    method TouchBlocks(ks: seq<OffloadKey>, hints: Option<Hints>, now: real)
      requires Valid()
      modifies this
      ensures Valid() && Value() == Touch(ps, old(Value()), ks, hints, now)
    {
      for i := 0 to |ks|
        invariant Valid() && Touch(ps, Value(), ks[i..], hints, now) == Touch(ps, old(Value()), ks, hints, now)
      {
        assert ks[i..][1..] == ks[i + 1..];
        if ks[i] in meta { meta := meta[ks[i] := ps.Used(meta[ks[i]], hints, now)]; }
      }
    }

    /** Any key is accepted; the containers stay in step exactly when the policy holds the block. */
    method MarkEvictable(k: OffloadKey)
      requires Valid()
      modifies this
      ensures Valid() <==> k in old(blocks)
      ensures Value() == old(Value()).(evictable := old(evictable) + {k})
    {
      evictable := evictable + {k};
    }

    method MarkNonEvictable(k: OffloadKey)
      requires Valid()
      modifies this
      ensures Valid() && Value() == old(Value()).(evictable := old(evictable) - {k})
    {
      evictable := evictable - {k};
    }

    method Clear()
      modifies this
      ensures Valid() && Value() == EMPTY
    {
      blocks, evictable, meta := map[], {}, map[];
    }

    method Evict(n: nat, protected: set<OffloadKey>, now: real) returns (out: Option<seq<(OffloadKey, Block)>>)
      requires Valid()
      modifies this
      ensures Valid() && Evicts(ps, old(Value()), capacity, n, protected, now, out, Value())
    {
      if n == 0 {
        assert Remove(Value(), {}) == Value();
        return Some([]);
      }
      var candidates := Listed(evictable - protected);
      if |candidates| < n { return None; }
      var order := StableSort(candidates, RankOrder(ps, Value(), capacity, now));
      RankedFirst(ps, Value(), capacity, now, candidates, order, n);
      out := TakeFirst(order, n, protected, now);
    }

    /** The first `n` of the ranked candidates go. */
    method TakeFirst(order: seq<OffloadKey>, n: nat, protected: set<OffloadKey>, now: real)
        returns (out: Option<seq<(OffloadKey, Block)>>)
      requires Valid() && Ranked(ps, Value(), capacity, now, order, n)
      requires |order| == |evictable - protected| && forall k :: k in order <==> k in evictable - protected
      modifies this
      ensures Valid() && Evicts(ps, old(Value()), capacity, n, protected, now, out, Value())
    {
      ghost var s := Value();
      assert forall k :: k in order[..n] ==> k in order;
      var victims := Paired(order[..n]);
      FirstAreEvicted(ps, s, capacity, n, protected, now, order, victims);
      RemoveVictims(order[..n]);
      out := Some(victims);
    }

    /** The victims with their blocks. */
    method Paired(ks: seq<OffloadKey>) returns (victims: seq<(OffloadKey, Block)>)
      requires forall k :: k in ks ==> k in blocks
      ensures |victims| == |ks| && forall j :: 0 <= j < |ks| ==> ks[j] in blocks && victims[j] == (ks[j], blocks[ks[j]])
    {
      victims := [];
      for i := 0 to |ks|
        invariant |victims| == i && forall j :: 0 <= j < i ==> ks[j] in blocks && victims[j] == (ks[j], blocks[ks[j]])
      {
        victims := victims + [(ks[i], blocks[ks[i]])];
      }
    }

    /** The keys of a set, in any order. */
    static method Listed(keys: set<OffloadKey>) returns (ks: seq<OffloadKey>)
      ensures Distinct(ks) && |ks| == |keys| && forall k :: k in ks <==> k in keys
    {
      ks := [];
      var left := keys;
      while left != {}
        invariant Distinct(ks) && |ks| + |left| == |keys| && left <= keys && forall k :: k in ks <==> k in keys - left
        decreases |left|
      {
        var k :| k in left;
        assert k !in ks;
        ks, left := ks + [k], left - {k};
      }
    }

    method RemoveVictims(ks: seq<OffloadKey>)
      requires Valid()
      modifies this
      ensures Valid() && Value() == Remove(old(Value()), KeysIn(ks))
    {
      assert Remove(Value(), KeysIn(ks[..0])) == Value();
      for i := 0 to |ks|
        invariant Valid() && Value() == Remove(old(Value()), KeysIn(ks[..i]))
      {
        assert KeysIn(ks[..i + 1]) == KeysIn(ks[..i]) + {ks[i]};
        RemoveBlock(ks[i]);
      }
      assert ks[..|ks|] == ks;
    }
  }

  lemma VictimKeys(victims: seq<(OffloadKey, Block)>, ks: seq<OffloadKey>)
    requires |victims| == |ks| && forall j :: 0 <= j < |ks| ==> victims[j].0 == ks[j]
    ensures Keys(victims) == KeysIn(ks)
  {
    forall k | k in ks
      ensures k in Keys(victims)
    {
      var j :| 0 <= j < |ks| && ks[j] == k;
      assert victims[j] in victims;
    }
    forall v | v in victims
      ensures v.0 in ks
    {
      var j :| 0 <= j < |victims| && victims[j] == v;
    }
  }

  /** Distinct keys in the order of the ranking, the first `n` before the rest. */
  ghost predicate Ranked(ps: Params, s: State, capacity: nat, now: real, order: seq<OffloadKey>, n: nat) {
    && n <= |order| && Distinct(order) && Sorted(order, RankOrder(ps, s, capacity, now))
    && forall v, w :: v in order[..n] && w in order[n..] ==> RankOrder(ps, s, capacity, now)(v, w)
  }

  /** The first `n` of the sorted candidates are what `evict` may answer. */
  lemma FirstAreEvicted(ps: Params, s: State, capacity: nat, n: nat, protected: set<OffloadKey>, now: real,
                        order: seq<OffloadKey>, victims: seq<(OffloadKey, Block)>)
    requires InStep(s) && Ranked(ps, s, capacity, now, order, n)
    requires |order| == |s.evictable - protected| && forall k :: k in order <==> k in s.evictable - protected
    requires |victims| == n && forall j :: 0 <= j < n ==>
        order[j] in s.blocks && victims[j] == (order[j], s.blocks[order[j]])
    ensures Evicts(ps, s, capacity, n, protected, now, Some(victims), Remove(s, KeysIn(order[..n])))
  {
    var first, later := order[..n], order[n..];
    VictimKeys(victims, first);
    assert order == first + later;
    forall v | v in victims
      ensures v.0 in first && v.0 in s.evictable - protected && v.0 in s.blocks && v.1 == s.blocks[v.0]
    {
      var j :| 0 <= j < n && victims[j] == v;
      assert first[j] == order[j] && order[j] in order;
    }
    forall w | w in s.evictable - protected - Keys(victims)
      ensures w in later
    {
      assert w in order && w !in first;
    }
  }

  lemma RankOrderTotal(ps: Params, s: State, capacity: nat, now: real)
    ensures TotalPreorder(RankOrder(ps, s, capacity, now))
  {
  }

  /** The sorted candidates: the same keys, the first `n` distinct and ranked before the rest. */
  lemma {:induction false} RankedFirst(ps: Params, s: State, capacity: nat, now: real, keys: seq<OffloadKey>,
          order: seq<OffloadKey>, n: nat)
    requires Distinct(keys) && n <= |keys| && order == StableSort(keys, RankOrder(ps, s, capacity, now))
    ensures Ranked(ps, s, capacity, now, order, n) && forall k :: k in order <==> k in keys
  {
    var le := RankOrder(ps, s, capacity, now);
    SortMembers(keys, le);
    RankOrderTotal(ps, s, capacity, now);
    SortIsSorted(keys, le);
    SortMultiset(keys, le);
    DistinctSort(keys, order);
    forall v, w | v in order[..n] && w in order[n..]
      ensures le(v, w)
    {
      var i :| 0 <= i < n && order[i] == v;
      var j :| n <= j < |order| && order[j] == w;
    }
  }

  lemma {:induction false} DistinctSort(a: seq<OffloadKey>, b: seq<OffloadKey>)
    requires Distinct(a) && multiset(a) == multiset(b)
    ensures Distinct(b)
  {
    forall i, j | 0 <= i < j < |b|
      ensures b[i] != b[j]
    {
      assert b == b[..i] + [b[i]] + b[i + 1..j] + [b[j]] + b[j + 1..];
      AtMostOnce(a, b[i]);
    }
  }

  lemma {:induction false} AtMostOnce(a: seq<OffloadKey>, k: OffloadKey)
    requires Distinct(a)
    ensures multiset(a)[k] <= 1
  {
    if a != [] {
      assert a == [a[0]] + a[1..];
      AtMostOnce(a[1..], k);
      if a[0] == k { assert k !in a[1..]; }
    }
  }

  // ---- what the ranking means -----------------------------------------------

  /** The announced return changes a record exactly when it is negative: a last use of now cannot be
      moved forward. */
  lemma EtaFold(ps: Params, m: Meta, h: Hints, eta: real, now: real)
    ensures ps.Used(m, Some(h.(toolEta := Some(eta))), now) == ps.Used(m, Some(h.(toolEta := None)), now)
        <==> eta >= 0.0
  {
  }

  /** Blocks without reuse history, of equal size, leases and weight, go in the order of last use, then
      of uses. */
  lemma ColdStartIsLru(ps: Params, s: State, capacity: nat, now: real, a: OffloadKey, b: OffloadKey)
    requires a in s.meta && b in s.meta && s.meta[a].iat <= 0.0 && s.meta[b].iat <= 0.0
    requires s.meta[a].leases == s.meta[b].leases && s.meta[a].weight == s.meta[b].weight
        && s.meta[a].bytes == s.meta[b].bytes
    ensures RankOrder(ps, s, capacity, now)(a, b) <==>
              s.meta[a].lastUse < s.meta[b].lastUse
              || (s.meta[a].lastUse == s.meta[b].lastUse && s.meta[a].uses <= s.meta[b].uses)
  {
    SameScore(ps, s.meta[a], s.meta[b], now, Pressure(s, capacity));
  }

  lemma SameScore(ps: Params, x: Meta, y: Meta, now: real, pressure: real)
    requires x.iat <= 0.0 && y.iat <= 0.0 && x.leases == y.leases && x.weight == y.weight && x.bytes == y.bytes
    ensures ps.Score(x, now, pressure) == ps.Score(y, now, pressure)
  {
    assert ps.ReuseProb(x, now) == ps.ReuseProb(y, now);
  }

  /** Without a block geometry every score is zero, whatever the history, and the ranking is again last
      use and then uses. */
  lemma NoGeometryIsLru(ps: Params, s: State, capacity: nat, now: real, a: OffloadKey, b: OffloadKey)
    requires ps.blockTokens <= 0 && a in s.meta && b in s.meta && s.meta[a].bytes == 0.0 && s.meta[b].bytes == 0.0
    ensures ps.Score(s.meta[a], now, Pressure(s, capacity)) == 0.0
    ensures RankOrder(ps, s, capacity, now)(a, b) <==>
              s.meta[a].lastUse < s.meta[b].lastUse
              || (s.meta[a].lastUse == s.meta[b].lastUse && s.meta[a].uses <= s.meta[b].uses)
  {
    ZeroScore(ps, s.meta[a], now, Pressure(s, capacity));
    ZeroScore(ps, s.meta[b], now, Pressure(s, capacity));
  }

  lemma ZeroScore(ps: Params, m: Meta, now: real, pressure: real)
    requires ps.blockTokens <= 0 && m.bytes == 0.0
    ensures ps.Score(m, now, pressure) == 0.0
  {
    var p := ps.ReuseProb(m, now);
    assert 0.0 / MaxReal(1.0, ps.kvBytesPerToken) == 0.0;
    assert p * MaxReal(0.0, 0.0) == 0.0;
    assert ps.lambdaMem * 0.0 * pressure * 0.1 == 0.0;
    assert ps.lambdaIo * 0.0 * p * 0.01 == 0.0;
  }

  // ---- any sequence of calls ------------------------------------------------

  datatype Call =
    | Inserting(key: OffloadKey, block: Block, now: real)
    | Removing(key: OffloadKey)
    | Touching(keys: seq<OffloadKey>, hints: Option<Hints>, now: real)
    | Marking(key: OffloadKey)
    | Unmarking(key: OffloadKey)
    | Clearing
    | Evicting(n: nat, protected: set<OffloadKey>, now: real, out: Option<seq<(OffloadKey, Block)>>)

  /** One call by the engine. */
  ghost predicate Steps(ps: Params, capacity: nat, s: State, call: Call, s': State) {
    match call
    case Inserting(k, block, now) => s' == Insert(ps, s, k, block, now)
    case Removing(k) => s' == Remove(s, {k})
    case Touching(ks, hints, now) => s' == Touch(ps, s, ks, hints, now)
    case Marking(k) => s' == s.(evictable := s.evictable + {k})
    case Unmarking(k) => s' == s.(evictable := s.evictable - {k})
    case Clearing => s' == EMPTY
    case Evicting(n, protected, now, out) => Evicts(ps, s, capacity, n, protected, now, out, s')
  }

  ghost predicate Run(ps: Params, capacity: nat, calls: seq<Call>, states: seq<State>) {
    && |states| == |calls| + 1 && states[0] == EMPTY
    && forall i :: 0 <= i < |calls| ==> Steps(ps, capacity, states[i], calls[i], states[i + 1])
  }

  lemma {:induction false} TouchKeepsKeys(ps: Params, s: State, ks: seq<OffloadKey>, hints: Option<Hints>, now: real)
    ensures var r := Touch(ps, s, ks, hints, now);
            r.blocks == s.blocks && r.evictable == s.evictable && r.meta.Keys == s.meta.Keys
    decreases |ks|
  {
    if ks != [] {
      if ks[0] in s.meta {
        TouchKeepsKeys(ps, s.(meta := s.meta[ks[0] := ps.Used(s.meta[ks[0]], hints, now)]), ks[1..], hints, now);
      } else {
        TouchKeepsKeys(ps, s, ks[1..], hints, now);
      }
    }
  }

  /** A mark names a block that the policy holds. */
  predicate MarksHeld(s: State, call: Call) { call.Marking? ==> call.key in s.blocks }

  lemma StepInStep(ps: Params, capacity: nat, s: State, call: Call, s': State)
    requires InStep(s) && Steps(ps, capacity, s, call, s')
    ensures InStep(s') <==> MarksHeld(s, call)
  {
    match call
    case Touching(ks, hints, now) => TouchKeepsKeys(ps, s, ks, hints, now);
    case _ =>
  }

  lemma {:induction false} StaysInStep(ps: Params, capacity: nat, calls: seq<Call>, states: seq<State>, i: nat)
    requires Run(ps, capacity, calls, states) && i <= |calls|
    requires forall j :: 0 <= j < i ==> MarksHeld(states[j], calls[j])
    ensures InStep(states[i])
  {
    if i > 0 {
      StaysInStep(ps, capacity, calls, states, i - 1);
      StepInStep(ps, capacity, states[i - 1], calls[i - 1], states[i]);
    }
  }

  /** Over any sequence of calls the containers stay in step exactly when every mark names a held block. */
  lemma {:induction false} RunInStep(ps: Params, capacity: nat, calls: seq<Call>, states: seq<State>)
    requires Run(ps, capacity, calls, states)
    ensures (forall i :: 0 <= i <= |calls| ==> InStep(states[i]))
       <==> (forall i :: 0 <= i < |calls| ==> MarksHeld(states[i], calls[i]))
  {
    if forall i :: 0 <= i <= |calls| ==> InStep(states[i]) {
      forall i | 0 <= i < |calls|
        ensures MarksHeld(states[i], calls[i])
      {
        StepInStep(ps, capacity, states[i], calls[i], states[i + 1]);
      }
    }
    if forall i :: 0 <= i < |calls| ==> MarksHeld(states[i], calls[i]) {
      forall i | 0 <= i <= |calls|
        ensures InStep(states[i])
      {
        StaysInStep(ps, capacity, calls, states, i);
      }
    }
  }

  /** The calls that make a block evictable or take it out by name. */
  predicate Frees(call: Call, k: OffloadKey) {
    match call
    case Inserting(key, block, _) => key == k && block.refCnt == 0
    case Removing(key) => key == k
    case Marking(key) => key == k
    case Clearing => true
    case _ => false
  }

  /** A held block that is not evictable is never evicted: it stays until a call frees it. */
  lemma {:induction false} PinnedStays(ps: Params, capacity: nat, calls: seq<Call>, states: seq<State>, k: OffloadKey,
          i: nat, j: nat)
    requires Run(ps, capacity, calls, states) && i <= j <= |calls|
    requires k in states[i].blocks && k !in states[i].evictable
    requires forall l :: i <= l < j ==> !Frees(calls[l], k)
    ensures k in states[j].blocks && k !in states[j].evictable
  {
    if i < j {
      PinnedStays(ps, capacity, calls, states, k, i, j - 1);
      StaysPinned(ps, capacity, states[j - 1], calls[j - 1], states[j], k);
    }
  }

  lemma StaysPinned(ps: Params, capacity: nat, s: State, call: Call, s': State, k: OffloadKey)
    requires Steps(ps, capacity, s, call, s') && !Frees(call, k) && k in s.blocks && k !in s.evictable
    ensures k in s'.blocks && k !in s'.evictable
  {
    match call
    case Touching(ks, hints, now) => TouchKeepsKeys(ps, s, ks, hints, now);
    case _ =>
  }
}
