/** The session-lifetime policy the serving engine loads (src/acr/vllm/ttl.py).

    `State` and the functions on it say what each call does; class `SessionTtlPolicy` is the object of
    the source.  `blocks` is a dictionary in insertion order, and that order decides among blocks that
    have expired. */
module EngineTtl {
  import opened Base
  import opened Sorting

  type OffloadKey = nat
  type Role = string

  /** The engine's block status, which this policy never looks into. */
  datatype Block = Block(id: int)

  datatype Slot = Slot(key: OffloadKey, block: Block)

  // ---- the policy as a value ------------------------------------------------

  datatype State = State(blocks: seq<Slot>, expires: map<OffloadKey, real>, role: map<OffloadKey, Role>,
      pinned: set<OffloadKey>)

  const EMPTY := State([], map[], map[], {})

  function KeysOf(blocks: seq<Slot>): set<OffloadKey> { set b | b in blocks :: b.key }

  ghost predicate Unique(blocks: seq<Slot>) { forall i, j :: 0 <= i < j < |blocks| ==> blocks[i].key != blocks[j].key }

  /** Every held block has a lifetime and only held blocks have one, or a role. */
  ghost predicate InStep(s: State) {
    Unique(s.blocks) && s.expires.Keys == KeysOf(s.blocks) && s.role.Keys <= KeysOf(s.blocks)
  }

  /** Assignment to a key of a dictionary in insertion order. */
  function Put(blocks: seq<Slot>, k: OffloadKey, block: Block): seq<Slot> {
    if blocks == [] then [Slot(k, block)]
    else if blocks[0].key == k then [Slot(k, block)] + blocks[1..]
    else [blocks[0]] + Put(blocks[1..], k, block)
  }

  function Drop(blocks: seq<Slot>, ks: set<OffloadKey>): seq<Slot> {
    if blocks == [] then []
    else if blocks[0].key in ks then Drop(blocks[1..], ks)
    else [blocks[0]] + Drop(blocks[1..], ks)
  }

  function Insert(s: State, k: OffloadKey, block: Block, defaultTtl: real, now: real): State {
    s.(blocks := Put(s.blocks, k, block),
        expires := if k in s.expires then s.expires else s.expires[k := now + defaultTtl])
  }

  function Remove(s: State, ks: set<OffloadKey>): State {
    State(Drop(s.blocks, ks), s.expires - ks, s.role - ks, s.pinned - ks)
  }

  /** Each sighting of a held block renews its lifetime. */
  function Touch(s: State, ks: seq<OffloadKey>, role: Role, ttl: real, now: real): State
    decreases |ks|
  {
    if ks == [] then s
    else if ks[0] !in KeysOf(s.blocks) then Touch(s, ks[1..], role, ttl, now)
    else Touch(s.(expires := s.expires[ks[0] := now + ttl],
                  role := if role != "" then s.role[ks[0] := role] else s.role), ks[1..], role, ttl, now)
  }

  /** The blocks that may go, in dictionary order. */
  function Live(blocks: seq<Slot>, protected: set<OffloadKey>, pinned: set<OffloadKey>): seq<Slot> {
    if blocks == [] then []
    else if blocks[0].key in protected || blocks[0].key in pinned then Live(blocks[1..], protected, pinned)
    else [blocks[0]] + Live(blocks[1..], protected, pinned)
  }

  /** A lifetime; every held block has one. */
  function ExpiryOf(s: State, b: Slot): real { if b.key in s.expires then s.expires[b.key] else 0.0 }

  function Expired(s: State, blocks: seq<Slot>, now: real): seq<Slot> {
    if blocks == [] then []
    else if ExpiryOf(s, blocks[0]) <= now then [blocks[0]] + Expired(s, blocks[1..], now)
    else Expired(s, blocks[1..], now)
  }

  function Unexpired(s: State, blocks: seq<Slot>, now: real): seq<Slot> {
    if blocks == [] then []
    else if ExpiryOf(s, blocks[0]) <= now then Unexpired(s, blocks[1..], now)
    else [blocks[0]] + Unexpired(s, blocks[1..], now)
  }

  function ExpiryOrder(s: State): (Slot, Slot) -> bool { (a: Slot, b: Slot) => ExpiryOf(s, a) <= ExpiryOf(s, b) }

  /** Expired blocks as they come, then the others, soonest to expire first. */
  function Queue(s: State, protected: set<OffloadKey>, now: real): (r: seq<Slot>)
    ensures |r| == |Live(s.blocks, protected, s.pinned)|
  {
    var live := Live(s.blocks, protected, s.pinned);
    SplitCount(s, live, now);
    Expired(s, live, now) + StableSort(Unexpired(s, live, now), ExpiryOrder(s))
  }

  lemma {:induction false} SplitCount(s: State, blocks: seq<Slot>, now: real)
    ensures |Expired(s, blocks, now)| + |Unexpired(s, blocks, now)| == |blocks|
  {
    if blocks != [] { SplitCount(s, blocks[1..], now); }
  }

  /** `evict`: `None` when fewer than `n` blocks may go, else the first `n` of the queue. */
  function Victims(s: State, n: nat, protected: set<OffloadKey>, now: real): Option<seq<Slot>> {
    var queue := Queue(s, protected, now);
    if |queue| < n then None else Some(queue[..n])
  }

  function AfterEvict(s: State, out: Option<seq<Slot>>): State {
    if out.None? then s else Remove(s, KeysOf(out.value))
  }

  // ---- the object -----------------------------------------------------------

  class SessionTtlPolicy {
    const ttl: map<Role, real>
    const defaultTtl: real
    var blocks: seq<Slot>
    var expires: map<OffloadKey, real>
    var role: map<OffloadKey, Role>
    var pinned: set<OffloadKey>

    function Value(): State
      reads this
    {
      State(blocks, expires, role, pinned)
    }

    ghost predicate Valid()
      reads this
    {
      InStep(Value())
    }

    constructor (ttl: map<Role, real>, defaultTtl: real)
      ensures Valid() && Value() == EMPTY && this.ttl == ttl && this.defaultTtl == defaultTtl
    {
      this.ttl, this.defaultTtl := ttl, defaultTtl;
      blocks, expires, role, pinned := [], map[], map[], {};
    }

    method InsertBlock(k: OffloadKey, block: Block, now: real)
      requires Valid()
      modifies this
      ensures Valid() && Value() == Insert(old(Value()), k, block, defaultTtl, now)
    {
      PutKeys(blocks, k, block);
      blocks := Put(blocks, k, block);
      if k !in expires { expires := expires[k := now + defaultTtl]; }
    }

    method RemoveBlock(k: OffloadKey)
      requires Valid()
      modifies this
      ensures Valid() && Value() == Remove(old(Value()), {k})
    {
      DropKeys(blocks, {k});
      blocks, expires, role, pinned := Drop(blocks, {k}), expires - {k}, role - {k}, pinned - {k};
    }

    method TouchBlocks(ks: seq<OffloadKey>, sender: Role, now: real)
      requires Valid()
      modifies this
      ensures Valid()
      ensures Value() == Touch(old(Value()), ks, sender, if sender in ttl then ttl[sender] else defaultTtl, now)
    {
      var life := if sender in ttl then ttl[sender] else defaultTtl;
      for i := 0 to |ks|
        invariant Valid() && Touch(Value(), ks[i..], sender, life, now) == Touch(old(Value()), ks, sender, life, now)
      {
        assert ks[i..][1..] == ks[i + 1..];
        if ks[i] in KeysOf(blocks) {
          expires := expires[ks[i] := now + life];
          if sender != "" { role := role[ks[i] := sender]; }
        }
      }
    }

    method MarkEvictable(k: OffloadKey)
      requires Valid()
      modifies this
      ensures Valid() && Value() == old(Value()).(pinned := old(pinned) - {k})
    {
      pinned := pinned - {k};
    }

    method MarkNonEvictable(k: OffloadKey)
      requires Valid()
      modifies this
      ensures Valid() && Value() == old(Value()).(pinned := old(pinned) + {k})
    {
      pinned := pinned + {k};
    }

    method Clear()
      modifies this
      ensures Valid() && Value() == EMPTY
    {
      blocks, expires, role, pinned := [], map[], map[], {};
    }

    method Evict(n: nat, protected: set<OffloadKey>, now: real) returns (out: Option<seq<Slot>>)
      requires Valid()
      modifies this
      ensures Valid() && out == Victims(old(Value()), n, protected, now) && Value() == AfterEvict(old(Value()), out)
    {
      if n == 0 {
        RemoveNone(Value());
        return Some([]);
      }
      var live := Live(blocks, protected, pinned);
      if |live| < n { return None; }
      var victims := Queue(Value(), protected, now)[..n];
      RemoveVictims(victims);
      return Some(victims);
    }

    method RemoveVictims(victims: seq<Slot>)
      requires Valid()
      modifies this
      ensures Valid() && Value() == Remove(old(Value()), KeysOf(victims))
    {
      RemoveNone(Value());
      for i := 0 to |victims|
        invariant Valid() && Value() == Remove(old(Value()), KeysOf(victims[..i]))
      {
        assert victims[..i + 1] == victims[..i] + [victims[i]];
        RemoveUnion(old(Value()), KeysOf(victims[..i]), {victims[i].key});
        KeysSnoc(victims[..i], victims[i]);
        RemoveBlock(victims[i].key);
      }
      assert victims[..|victims|] == victims;
    }
  }

  // ---- lemmas about the dictionary ------------------------------------------

  lemma {:induction false} PutKeys(blocks: seq<Slot>, k: OffloadKey, block: Block)
    ensures KeysOf(Put(blocks, k, block)) == KeysOf(blocks) + {k}
    ensures Unique(blocks) ==> Unique(Put(blocks, k, block))
  {
    var r := Put(blocks, k, block);
    if blocks == [] {
      assert r[0].key == k;
    } else {
      PutKeys(blocks[1..], k, block);
      KeysCons(blocks);
      KeysCons(r);
      if blocks[0].key == k {
        assert r[1..] == blocks[1..];
        assert KeysOf(r) == {k} + KeysOf(blocks[1..]);
      } else {
        assert r[1..] == Put(blocks[1..], k, block);
      }
      if Unique(blocks) { UniqueTail(blocks); UniqueCons(r); }
    }
  }

  lemma KeysCons(blocks: seq<Slot>)
    requires blocks != []
    ensures KeysOf(blocks) == {blocks[0].key} + KeysOf(blocks[1..])
  {
    assert blocks == [blocks[0]] + blocks[1..];
  }

  lemma UniqueTail(blocks: seq<Slot>)
    requires Unique(blocks) && blocks != []
    ensures Unique(blocks[1..]) && blocks[0].key !in KeysOf(blocks[1..])
  {
  }

  lemma UniqueCons(blocks: seq<Slot>)
    requires blocks != []
    ensures Unique(blocks[1..]) && blocks[0].key !in KeysOf(blocks[1..]) ==> Unique(blocks)
  {
    if Unique(blocks[1..]) && blocks[0].key !in KeysOf(blocks[1..]) {
      forall i, j | 0 <= i < j < |blocks|
        ensures blocks[i].key != blocks[j].key
      {
        assert blocks[1..][j - 1] in blocks[1..];
        assert i > 0 ==> blocks[1..][i - 1] == blocks[i];
      }
    }
  }

  lemma {:induction false} DropKeys(blocks: seq<Slot>, ks: set<OffloadKey>)
    ensures KeysOf(Drop(blocks, ks)) == KeysOf(blocks) - ks
    ensures Unique(blocks) ==> Unique(Drop(blocks, ks))
  {
    if blocks != [] {
      DropKeys(blocks[1..], ks);
      KeysCons(blocks);
      if blocks[0].key !in ks {
        var r := Drop(blocks, ks);
        assert r[1..] == Drop(blocks[1..], ks);
        KeysCons(r);
        if Unique(blocks) { UniqueTail(blocks); UniqueCons(r); }
      } else {
        if Unique(blocks) { UniqueTail(blocks); }
      }
    }
  }

  lemma {:induction false} DropNone(blocks: seq<Slot>)
    ensures Drop(blocks, {}) == blocks
  {
    if blocks != [] { DropNone(blocks[1..]); }
  }

  lemma {:induction false} DropUnion(blocks: seq<Slot>, a: set<OffloadKey>, b: set<OffloadKey>)
    ensures Drop(Drop(blocks, a), b) == Drop(blocks, a + b)
  {
    if blocks != [] {
      DropUnion(blocks[1..], a, b);
      if blocks[0].key !in a { assert Drop(blocks, a)[1..] == Drop(blocks[1..], a); }
    }
  }

  lemma RemoveNone(s: State)
    ensures Remove(s, KeysOf([])) == s
  {
    DropNone(s.blocks);
    assert KeysOf([]) == {};
  }

  lemma RemoveUnion(s: State, a: set<OffloadKey>, b: set<OffloadKey>)
    ensures Remove(Remove(s, a), b) == Remove(s, a + b)
  {
    DropUnion(s.blocks, a, b);
    assert s.expires - a - b == s.expires - (a + b);
    assert s.role - a - b == s.role - (a + b);
    assert s.pinned - a - b == s.pinned - (a + b);
  }

  lemma KeysSnoc(blocks: seq<Slot>, b: Slot)
    ensures KeysOf(blocks + [b]) == KeysOf(blocks) + {b.key}
  {
  }

  // ---- what `evict` takes ---------------------------------------------------

  lemma {:induction false} LiveAre(blocks: seq<Slot>, protected: set<OffloadKey>, pinned: set<OffloadKey>)
    ensures forall b :: b in Live(blocks, protected, pinned) <==> b in blocks && b.key !in protected && b.key !in pinned
    ensures Unique(blocks) ==> Unique(Live(blocks, protected, pinned))
  {
    if blocks != [] {
      LiveAre(blocks[1..], protected, pinned);
      var r := Live(blocks, protected, pinned);
      if Unique(blocks) && !(blocks[0].key in protected || blocks[0].key in pinned) {
        UniqueTail(blocks);
        assert r[1..] == Live(blocks[1..], protected, pinned);
        UniqueCons(r);
      }
    }
  }

  lemma {:induction false} ExpiredAre(s: State, blocks: seq<Slot>, now: real)
    ensures forall b :: b in Expired(s, blocks, now) <==> b in blocks && ExpiryOf(s, b) <= now
    ensures forall b :: b in Unexpired(s, blocks, now) <==> b in blocks && ExpiryOf(s, b) > now
    ensures multiset(Expired(s, blocks, now)) + multiset(Unexpired(s, blocks, now)) == multiset(blocks)
  {
    if blocks != [] {
      ExpiredAre(s, blocks[1..], now);
      assert blocks == [blocks[0]] + blocks[1..];
    }
  }

  /** The queue holds exactly the blocks that may go, each once. */
  lemma QueueIsLive(s: State, protected: set<OffloadKey>, now: real)
    requires Unique(s.blocks)
    ensures Unique(Queue(s, protected, now))
    ensures forall b :: b in Queue(s, protected, now) <==> b in s.blocks && b.key !in protected && b.key !in s.pinned
  {
    var live := Live(s.blocks, protected, s.pinned);
    LiveAre(s.blocks, protected, s.pinned);
    ExpiredAre(s, live, now);
    SortMultiset(Unexpired(s, live, now), ExpiryOrder(s));
    SamePermutation(live, Queue(s, protected, now));
  }

  lemma SamePermutation(a: seq<Slot>, b: seq<Slot>)
    requires Unique(a) && multiset(a) == multiset(b)
    ensures Unique(b) && forall x :: x in b <==> x in a
  {
    assert forall x :: (x in a <==> x in multiset(a)) && (x in b <==> x in multiset(b));
    forall i, j | 0 <= i < j < |b|
      ensures b[i].key != b[j].key
    {
      assert b == b[..i] + [b[i]] + b[i + 1..j] + [b[j]] + b[j + 1..];
      AtMostOnce(a, b[i]);
      assert b[i] in a && b[j] in a;
    }
  }

  lemma {:induction false} AtMostOnce(a: seq<Slot>, x: Slot)
    requires Unique(a)
    ensures multiset(a)[x] <= 1
  {
    if a != [] {
      assert a == [a[0]] + a[1..];
      UniqueTail(a);
      AtMostOnce(a[1..], x);
      if a[0] == x { assert x !in a[1..]; }
    }
  }

  /** `evict` is atomic, and takes exactly `n` distinct blocks, none protected or pinned: the expired
      ones first, then the soonest to expire. */
  lemma {:induction false} EvictTakesExpiredFirst(s: State, n: nat, protected: set<OffloadKey>, now: real, v: Slot,
          w: Slot)
    requires InStep(s)
    ensures var out := Victims(s, n, protected, now);
            var free := |Live(s.blocks, protected, s.pinned)|;
            && (out.None? <==> free < n) && (out.None? ==> AfterEvict(s, out) == s)
            && (out.Some? ==> |out.value| == n && Unique(out.value) && InStep(AfterEvict(s, out)))
            && (out.Some? && v in out.value ==> v in s.blocks && v.key !in protected && v.key !in s.pinned)
            && (out.Some? && v in out.value && w !in out.value && w in s.blocks
                && w.key !in protected && w.key !in s.pinned ==>
                  ExpiryOf(s, v) <= now || ExpiryOf(s, v) <= ExpiryOf(s, w))
  {
    var out, queue := Victims(s, n, protected, now), Queue(s, protected, now);
    QueueIsLive(s, protected, now);
    if out.Some? {
      assert queue == queue[..n] + queue[n..];
      DropKeys(s.blocks, KeysOf(out.value));
      if v in out.value && w in queue[n..] { QueueOrder(s, n, protected, now, v, w); }
    }
  }

  /** Along the queue, expired blocks come before the others, and those in order of expiry. */
  lemma QueueOrder(s: State, n: nat, protected: set<OffloadKey>, now: real, v: Slot, w: Slot)
    requires n <= |Queue(s, protected, now)| && v in Queue(s, protected, now)[..n] && w in Queue(s, protected, now)[n..]
    ensures ExpiryOf(s, v) <= now || ExpiryOf(s, v) <= ExpiryOf(s, w)
  {
    var live := Live(s.blocks, protected, s.pinned);
    var first, later := Expired(s, live, now), StableSort(Unexpired(s, live, now), ExpiryOrder(s));
    ExpiredAre(s, live, now);
    ExpiryOrderTotal(s);
    SortIsSorted(Unexpired(s, live, now), ExpiryOrder(s));
    var i :| 0 <= i < n && (first + later)[i] == v;
    var j :| n <= j < |first + later| && (first + later)[j] == w;
    if i < |first| {
      assert first[i] in first;
    } else {
      assert ExpiryOrder(s)(later[i - |first|], later[j - |first|]);
    }
  }

  lemma ExpiryOrderTotal(s: State)
    ensures TotalPreorder(ExpiryOrder(s))
  {
  }

  // ---- any sequence of calls ------------------------------------------------

  datatype Call =
    | Inserting(key: OffloadKey, block: Block, now: real)
    | Removing(key: OffloadKey)
    | Touching(keys: seq<OffloadKey>, sender: Role, now: real)
    | Unpinning(key: OffloadKey)
    | Pinning(key: OffloadKey)
    | Clearing
    | Evicting(n: nat, protected: set<OffloadKey>, now: real)

  function TtlOf(ttl: map<Role, real>, defaultTtl: real, sender: Role): real {
    if sender in ttl then ttl[sender] else defaultTtl
  }

  /** The state after a call, as the methods of the object are proved to leave it. */
  function Step(ttl: map<Role, real>, defaultTtl: real, s: State, call: Call): State {
    match call
    case Inserting(k, block, now) => Insert(s, k, block, defaultTtl, now)
    case Removing(k) => Remove(s, {k})
    case Touching(ks, sender, now) => Touch(s, ks, sender, TtlOf(ttl, defaultTtl, sender), now)
    case Unpinning(k) => s.(pinned := s.pinned - {k})
    case Pinning(k) => s.(pinned := s.pinned + {k})
    case Clearing => EMPTY
    case Evicting(n, protected, now) => AfterEvict(s, Victims(s, n, protected, now))
  }

  function After(ttl: map<Role, real>, defaultTtl: real, calls: seq<Call>): State {
    if calls == [] then EMPTY
    else Step(ttl, defaultTtl, After(ttl, defaultTtl, calls[..|calls| - 1]), calls[|calls| - 1])
  }

  lemma {:induction false} TouchInStep(s: State, ks: seq<OffloadKey>, role: Role, ttl: real, now: real)
    requires InStep(s)
    ensures var r := Touch(s, ks, role, ttl, now); InStep(r) && r.blocks == s.blocks && r.pinned == s.pinned
    decreases |ks|
  {
    if ks != [] {
      if ks[0] !in KeysOf(s.blocks) {
        TouchInStep(s, ks[1..], role, ttl, now);
      } else {
        TouchInStep(s.(expires := s.expires[ks[0] := now + ttl],
                       role := if role != "" then s.role[ks[0] := role] else s.role), ks[1..], role, ttl, now);
      }
    }
  }

  lemma StepInStep(ttl: map<Role, real>, defaultTtl: real, s: State, call: Call)
    requires InStep(s)
    ensures InStep(Step(ttl, defaultTtl, s, call))
  {
    match call
    case Inserting(k, block, now) => PutKeys(s.blocks, k, block);
    case Removing(k) => DropKeys(s.blocks, {k});
    case Touching(ks, sender, now) => TouchInStep(s, ks, sender, TtlOf(ttl, defaultTtl, sender), now);
    case Evicting(n, protected, now) =>
      var out := Victims(s, n, protected, now);
      if out.Some? { DropKeys(s.blocks, KeysOf(out.value)); }
    case _ =>
  }

  /** Over any sequence of calls every held block has a lifetime, and only held blocks have one, or a role. */
  lemma {:induction false} RunInStep(ttl: map<Role, real>, defaultTtl: real, calls: seq<Call>)
    ensures InStep(After(ttl, defaultTtl, calls))
  {
    if calls != [] {
      var s := After(ttl, defaultTtl, calls[..|calls| - 1]);
      RunInStep(ttl, defaultTtl, calls[..|calls| - 1]);
      StepInStep(ttl, defaultTtl, s, calls[|calls| - 1]);
    }
  }

  lemma {:induction false} AfterNext(ttl: map<Role, real>, defaultTtl: real, calls: seq<Call>, i: nat)
    requires i < |calls|
    ensures After(ttl, defaultTtl, calls[..i + 1])
        == Step(ttl, defaultTtl, After(ttl, defaultTtl, calls[..i]), calls[i])
  {
    assert calls[..i + 1][..i] == calls[..i];
  }

  /** The calls that unpin a block or take it out by name. */
  predicate Frees(call: Call, k: OffloadKey) {
    match call
    case Removing(key) => key == k
    case Unpinning(key) => key == k
    case Clearing => true
    case _ => false
  }

  lemma StaysPinned(ttl: map<Role, real>, defaultTtl: real, s: State, call: Call, k: OffloadKey)
    requires InStep(s) && k in KeysOf(s.blocks) && k in s.pinned && !Frees(call, k)
    ensures var r := Step(ttl, defaultTtl, s, call); k in KeysOf(r.blocks) && k in r.pinned
  {
    match call
    case Inserting(l, block, now) => PutKeys(s.blocks, l, block);
    case Removing(l) => DropKeys(s.blocks, {l});
    case Touching(ks, sender, now) => TouchInStep(s, ks, sender, TtlOf(ttl, defaultTtl, sender), now);
    case Evicting(n, protected, now) => PinnedSurvives(s, n, protected, now, k);
    case _ =>
  }

  lemma PinnedSurvives(s: State, n: nat, protected: set<OffloadKey>, now: real, k: OffloadKey)
    requires InStep(s) && k in KeysOf(s.blocks) && k in s.pinned
    ensures var r := AfterEvict(s, Victims(s, n, protected, now)); k in KeysOf(r.blocks) && k in r.pinned
  {
    var out := Victims(s, n, protected, now);
    if out.Some? {
      QueueIsLive(s, protected, now);
      DropKeys(s.blocks, KeysOf(out.value));
      forall b | b in out.value
        ensures b.key != k
      {
        assert b in Queue(s, protected, now);
      }
    }
  }

  ghost predicate Held(s: State, k: OffloadKey) { k in KeysOf(s.blocks) }

  ghost predicate HeldPinned(s: State, k: OffloadKey) { Held(s, k) && k in s.pinned }

  /** A held pinned block is never evicted, expired or not: it stays until a call frees it. */
  lemma {:induction false} PinnedStays(ttl: map<Role, real>, defaultTtl: real, calls: seq<Call>, k: OffloadKey,
          i: nat, j: nat)
    requires i <= j <= |calls| && forall l :: i <= l < j ==> !Frees(calls[l], k)
    requires HeldPinned(After(ttl, defaultTtl, calls[..i]), k)
    ensures HeldPinned(After(ttl, defaultTtl, calls[..j]), k)
  {
    if i < j {
      PinnedStays(ttl, defaultTtl, calls, k, i, j - 1);
      RunInStep(ttl, defaultTtl, calls[..j - 1]);
      StaysPinned(ttl, defaultTtl, After(ttl, defaultTtl, calls[..j - 1]), calls[j - 1], k);
      AfterNext(ttl, defaultTtl, calls, j - 1);
    }
  }

  lemma {:induction false} TouchKeepsOthers(s: State, ks: seq<OffloadKey>, role: Role, ttl: real, now: real,
          k: OffloadKey)
    requires k !in ks && k in s.expires
    ensures var r := Touch(s, ks, role, ttl, now); k in r.expires && r.expires[k] == s.expires[k]
    decreases |ks|
  {
    if ks != [] {
      if ks[0] !in KeysOf(s.blocks) {
        TouchKeepsOthers(s, ks[1..], role, ttl, now, k);
      } else {
        TouchKeepsOthers(s.(expires := s.expires[ks[0] := now + ttl],
                            role := if role != "" then s.role[ks[0] := role] else s.role), ks[1..], role, ttl, now, k);
      }
    }
  }

  /** The call is a sighting of the block. */
  predicate Sights(call: Call, k: OffloadKey) { call.Touching? && k in call.keys }

  lemma StepKeepsLife(ttl: map<Role, real>, defaultTtl: real, s: State, call: Call, k: OffloadKey)
    requires InStep(s) && Held(s, k) && !Sights(call, k) && Held(Step(ttl, defaultTtl, s, call), k)
    ensures var r := Step(ttl, defaultTtl, s, call); k in r.expires && k in s.expires && r.expires[k] == s.expires[k]
  {
    StepInStep(ttl, defaultTtl, s, call);
    if call.Touching? {
      TouchKeepsOthers(s, call.keys, call.sender, TtlOf(ttl, defaultTtl, call.sender), call.now, k);
    }
  }

  /** As long as a block is held, only sightings move its lifetime: inserting it again, pinning it and
      evicting others do not. */
  lemma {:induction false} OnlySightingsRenew(ttl: map<Role, real>, defaultTtl: real, calls: seq<Call>,
          k: OffloadKey, i: nat, j: nat)
    requires i <= j <= |calls| && forall l :: i <= l < j ==> !Sights(calls[l], k)
    requires forall l :: i <= l <= j ==> Held(After(ttl, defaultTtl, calls[..l]), k)
    ensures ExpiryIn(After(ttl, defaultTtl, calls[..j]), k) == ExpiryIn(After(ttl, defaultTtl, calls[..i]), k)
    ensures ExpiryIn(After(ttl, defaultTtl, calls[..j]), k).Some?
  {
    RunInStep(ttl, defaultTtl, calls[..j]);
    if i < j {
      assert Held(After(ttl, defaultTtl, calls[..j - 1]), k) && Held(After(ttl, defaultTtl, calls[..j]), k);
      OnlySightingsRenew(ttl, defaultTtl, calls, k, i, j - 1);
      RunInStep(ttl, defaultTtl, calls[..j - 1]);
      AfterNext(ttl, defaultTtl, calls, j - 1);
      StepKeepsLife(ttl, defaultTtl, After(ttl, defaultTtl, calls[..j - 1]), calls[j - 1], k);
    }
  }

  function ExpiryIn(s: State, k: OffloadKey): Option<real> { if k in s.expires then Some(s.expires[k]) else None }
}
