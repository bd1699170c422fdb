/** Properties of the prefix index: chains, leases, roll-back and block sizes. */
module Leases {
  import opened Base
  import opened Trace
  import opened Config
  import opened Prefix

  // ---- chains ---------------------------------------------------------------

  function Total(parts: seq<Part>): nat {
    if parts == [] then 0 else Total(parts[..|parts| - 1]) + parts[|parts| - 1].tokens
  }

  lemma {:induction false} TotalConcat(a: seq<Part>, b: seq<Part>)
    ensures Total(a + b) == Total(a) + Total(b)
  {
    if b == [] {
      assert a + b == a;
    } else {
      TotalConcat(a, b[..|b| - 1]);
      assert (a + b)[..|a + b| - 1] == a + b[..|b| - 1];
    }
  }

  /** A run of blocks whose tokens are those of `n` tokens cut into blocks holds `n` tokens. */
  lemma {:induction false} RunTotal(parts: seq<Part>, n: nat, width: Positive, i: nat)
    requires i <= |parts| == BlockCount(n, width)
    requires forall k :: 0 <= k < |parts| ==> parts[k].tokens == TokensAt(n, width, k)
    ensures Total(parts[..i]) == if i == |parts| then n else i * width
  {
    CountBounds(n, width);
    if i > 0 {
      RunTotal(parts, n, width, i - 1);
      assert parts[..i][..i - 1] == parts[..i - 1];
      if i < |parts| { BlockBounds(n, width, i); }
      NextMultiple(i, width);
    }
  }

  lemma NextMultiple(i: nat, width: nat)
    requires i > 0
    ensures i * width == (i - 1) * width + width
  {
  }

  lemma CountBounds(n: nat, width: Positive)
    ensures n <= BlockCount(n, width) * width <= n + width - 1
    ensures n < BlockCount(n, width) * width ==> (BlockCount(n, width) - 1) * width < n
  {
    var a := n + width - 1;
    assert a == width * (a / width) + a % width;
    assert (a / width - 1) * width == width * (a / width) - width;
  }

  lemma CountMono(m: nat, n: nat, width: Positive)
    requires m <= n
    ensures BlockCount(m, width) <= BlockCount(n, width)
  {
    var a, b := m + width - 1, n + width - 1;
    if a / width > b / width { MulMono(width, b / width + 1, a / width); }
  }

  /** A chain has distinct keys and holds the prompt's tokens. */
  lemma ChainHoldsPrompt(geo: Geometry, turn: Turn)
    ensures Total(ChainOf(geo, turn)) == turn.prompt
    ensures Distinct(PathOf(geo, turn))
  {
    var p, w := PromptOf(turn), geo.width;
    var parts, base := Chain(p, w), p.Base(w);
    ChainHalves(p, parts, w);
    WholeRun(parts[..base], p.shared, w);
    WholeRun(parts[base..], p.private, w);
    TotalSplit(parts, base);
  }

  lemma {:induction false} WholeRun(parts: seq<Part>, n: nat, width: Positive)
    requires |parts| == BlockCount(n, width)
    requires forall k :: 0 <= k < |parts| ==> parts[k].tokens == TokensAt(n, width, k)
    ensures Total(parts) == n
  {
    RunTotal(parts, n, width, |parts|);
    assert parts[..|parts|] == parts;
  }

  lemma {:induction false} TotalSplit(parts: seq<Part>, i: nat)
    requires i <= |parts|
    ensures Total(parts) == Total(parts[..i]) + Total(parts[i..])
  {
    TotalConcat(parts[..i], parts[i..]);
    assert parts == parts[..i] + parts[i..];
  }

  lemma ChainHalves(p: Prompt, parts: seq<Part>, w: Positive)
    requires parts == Chain(p, w)
    ensures forall k :: 0 <= k < p.Base(w) ==> parts[..p.Base(w)][k].tokens == TokensAt(p.shared, w, k)
    ensures forall k :: 0 <= k < BlockCount(p.private, w) ==> parts[p.Base(w)..][k].tokens == TokensAt(p.private, w, k)
  {
    forall k | 0 <= k < BlockCount(p.private, w)
      ensures parts[p.Base(w)..][k].tokens == TokensAt(p.private, w, k)
    {
      assert parts[p.Base(w)..][k] == p.PartAt(w, p.Base(w) + k);
    }
  }

  /** Same session, role and shared prefix: the keys of a shorter prompt are a prefix of the keys of a
      longer one. */
  lemma ChainGrows(geo: Geometry, short: Turn, long: Turn)
    requires short.session == long.session && short.role == long.role && short.sharedPrefix == long.sharedPrefix
    requires short.prompt <= long.prompt
    ensures PathOf(geo, short) <= PathOf(geo, long)
  {
    var p, q, w := PromptOf(short), PromptOf(long), geo.width;
    CountMono(p.shared, q.shared, w);
    CountMono(p.private, q.private, w);
    NoBlocks(w);
    assert p.shared < q.shared ==> p.private == 0;
    forall i | 0 <= i < p.Length(w)
      ensures p.PartAt(w, i).key == q.PartAt(w, i).key
    {
    }
  }

  lemma NoBlocks(width: Positive)
    ensures BlockCount(0, width) == 0
  {
  }

  /** What shape a path has: positions in order, private blocks of its own session, shared blocks first. */
  ghost predicate ChainLike(keys: seq<Key>, s: Session) {
    forall i :: 0 <= i < |keys| ==>
      && keys[i].pos == i
      && (keys[i].Private? ==> keys[i].session == s)
      && (keys[i].Shared? ==> forall j :: 0 <= j < i ==> keys[j] == Shared(keys[i].role, j))
  }

  lemma PathIsChainLike(geo: Geometry, turn: Turn)
    ensures ChainLike(PathOf(geo, turn), turn.session)
  {
    var p, keys := PromptOf(turn), PathOf(geo, turn);
    forall i | 0 <= i < |keys|
      ensures keys[i] == p.PartAt(geo.width, i).key
    {
      assert keys[i] == ChainOf(geo, turn)[i].key;
    }
  }

  // ---- reachable indexes ----------------------------------------------------

  datatype Op = Seen(turn: Turn) | Closed(session: Session)

  function Apply(geo: Geometry, ix: IndexState, op: Op): IndexState {
    match op
    case Seen(turn) => Touch(geo, ix, turn)
    case Closed(s) => Release(ix, s)
  }

  /** The index after any interleaving of turns and session closings. */
  function Replay(geo: Geometry, ops: seq<Op>): IndexState {
    if ops == [] then EMPTY else Apply(geo, Replay(geo, ops[..|ops| - 1]), ops[|ops| - 1])
  }

  /** A session leases a block exactly when the block is on the session's path. */
  ghost predicate Symmetric(ix: IndexState) {
    && (forall k, s :: k in ix.blocks ==> (s in ix.blocks[k].refs <==> k in ix.Path(s)))
    && (forall s, k :: k in ix.Path(s) ==> k in ix.blocks)
    && ix.path.Keys == ix.lastSeen.Keys
  }

  ghost predicate WellSized(geo: Geometry, ix: IndexState) {
    forall k :: k in ix.blocks ==> BlockSized(geo, k, ix.blocks[k])
  }

  ghost predicate BlockSized(geo: Geometry, k: Key, b: BlockInfo) {
    1 <= b.tokens <= geo.width && b.nbytes == geo.cost.BlockBytes(b.tokens) && b.depth == k.pos && b.shared == k.Shared?
  }

  ghost predicate PathsAreChains(ix: IndexState) {
    forall s :: s in ix.path ==> ChainLike(ix.path[s], s)
  }

  ghost predicate Sound(geo: Geometry, ix: IndexState) {
    Symmetric(ix) && WellSized(geo, ix) && PathsAreChains(ix)
  }

  lemma TouchSymmetric(geo: Geometry, ix: IndexState, turn: Turn)
    requires Symmetric(ix)
    ensures Symmetric(Touch(geo, ix, turn))
  {
    var r, keys := Touch(geo, ix, turn), PathOf(geo, turn);
    assert r.path[turn.session] == keys;
    forall k, s | k in r.blocks
      ensures s in r.blocks[k].refs <==> k in r.Path(s)
    {
      TouchedRefs(geo, ix, turn, k, s);
      if s != turn.session { assert r.Path(s) == ix.Path(s); }
    }
    forall s, k | k in r.Path(s)
      ensures k in r.blocks
    {
      if s != turn.session { assert r.Path(s) == ix.Path(s); }
    }
  }

  lemma TouchedRefs(geo: Geometry, ix: IndexState, turn: Turn, k: Key, s: Session)
    requires k in TouchedBlocks(geo, ix, turn)
    ensures s in TouchedBlocks(geo, ix, turn)[k].refs <==>
            if s == turn.session then k in PathOf(geo, turn) || (k !in ix.Path(s) && s in ix.blocks[k].refs)
            else k in ix.blocks && s in ix.blocks[k].refs
  {
    var keys := PathOf(geo, turn);
    if k in keys {
      var part := ChainOf(geo, turn)[k.pos];
      assert part.key == k;
      assert TouchedBlocks(geo, ix, turn)[k] == Register(geo, ix.blocks, part, turn);
    }
  }

  lemma PartTokens(geo: Geometry, turn: Turn, i: nat)
    requires i < |ChainOf(geo, turn)|
    ensures 1 <= ChainOf(geo, turn)[i].tokens <= geo.width
    ensures ChainOf(geo, turn)[i].shared == ChainOf(geo, turn)[i].key.Shared?
  {
    var p, w := PromptOf(turn), geo.width;
    assert ChainOf(geo, turn)[i] == p.PartAt(w, i);
    if i < p.Base(w) { TokensBounds(p.shared, w, i); } else { TokensBounds(p.private, w, i - p.Base(w)); }
  }

  lemma TokensBounds(n: nat, width: Positive, i: nat)
    requires i < BlockCount(n, width)
    ensures 1 <= TokensAt(n, width, i) <= width
  {
    BlockBounds(n, width, i);
  }

  lemma TouchWellSized(geo: Geometry, ix: IndexState, turn: Turn)
    requires WellSized(geo, ix)
    ensures WellSized(geo, Touch(geo, ix, turn))
  {
    var r, keys := Touch(geo, ix, turn), PathOf(geo, turn);
    forall k | k in r.blocks
      ensures BlockSized(geo, k, r.blocks[k])
    {
      if k in keys {
        PartTokens(geo, turn, k.pos);
        RegisterSized(geo, ix, turn, ChainOf(geo, turn)[k.pos]);
        assert ChainOf(geo, turn)[k.pos].key == k;
      } else {
        assert BlockSized(geo, k, ix.blocks[k]);
      }
    }
  }

  lemma RegisterSized(geo: Geometry, ix: IndexState, turn: Turn, part: Part)
    requires WellSized(geo, ix) && 1 <= part.tokens <= geo.width && part.shared == part.key.Shared?
    ensures BlockSized(geo, part.key, Register(geo, ix.blocks, part, turn))
  {
    if part.key in ix.blocks { assert BlockSized(geo, part.key, ix.blocks[part.key]); }
  }

  lemma TouchSound(geo: Geometry, ix: IndexState, turn: Turn)
    requires Sound(geo, ix)
    ensures Sound(geo, Touch(geo, ix, turn))
  {
    TouchSymmetric(geo, ix, turn);
    TouchWellSized(geo, ix, turn);
    PathIsChainLike(geo, turn);
    assert Touch(geo, ix, turn).path == ix.path[turn.session := PathOf(geo, turn)];
  }

  lemma ReleaseSound(geo: Geometry, ix: IndexState, s: Session)
    requires Sound(geo, ix)
    ensures Sound(geo, Release(ix, s))
  {
    var r := Release(ix, s);
    assert r.Path(s) == [];
    assert forall t :: t != s ==> r.Path(t) == ix.Path(t);
    forall k | k in r.blocks
      ensures BlockSized(geo, k, r.blocks[k])
    {
      assert BlockSized(geo, k, ix.blocks[k]);
    }
  }

  lemma {:induction false} ReplaySound(geo: Geometry, ops: seq<Op>)
    ensures Sound(geo, Replay(geo, ops))
  {
    if ops != [] {
      var ix := Replay(geo, ops[..|ops| - 1]);
      ReplaySound(geo, ops[..|ops| - 1]);
      match ops[|ops| - 1]
      case Seen(turn) => TouchSound(geo, ix, turn);
      case Closed(s) => ReleaseSound(geo, ix, s);
    }
  }

  /** Lease symmetry in every reachable index.  Every leaseholder has a last-seen time, so the infinite
      default of `live_leases` never decides. */
  lemma {:induction false} LeaseSymmetry(geo: Geometry, ops: seq<Op>, k: Key, s: Session, now: real)
    ensures var ix := Replay(geo, ops);
            && (k in ix.blocks ==> (s in ix.blocks[k].refs <==> k in ix.Path(s)))
            && (k in ix.blocks && s in ix.blocks[k].refs ==> s in ix.lastSeen)
            && (s in LiveLeases(ix, k, now) <==>
                s in ix.lastSeen && now - ix.lastSeen[s] <= STALE_AFTER && k in ix.Path(s))
  {
    ReplaySound(geo, ops);
  }

  /** Closing sessions one after another. */
  function ReleaseAll(ix: IndexState, ss: seq<Session>): IndexState
    decreases |ss|
  {
    if ss == [] then ix else ReleaseAll(Release(ix, ss[0]), ss[1..])
  }

  /** A run that has closed every session leaves no lease behind. */
  lemma {:induction false} NoLeaseLeft(geo: Geometry, ix: IndexState, ss: seq<Session>)
    requires Sound(geo, ix) && forall s :: s in ix.path ==> s in ss
    ensures var r := ReleaseAll(ix, ss);
            && r.blocks.Keys == ix.blocks.Keys && r.path == map[]
            && forall k :: k in r.blocks ==> r.blocks[k].refs == {}
    decreases |ss|
  {
    if ss != [] {
      ReleaseSound(geo, ix, ss[0]);
      NoLeaseLeft(geo, Release(ix, ss[0]), ss[1..]);
    } else {
      assert ix.path == map[];
      forall k | k in ix.blocks
        ensures ix.blocks[k].refs == {}
      {
        assert forall s :: s in ix.blocks[k].refs <==> k in ix.Path(s);
      }
    }
  }

  /** The part of a path that a shorter path does not reach. */
  lemma TailApart(keys: seq<Key>, old': seq<Key>)
    requires keys <= old' && forall i :: 0 <= i < |old'| ==> old'[i].pos == i
    ensures var dropped := old'[|keys|..];
            old' == keys + dropped && forall k :: k in dropped <==> k in old' && k !in keys
  {
    var dropped := old'[|keys|..];
    forall k | k in dropped
      ensures k !in keys
    {
      var i :| 0 <= i < |dropped| && dropped[i] == k;
      assert old'[|keys| + i] == k && k.pos == |keys| + i;
    }
  }

  /** An aborted turn that shrinks the prompt of a session, with the role and shared prefix it had,
      invalidates exactly the keys that lose the session's lease, and none of the new path. */
  lemma RollbackIsExact(geo: Geometry, ops: seq<Op>, previous: Turn, turn: Turn) returns (dropped: seq<Key>)
    requires previous.session == turn.session && previous.role == turn.role
        && previous.sharedPrefix == turn.sharedPrefix
    requires turn.prompt <= previous.prompt && turn.aborted
    requires Replay(geo, ops).Path(turn.session) == PathOf(geo, previous)
    ensures PathOf(geo, previous) == PathOf(geo, turn) + dropped
    ensures forall k :: k in dropped ==> k !in PathOf(geo, turn)
    ensures Touch(geo, Replay(geo, ops), turn).invalidations == Replay(geo, ops).invalidations + dropped
    ensures forall k :: k in dropped <==> LosesLease(geo, Replay(geo, ops), turn, k)
  {
    ReplaySound(geo, ops);
    ChainGrows(geo, turn, previous);
    TailApart(PathOf(geo, turn), PathOf(geo, previous));
    RollbackLeases(geo, Replay(geo, ops), turn);
    dropped := PathOf(geo, previous)[|PathOf(geo, turn)|..];
    assert dropped == RolledBack(PathOf(geo, previous), PathOf(geo, turn), true);
  }

  /** The session leases the block before the turn and not after it. */
  ghost predicate LosesLease(geo: Geometry, ix: IndexState, turn: Turn, k: Key) {
    && k in ix.blocks && turn.session in ix.blocks[k].refs
    && k in TouchedBlocks(geo, ix, turn) && turn.session !in TouchedBlocks(geo, ix, turn)[k].refs
  }

  /** The blocks that lose the session's lease are those of its old path that are not on the new one. */
  lemma RollbackLeases(geo: Geometry, ix: IndexState, turn: Turn)
    requires Symmetric(ix)
    ensures forall k :: k in ix.Path(turn.session) && k !in PathOf(geo, turn) <==> LosesLease(geo, ix, turn, k)
  {
    TouchSymmetric(geo, ix, turn);
    assert Touch(geo, ix, turn).Path(turn.session) == PathOf(geo, turn);
  }

  // ---- overcharge -----------------------------------------------------------

  lemma {:induction false} TokensBetween(ix: IndexState, parts: seq<Part>, width: nat)
    requires forall i :: 0 <= i < |parts| ==> parts[i].tokens <= ix.Tokens(parts[i].key) <= width
    ensures Total(parts) <= TokensOf(ix, KeysOf(parts)) <= |parts| * width
  {
    if parts != [] {
      var n := |parts| - 1;
      TokensBetween(ix, parts[..n], width);
      assert KeysOf(parts)[..n] == KeysOf(parts[..n]);
      TokensSnoc(ix, KeysOf(parts));
      NextMultiple(n + 1, width);
    }
  }

  lemma {:induction false} TokensSnoc(ix: IndexState, keys: seq<Key>)
    requires keys != []
    ensures TokensOf(ix, keys) == TokensOf(ix, keys[..|keys| - 1]) + ix.Tokens(keys[|keys| - 1])
  {
    if |keys| > 1 {
      TokensSnoc(ix, keys[1..]);
      assert keys[1..][..|keys| - 2] == keys[..|keys| - 1][1..];
    }
  }

  lemma {:induction false} TokensSuffix(ix: IndexState, keys: seq<Key>, i: nat)
    requires i <= |keys|
    ensures TokensOf(ix, keys[i..]) <= TokensOf(ix, keys)
  {
    if i > 0 {
      TokensSuffix(ix, keys[1..], i - 1);
      assert keys[1..][i - 1..] == keys[i..];
    }
  }

  lemma RegisteredTokens(geo: Geometry, ix: IndexState, turn: Turn, i: nat)
    requires Sound(geo, ix) && i < |ChainOf(geo, turn)|
    ensures ChainOf(geo, turn)[i].tokens <= Touch(geo, ix, turn).Tokens(ChainOf(geo, turn)[i].key) <= geo.width
  {
    var r, part := Touch(geo, ix, turn), ChainOf(geo, turn)[i];
    assert PathOf(geo, turn)[i] == part.key;
    TouchWellSized(geo, ix, turn);
    assert BlockSized(geo, part.key, r.blocks[part.key]);
  }

  lemma ChainWidth(geo: Geometry, turn: Turn)
    ensures |ChainOf(geo, turn)| * geo.width <= turn.prompt + 2 * (geo.width - 1)
  {
    var p, w := PromptOf(turn), geo.width;
    CountBounds(p.shared, w);
    CountBounds(p.private, w);
    assert p.Length(w) * w == BlockCount(p.shared, w) * w + BlockCount(p.private, w) * w;
  }

  /** The index tokens of the current path lie between the prompt and the prompt plus two partly filled
      blocks, whatever roll-backs and sharing came before. */
  lemma OverchargeBound(geo: Geometry, ix: IndexState, turn: Turn)
    requires Sound(geo, ix)
    ensures turn.prompt <= TokensOf(Touch(geo, ix, turn), PathOf(geo, turn)) <= turn.prompt + 2 * (geo.width - 1)
  {
    forall i | 0 <= i < |ChainOf(geo, turn)| { RegisteredTokens(geo, ix, turn, i); }
    ChainHoldsPrompt(geo, turn);
    TokensBetween(Touch(geo, ix, turn), ChainOf(geo, turn), geo.width);
    ChainWidth(geo, turn);
  }

  // ---- growth ---------------------------------------------------------------

  /** Later indexes know at least the blocks of earlier ones, at no smaller size. */
  ghost predicate Grown(a: IndexState, b: IndexState) {
    forall k :: k in a.blocks ==>
      k in b.blocks && a.blocks[k].nbytes <= b.blocks[k].nbytes && a.blocks[k].tokens <= b.blocks[k].tokens
  }

  lemma TouchGrows(geo: Geometry, ix: IndexState, turn: Turn)
    requires WellSized(geo, ix)
    ensures Grown(ix, Touch(geo, ix, turn))
  {
    var r := Touch(geo, ix, turn);
    forall k | k in ix.blocks
      ensures ix.blocks[k].nbytes <= r.blocks[k].nbytes && ix.blocks[k].tokens <= r.blocks[k].tokens
    {
      if k in PathOf(geo, turn) {
        var part := ChainOf(geo, turn)[k.pos];
        assert part.key == k;
        if part.tokens > ix.blocks[k].tokens { BytesMono(geo.cost, ix.blocks[k].tokens, part.tokens); }
      }
    }
  }
}
