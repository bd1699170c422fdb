/** The prefix index and its session leases (src/acr/index.py).

    The functions say what each operation does to the index as a value; class `PrefixIndex` is the
    object of the source, and its methods are proved to do just that. */
module Prefix {
  import opened Base
  import opened Trace
  import opened Config

  // ---- chains ---------------------------------------------------------------

  /** One block of a prompt. */
  datatype Part = Part(key: Key, tokens: nat, shared: bool)

  /** Blocks needed for `n` tokens. */
  function BlockCount(n: nat, width: Positive): nat { (n + width - 1) / width }

  /** Tokens in block `i` of a run of `n` tokens. */
  function TokensAt(n: nat, width: Positive, i: nat): nat
    requires i < BlockCount(n, width)
  {
    BlockBounds(n, width, i);
    if (i + 1) * width <= n then width else n - i * width
  }

  lemma BlockBounds(n: nat, width: Positive, i: nat)
    requires i < BlockCount(n, width)
    ensures i * width < n
  {
    var c := BlockCount(n, width);
    assert width * c <= n + width - 1;
    MulMono(width, i + 1, c);
  }

  /** A prompt cut into the tokens it shares with other sessions and the rest. */
  datatype Prompt = Prompt(session: Session, role: Role, shared: nat, private: nat) {
    /** Position of the first private block. */
    function Base(width: Positive): nat { BlockCount(shared, width) }

    function Length(width: Positive): nat { Base(width) + BlockCount(private, width) }

    /** Block `i` of the prompt. */
    function PartAt(width: Positive, i: nat): Part
      requires i < Length(width)
    {
      if i < Base(width) then Part(Shared(role, i), TokensAt(shared, width, i), true)
      else Part(Private(session, i), TokensAt(private, width, i - Base(width)), false)
    }
  }

  function PromptOf(turn: Turn): Prompt {
    var shared := if turn.sharedPrefix <= turn.prompt then turn.sharedPrefix else turn.prompt;
    Prompt(turn.session, turn.role, shared, turn.prompt - shared)
  }

  /** The blocks of a prompt in prefix order: shared blocks, then private ones. */
  function Chain(prompt: Prompt, width: Positive): (parts: seq<Part>)
    ensures |parts| == prompt.Length(width)
    ensures forall i :: 0 <= i < |parts| ==> parts[i] == prompt.PartAt(width, i)
  {
    seq(prompt.Length(width), i requires 0 <= i < prompt.Length(width) => prompt.PartAt(width, i))
  }

  function ChainOf(geo: Geometry, turn: Turn): (parts: seq<Part>)
    ensures forall i :: 0 <= i < |parts| ==> parts[i].key.pos == i
  {
    Chain(PromptOf(turn), geo.width)
  }

  function KeysOf(parts: seq<Part>): (keys: seq<Key>)
    ensures |keys| == |parts| && forall i :: 0 <= i < |keys| ==> keys[i] == parts[i].key
  {
    seq(|parts|, i requires 0 <= i < |parts| => parts[i].key)
  }

  /** The keys a turn needs, in prefix order. */
  function PathOf(geo: Geometry, turn: Turn): (keys: seq<Key>)
    ensures forall i :: 0 <= i < |keys| ==> keys[i].pos == i
    ensures Distinct(keys)
  {
    KeysOf(ChainOf(geo, turn))
  }

  // ---- the index as a value -------------------------------------------------

  datatype BlockInfo = BlockInfo(tokens: nat, nbytes: nat, depth: nat, shared: bool, createdAt: real,
                                 lastUse: real, uses: nat, gap: Option<real>, refs: set<Session>, roles: set<Role>) {
    /** A use at `now`; a last use at time zero counts as no last use. */
    function Observe(now: real): BlockInfo {
      var idle := MaxReal(0.0, now - lastUse);
      this.(gap := if lastUse == 0.0 then gap
                   else if gap.None? then Some(idle) else Some(0.7 * gap.value + 0.3 * idle),
            uses := uses + 1, lastUse := now)
    }
  }

  datatype IndexState = IndexState(blocks: map<Key, BlockInfo>, path: map<Session, seq<Key>>,
                                   role: map<Session, Role>, lastSeen: map<Session, real>, invalidations: seq<Key>) {
    function Path(s: Session): seq<Key> { if s in path then path[s] else [] }

    /** Bytes and tokens of a block, zero for a block the index has never seen. */
    function Bytes(k: Key): nat { if k in blocks then blocks[k].nbytes else 0 }

    function Tokens(k: Key): nat { if k in blocks then blocks[k].tokens else 0 }
  }

  /** Index tokens of a list of blocks, added up. */
  function TokensOf(ix: IndexState, keys: seq<Key>): nat {
    if keys == [] then 0 else ix.Tokens(keys[0]) + TokensOf(ix, keys[1..])
  }

  const EMPTY := IndexState(map[], map[], map[], map[], [])

  /** The record of a block that is on the path of a turn. */
  function Register(geo: Geometry, blocks: map<Key, BlockInfo>, part: Part, turn: Turn): BlockInfo {
    var bytes := geo.cost.BlockBytes(part.tokens);
    var info :=
      if part.key !in blocks then
        BlockInfo(part.tokens, bytes, part.key.pos, part.shared, turn.t, 0.0, 0, None, {}, {})
      else if part.tokens > blocks[part.key].tokens then
        blocks[part.key].(tokens := part.tokens, nbytes := bytes)
      else blocks[part.key];
    info.(refs := info.refs + {turn.session}, roles := info.roles + {turn.role}).Observe(turn.t)
  }

  function Unlease(info: BlockInfo, s: Session): BlockInfo { info.(refs := info.refs - {s}) }

  /** The block map after a turn: the path is registered, the rest of the session's old path unleased. */
  function TouchedBlocks(geo: Geometry, ix: IndexState, turn: Turn): (r: map<Key, BlockInfo>)
    ensures r.Keys == ix.blocks.Keys + set k | k in PathOf(geo, turn)
  {
    var parts, keys, old' := ChainOf(geo, turn), PathOf(geo, turn), ix.Path(turn.session);
    map k | k in ix.blocks.Keys + (set k | k in keys) ::
      if k in keys then Register(geo, ix.blocks, parts[k.pos], turn)
      else if k in old' then Unlease(ix.blocks[k], turn.session)
      else ix.blocks[k]
  }

  /** What a shrinking path leaves behind when the turn was aborted. */
  function RolledBack(previous: seq<Key>, keys: seq<Key>, aborted: bool): seq<Key> {
    if aborted && |keys| < |previous| then previous[|keys|..] else []
  }

  /** The index after a turn has been seen. */
  function Touch(geo: Geometry, ix: IndexState, turn: Turn): IndexState {
    IndexState(
      TouchedBlocks(geo, ix, turn),
      ix.path[turn.session := PathOf(geo, turn)],
      ix.role[turn.session := turn.role],
      ix.lastSeen[turn.session := turn.t],
      ix.invalidations + RolledBack(ix.Path(turn.session), PathOf(geo, turn), turn.aborted))
  }

  /** The index after a session has closed. */
  function Release(ix: IndexState, s: Session): IndexState {
    ix.(blocks := map k | k in ix.blocks :: if k in ix.Path(s) then Unlease(ix.blocks[k], s) else ix.blocks[k],
        path := ix.path - {s},
        lastSeen := ix.lastSeen - {s})
  }

  const STALE_AFTER := 900.0

  /** Sessions that lease the block and were seen recently.  A session without a last-seen time would
      count as live: the source's default for it is infinity. */
  function LiveLeases(ix: IndexState, k: Key, now: real): set<Session> {
    if k in ix.blocks then
      set s | s in ix.blocks[k].refs && (s !in ix.lastSeen || now - ix.lastSeen[s] <= STALE_AFTER)
    else {}
  }

  function Power(x: real, n: nat): real { if n == 0 then 1.0 else x * Power(x, n - 1) }

  /** The chance that one lease brings the block back. */
  function PerLease(exp: real -> real, info: BlockInfo, now: real, horizon: real): real {
    if info.gap.None? || info.gap.value <= 0.0 then 0.05
    else exp(-MaxReal(0.0, now - info.lastUse) / info.gap.value) * (1.0 - exp(-horizon / info.gap.value))
  }

  /** The chance over `n` independent leases, counted up to eight. */
  function Aggregate(p: real, n: nat): real {
    if n <= 1 then p else 1.0 - Power(1.0 - p, if n <= 8 then n else 8)
  }

  /** Probability that a block is reused, aggregated over its live leases. */
  function LiveReuseProb(exp: real -> real, ix: IndexState, k: Key, now: real, horizon: real): real {
    if k in ix.blocks then Aggregate(PerLease(exp, ix.blocks[k], now, horizon), |LiveLeases(ix, k, now)|) else 0.0
  }

  // ---- the object -----------------------------------------------------------

  class PrefixIndex {
    const geo: Geometry
    var blocks: map<Key, BlockInfo>
    var sessionPath: map<Session, seq<Key>>
    var sessionRole: map<Session, Role>
    var lastSeen: map<Session, real>
    var invalidations: seq<Key>

    function State(): IndexState
      reads this
    {
      IndexState(blocks, sessionPath, sessionRole, lastSeen, invalidations)
    }

    constructor (geo: Geometry)
      ensures this.geo == geo && State() == EMPTY
    {
      this.geo := geo;
      blocks, sessionPath, sessionRole, lastSeen, invalidations := map[], map[], map[], map[], [];
    }

    /** `chain`: full shared blocks, a partial one, full private blocks, a partial one. */
    method BuildChain(session: Session, role: Role, promptTokens: nat, sharedPrefix: nat) returns (parts: seq<Part>)
      ensures var shared := if sharedPrefix <= promptTokens then sharedPrefix else promptTokens;
              parts == Chain(Prompt(session, role, shared, promptTokens - shared), geo.width)
    {
      var width := geo.width;
      var shared := if sharedPrefix <= promptTokens then sharedPrefix else promptTokens;
      var private := promptTokens - shared;
      ghost var p := Prompt(session, role, shared, private);
      parts := [];
      var full, rem := shared / width, shared % width;
      DivModCount(shared, width);
      for i := 0 to full
        invariant |parts| == i
        invariant forall k :: 0 <= k < i ==> parts[k] == p.PartAt(width, k)
      {
        FullBlock(shared, width, i);
        parts := parts + [Part(Shared(role, i), width, true)];
      }
      if rem > 0 { parts := parts + [Part(Shared(role, full), rem, true)]; }
      var base := |parts|;
      full, rem := private / width, private % width;
      DivModCount(private, width);
      for i := 0 to full
        invariant |parts| == base + i
        invariant forall k :: 0 <= k < base + i ==> parts[k] == p.PartAt(width, k)
      {
        PrivatePart(p, width, i);
        FullBlock(private, width, i);
        parts := parts + [Part(Private(session, base + i), width, false)];
      }
      if rem > 0 {
        PrivatePart(p, width, full);
        parts := parts + [Part(Private(session, base + full), rem, false)];
      }
    }

    method TouchPath(turn: Turn) returns (keys: seq<Key>)
      modifies this
      ensures State() == Touch(geo, old(State()), turn)
      ensures keys == PathOf(geo, turn)
    {
      var parts := BuildChain(turn.session, turn.role, turn.prompt, turn.sharedPrefix);
      assert parts == ChainOf(geo, turn);
      keys := KeysOf(parts);
      var previous := if turn.session in sessionPath then sessionPath[turn.session] else [];
      invalidations := invalidations + RolledBack(previous, keys, turn.aborted);
      var stale := Missing(previous, keys);
      sessionPath := sessionPath[turn.session := keys];
      sessionRole := sessionRole[turn.session := turn.role];
      lastSeen := lastSeen[turn.session := turn.t];
      RegisterParts(parts, turn);
      ghost var registered := blocks;
      DropLeases(stale, turn.session);
      TouchBlocks(geo, old(State()), turn, registered, blocks);
    }

    /** The loop that creates or grows the block of every part and records the use. */
    method RegisterParts(parts: seq<Part>, turn: Turn)
      requires forall i :: 0 <= i < |parts| ==> parts[i].key.pos == i
      modifies `blocks
      ensures blocks.Keys == old(blocks).Keys + set k | k in KeysOf(parts)
      ensures forall k :: k in blocks ==>
                blocks[k] == if k in KeysOf(parts) then Register(geo, old(blocks), parts[k.pos],
                    turn) else old(blocks)[k]
    {
      var keys := KeysOf(parts);
      for depth := 0 to |parts|
        invariant blocks.Keys == old(blocks).Keys + set k | k in keys[..depth]
        invariant forall k :: k in blocks ==>
                    blocks[k] == if k in keys[..depth] then Register(geo, old(blocks), parts[k.pos],
                        turn) else old(blocks)[k]
      {
        var part := parts[depth];
        assert keys[..depth + 1] == keys[..depth] + [part.key];
        assert part.key !in keys[..depth];
        blocks := blocks[part.key := Register(geo, blocks, part, turn)];
      }
      assert keys[..|parts|] == keys;
    }

    /** The loop that takes the session's lease off the given keys. */
    method DropLeases(keys: seq<Key>, s: Session)
      modifies `blocks
      ensures blocks.Keys == old(blocks).Keys
      ensures forall k :: k in blocks ==> blocks[k] == if k in keys then Unlease(old(blocks)[k], s) else old(blocks)[k]
    {
      for i := 0 to |keys|
        invariant blocks.Keys == old(blocks).Keys
        invariant forall k :: k in blocks ==>
                    blocks[k] == if k in keys[..i] then Unlease(old(blocks)[k], s) else old(blocks)[k]
      {
        assert keys[..i + 1] == keys[..i] + [keys[i]];
        if keys[i] in blocks { blocks := blocks[keys[i] := Unlease(blocks[keys[i]], s)]; }
      }
      assert keys[..|keys|] == keys;
    }

    /** `release_session`.  Every key of a path is in the index. */
    method ReleaseSession(s: Session)
      requires s in sessionPath ==> forall k :: k in sessionPath[s] ==> k in blocks
      modifies this
      ensures State() == Release(old(State()), s)
    {
      var keys := if s in sessionPath then sessionPath[s] else [];
      sessionPath := sessionPath - {s};
      DropLeases(keys, s);
      lastSeen := lastSeen - {s};
    }
  }

  /** Registering the path and then dropping the stale leases is the block map of `Touch`. */
  lemma TouchBlocks(geo: Geometry, ix: IndexState, turn: Turn, registered: map<Key, BlockInfo>, final: map<Key,
          BlockInfo>)
    requires registered.Keys == final.Keys == ix.blocks.Keys + set k | k in PathOf(geo, turn)
    requires forall k :: k in registered ==>
               registered[k] == if k in PathOf(geo, turn) then Register(geo, ix.blocks, ChainOf(geo, turn)[k.pos], turn)
                                else ix.blocks[k]
    requires forall k :: k in final ==>
               final[k] == if k in ix.Path(turn.session) && k !in PathOf(geo, turn)
                           then Unlease(registered[k], turn.session) else registered[k]
    ensures final == TouchedBlocks(geo, ix, turn)
  {
  }

  /** The keys of `keys` that are not in `kept`, in order. */
  function Missing(keys: seq<Key>, kept: seq<Key>): (r: seq<Key>)
    ensures forall k :: k in r <==> k in keys && k !in kept
  {
    if keys == [] then []
    else if keys[0] in kept then Missing(keys[1..], kept)
    else [keys[0]] + Missing(keys[1..], kept)
  }

  lemma PrivatePart(p: Prompt, width: Positive, i: nat)
    ensures i < BlockCount(p.private, width) ==>
              p.PartAt(width, p.Base(width) + i)
                == Part(Private(p.session, p.Base(width) + i), TokensAt(p.private, width, i), false)
  {
  }

  lemma DivModCount(n: nat, width: Positive)
    ensures BlockCount(n, width) == n / width + if n % width > 0 then 1 else 0
    ensures n % width > 0 ==> TokensAt(n, width, n / width) == n % width
  {
    var q, r := n / width, n % width;
    assert n == q * width + r;
    if r > 0 {
      assert (n + width - 1) / width == q + 1 by { DivUnique(n + width - 1, width, q + 1, r - 1); }
      assert (q + 1) * width == q * width + width;
    } else {
      DivUnique(n + width - 1, width, q, width - 1);
    }
  }

  lemma DivUnique(a: nat, b: Positive, q: nat, r: nat)
    requires a == q * b + r && r < b
    ensures a / b == q
  {
    var d := a / b;
    assert a == d * b + a % b;
    if d < q { MulMono(b, d + 1, q); } else if d > q { MulMono(b, q + 1, d); }
  }

  lemma FullBlock(n: nat, width: Positive, i: nat)
    requires i < n / width
    ensures i < BlockCount(n, width) && TokensAt(n, width, i) == width
  {
    DivModCount(n, width);
    assert n == width * (n / width) + n % width;
    MulMono(width, i + 1, n / width);
  }
}
