/** What a turn is (src/acr/trace.py) and what names a block (src/acr/index.py).

    Session ids and roles are numbers in the order in which Python compares the strings.  A block
    key is a constructor where the source formats a string. */
module Trace {
  import opened Base

  type Session = nat
  type Role = nat

  datatype Turn = Turn(t: real, session: Session, role: Role, prompt: nat, completion: nat,
                       sharedPrefix: nat, toolEta: Option<real>, aborted: bool)

  /** Block `pos` of a role's shared prefix, or of a session's private suffix.  Positions count from
      the start of the prompt. */
  datatype Key = Shared(role: Role, pos: nat) | Private(session: Session, pos: nat)

  /** A block and the bytes it is stored with. */
  datatype Item = Item(key: Key, nbytes: nat)

  function ItemBytes(items: seq<Item>): nat { if items == [] then 0 else items[0].nbytes + ItemBytes(items[1..]) }

  function ItemKeys(items: seq<Item>): (ks: seq<Key>)
    ensures |ks| == |items| && forall i :: 0 <= i < |items| ==> ks[i] == items[i].key
  {
    seq(|items|, i requires 0 <= i < |items| => items[i].key)
  }

  function KeySet(ks: seq<Key>): set<Key> { set k | k in ks }

  lemma {:induction false} ItemBytesConcat(a: seq<Item>, b: seq<Item>)
    ensures ItemBytes(a + b) == ItemBytes(a) + ItemBytes(b)
  {
    if a == [] {
      assert a + b == b;
    } else {
      ItemBytesConcat(a[1..], b);
      assert (a + b)[1..] == a[1..] + b;
    }
  }
}

/** Tier and cost configuration (src/acr/config.py), over exact reals. */
module Config {
  import opened Base

  type Rate = r: real | r > 0.0 witness 1.0
  type KvBytes = r: real | r >= 1.0 witness 1.0

  const GIGA := 1000000000.0

  datatype CostModel = CostModel(kvBytesPerToken: KvBytes, prefillRate: Rate, decodeRate: Rate, overhead: real) {
    function RecomputeSeconds(tokens: real): real { tokens / prefillRate }

    function BreakevenGbs(): real { kvBytesPerToken * prefillRate / GIGA }

    predicate IsWorthTier(tier: Tier) { tier.EffectiveGbs() > BreakevenGbs() }

    /** Python's int(tokens * kv_bytes_per_token). */
    function BlockBytes(tokens: nat): (n: nat)
      ensures n >= tokens
    {
      assert tokens as real * kvBytesPerToken >= tokens as real * 1.0;
      (tokens as real * kvBytesPerToken).Floor
    }
  }

  datatype Tier = Tier(capacity: nat, bandwidthGbs: Rate, efficiency: Rate) {
    function EffectiveGbs(): real { bandwidthGbs * efficiency }

    function BytesPerSecond(): (r: Rate) {
      assert bandwidthGbs * efficiency > 0.0;
      EffectiveGbs() * GIGA
    }

    function RestoreSeconds(nbytes: int): real {
      if nbytes <= 0 then 0.0 else nbytes as real / BytesPerSecond()
    }
  }

  /** `exp` is math.exp.  Nothing but what a lemma requires is known about it. */
  datatype SimConfig = SimConfig(hbmPoolTokens: nat, blockTokens: nat, cost: CostModel, ram: Tier,
                                 thrashWindow: real, exp: real -> real) {
    function HbmBytes(): nat { cost.BlockBytes(hbmPoolTokens) }

    function Shape(): Geometry { Geometry(MaxInt(1, blockTokens), cost) }

    /** Bytes of a full block. */
    function FullBytes(): (n: nat)
      ensures n >= 1
    {
      cost.BlockBytes(Shape().width)
    }
  }

  /** What the prefix index needs: the block width, at least one token, and the cost model. */
  datatype Geometry = Geometry(width: Positive, cost: CostModel)

  lemma BytesMono(c: CostModel, m: nat, n: nat)
    requires m <= n
    ensures c.BlockBytes(m) <= c.BlockBytes(n)
  {
    ScaleMono(c.kvBytesPerToken, m as real, n as real);
    FloorMono(m as real * c.kvBytesPerToken, n as real * c.kvBytesPerToken);
  }

  lemma ScaleMono(f: real, x: real, y: real)
    requires f >= 0.0 && x <= y
    ensures x * f <= y * f
  {
  }

  lemma FloorMono(x: real, y: real)
    requires x <= y
    ensures x.Floor <= y.Floor
  {
  }
}
