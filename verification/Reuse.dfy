/** Reuse probabilities (src/acr/index.py, src/acr/policies.py).

    All that is assumed of the exponential is that it maps non-positive numbers into the unit interval. */
module Reuse {
  import opened Base
  import opened Trace
  import opened Prefix
  import opened Policies

  ghost predicate Damping(exp: real -> real) { forall t: real :: t <= 0.0 ==> 0.0 <= exp(t) <= 1.0 }

  ghost predicate Unit(x: real) { 0.0 <= x <= 1.0 }

  lemma UnitProduct(x: real, y: real)
    requires Unit(x) && Unit(y)
    ensures Unit(x * y) && x * y <= x && x * y <= y
  {
  }

  lemma NegativeRatio(x: real, y: real)
    requires x >= 0.0 && y > 0.0
    ensures -x / y <= 0.0
  {
    assert x / y >= 0.0;
    assert -x / y == -(x / y);
  }

  /** Multiplying by a factor in the unit interval. */
  lemma Multiplied(x: real, y: real, z: real)
    requires Unit(x) && Unit(y) && z == x * y
    ensures Unit(z) && z <= y && (0.0 < x < 1.0 && y > 0.0 ==> 0.0 < z < y)
  {
    UnitProduct(x, y);
    if 0.0 < x < 1.0 && y > 0.0 { Shrinks(x, y); }
  }

  lemma Shrinks(x: real, y: real)
    requires 0.0 < x < 1.0 && y > 0.0
    ensures 0.0 < x * y < y
  {
  }

  lemma {:induction false} PowerUnit(x: real, n: nat)
    requires Unit(x)
    ensures Unit(Power(x, n)) && (0.0 < x < 1.0 ==> Power(x, n) > 0.0)
  {
    if n > 0 {
      PowerUnit(x, n - 1);
      Multiplied(x, Power(x, n - 1), Power(x, n));
    }
  }

  /** More factors below one make a product smaller, strictly so when they are above zero. */
  lemma {:induction false} PowerFalls(x: real, m: nat, n: nat)
    requires Unit(x) && m <= n
    ensures Unit(Power(x, n)) && Power(x, n) <= Power(x, m)
    ensures 0.0 < x < 1.0 && m < n ==> Power(x, n) < Power(x, m)
  {
    if m == n {
      PowerUnit(x, n);
    } else {
      PowerFalls(x, m, n - 1);
      PowerUnit(x, n - 1);
      Multiplied(x, Power(x, n - 1), Power(x, n));
    }
  }

  lemma PerLeaseUnit(exp: real -> real, info: BlockInfo, now: real, horizon: real)
    requires Damping(exp) && horizon >= 0.0
    ensures Unit(PerLease(exp, info, now, horizon))
  {
    if info.gap.Some? && info.gap.value > 0.0 {
      var idle := MaxReal(0.0, now - info.lastUse);
      NegativeRatio(idle, info.gap.value);
      NegativeRatio(horizon, info.gap.value);
      UnitProduct(exp(-idle / info.gap.value), 1.0 - exp(-horizon / info.gap.value));
    }
  }

  lemma AggregateUnit(p: real, n: nat)
    requires Unit(p)
    ensures Unit(Aggregate(p, n)) && Aggregate(p, n) >= p
  {
    if n > 1 {
      var m := if n <= 8 then n else 8;
      PowerFalls(1.0 - p, 1, m);
      assert Power(1.0 - p, 1) == (1.0 - p) * Power(1.0 - p, 0) == 1.0 - p;
    }
  }

  /** More live leases never lower the aggregate; up to eight they raise it strictly, unless a single
      lease is certain or hopeless; past eight they change nothing. */
  lemma LeasesLift(p: real, m: nat, n: nat)
    requires Unit(p) && m <= n
    ensures Aggregate(p, m) <= Aggregate(p, n)
    ensures 0.0 < p < 1.0 && 1 <= m < n && m < 8 ==> Aggregate(p, m) < Aggregate(p, n)
    ensures m >= 8 ==> Aggregate(p, m) == Aggregate(p, n)
  {
    var x, a, b := 1.0 - p, if m <= 8 then m else 8, if n <= 8 then n else 8;
    assert Power(x, 1) == x * Power(x, 0) == x;
    if n > 1 {
      PowerFalls(x, if a < 1 then 1 else a, b);
    }
  }

  /** The reuse probability of a block is a probability, and rises with its live leases. */
  lemma LiveReuseIsProbability(exp: real -> real, ix: IndexState, k: Key, now: real, horizon: real)
    requires Damping(exp) && horizon >= 0.0
    ensures Unit(LiveReuseProb(exp, ix, k, now, horizon))
  {
    if k in ix.blocks {
      PerLeaseUnit(exp, ix.blocks[k], now, horizon);
      AggregateUnit(PerLease(exp, ix.blocks[k], now, horizon), |LiveLeases(ix, k, now)|);
    }
  }

  lemma SamePerLease(exp: real -> real, x: BlockInfo, y: BlockInfo, now: real, horizon: real)
    requires x.(refs := {}) == y.(refs := {})
    ensures PerLease(exp, x, now, horizon) == PerLease(exp, y, now, horizon)
  {
    assert x.gap == x.(refs := {}).gap == y.gap && x.lastUse == x.(refs := {}).lastUse == y.lastUse;
  }

  /** Two indexes that know the same of a block but its leases: the one with more live leases gives it
      no less chance of reuse. */
  lemma MoreLeasesMoreReuse(exp: real -> real, a: IndexState, b: IndexState, k: Key, now: real, horizon: real)
    requires Damping(exp) && horizon >= 0.0 && k in a.blocks && k in b.blocks
    requires a.blocks[k].(refs := {}) == b.blocks[k].(refs := {}) && |LiveLeases(a, k, now)| <= |LiveLeases(b, k, now)|
    ensures LiveReuseProb(exp, a, k, now, horizon) <= LiveReuseProb(exp, b, k, now, horizon)
  {
    SamePerLease(exp, a.blocks[k], b.blocks[k], now, horizon);
    PerLeaseUnit(exp, a.blocks[k], now, horizon);
    LeasesLift(PerLease(exp, a.blocks[k], now, horizon), |LiveLeases(a, k, now)|, |LiveLeases(b, k, now)|);
  }

  ghost predicate UnitPriors(priors: map<Role, real>, defaultPrior: Option<real>) {
    (forall r :: r in priors ==> Unit(priors[r])) && (defaultPrior.Some? ==> Unit(defaultPrior.value))
  }

  /** What a policy goes by: still a probability.  Announced returns and role priors only raise it, and a
      prior counts only until the block has a reuse history. */
  lemma HintsOnlyRaise(v: View, k: Key, horizon: real, priors: map<Role, real>, defaultPrior: Option<real>)
    requires Damping(v.exp) && horizon >= 0.0 && UnitPriors(priors, defaultPrior)
    ensures Unit(v.ReuseProb(k, horizon, priors, defaultPrior))
    ensures v.ReuseProb(k, horizon, priors, defaultPrior) >= LiveReuseProb(v.exp, v.ix, k, v.now, horizon)
    ensures k in v.ix.blocks && v.ix.blocks[k].gap.Some? ==>
              v.ReuseProb(k, horizon, priors, defaultPrior) == v.ReuseProb(k, horizon, map[], None)
  {
    LiveReuseIsProbability(v.exp, v.ix, k, v.now, horizon);
    if k in v.ix.blocks {
      var away, idle := v.SessionEta(k), MaxReal(0.0, v.now - v.ix.blocks[k].lastUse);
      if away > 0.0 && idle > away { NegativeRatio(idle - away, away); }
    }
  }

  /** A block whose session is on time keeps at least nine tenths. */
  lemma AnnouncedReturn(v: View, k: Key, horizon: real, priors: map<Role, real>, defaultPrior: Option<real>)
    requires k in v.ix.blocks && 0.0 < v.SessionEta(k) && v.now - v.ix.blocks[k].lastUse <= v.SessionEta(k)
    ensures v.ReuseProb(k, horizon, priors, defaultPrior) >= 0.9
  {
  }
}
