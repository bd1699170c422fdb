/** How long entries live under the expiring policies, and what a turn is charged for. */
module Lifetimes {
  import opened Base
  import opened Trace
  import opened Config
  import opened Prefix
  import opened Policies
  import opened Hbm
  import opened Replay
  import opened HostFacts
  import opened Foresight
  import opened Evictions

  // ---- lifetimes ------------------------------------------------------------

  /** Larger blocks live no shorter under the flat policy, and the smallest still for the base time. */
  lemma FixedLifetime(kind: Kind, p: Probe, k: Key, m: nat, n: nat)
    requires kind.FixedTtl? && kind.perGib >= 0.0 && m <= n
    ensures Expiry(kind, p, k, n).At? && Expiry(kind, p, k, m).t <= Expiry(kind, p, k, n).t
    ensures Expiry(kind, p, k, m).t >= p.view.now + kind.base
  {
    var x, y := m as real / GIB, n as real / GIB;
    LeftScaleMono(kind.perGib, x, y);
    LeftScaleMono(kind.perGib, 0.0, x);
    FixedIs(kind, p, k, m, kind.perGib * x);
    FixedIs(kind, p, k, n, kind.perGib * y);
  }

  lemma FixedIs(kind: Kind, p: Probe, k: Key, n: nat, extra: real)
    requires kind.FixedTtl? && extra == kind.perGib * (n as real / GIB)
    ensures Expiry(kind, p, k, n) == At(p.view.now + kind.base + extra)
  {
  }

  lemma LeftScaleMono(f: real, x: real, y: real)
    requires f >= 0.0 && x <= y
    ensures f * x <= f * y && f * 0.0 == 0.0
  {
  }

  lemma Clamped(x: real, low: real, high: real)
    requires low <= high
    ensures low <= MinReal(high, MaxReal(low, x)) <= high
  {
  }

  lemma ClampMono(low: real, high: real, u: real, v: real)
    requires u <= v
    ensures MinReal(high, MaxReal(low, u)) <= MinReal(high, MaxReal(low, v))
  {
  }

  lemma AllowanceMono(kind: Kind, x: real, y: real)
    requires kind.Continuum? && kind.scale >= 0.0 && x <= y
    ensures Allowance(kind, x) <= Allowance(kind, y)
  {
    LeftScaleMono(kind.scale, x, y);
    ClampMono(kind.minimum, kind.maximum, kind.scale * x, kind.scale * y);
  }

  /** Under the cost-scaled policy a block lives through its sessions' announced absence and then for a
      time between the two limits. */
  lemma ContinuumWithin(kind: Kind, p: Probe, k: Key, nbytes: nat)
    requires kind.Continuum? && kind.minimum <= kind.maximum
    ensures var e, away := Expiry(kind, p, k, nbytes), p.view.SessionEta(k);
            e.At? && p.view.now + away + kind.minimum <= e.t <= p.view.now + away + kind.maximum
  {
    Clamped(kind.scale * p.RecomputeSeconds(p.view.ChainOr(k, nbytes)), kind.minimum, kind.maximum);
  }

  /** Of two blocks with the same announced absence, the one on the longer path lives no shorter. */
  lemma LongerPathLivesLonger(kind: Kind, p: Probe, k: Key, m: nat, l: Key, n: nat)
    requires kind.Continuum? && kind.scale >= 0.0 && p.view.SessionEta(k) == p.view.SessionEta(l)
    requires p.view.ChainOr(k, m) <= p.view.ChainOr(l, n)
    ensures Expiry(kind, p, k, m).t <= Expiry(kind, p, l, n).t
  {
    var x, y := p.RecomputeSeconds(p.view.ChainOr(k, m)), p.RecomputeSeconds(p.view.ChainOr(l, n));
    SecondsMono(p, p.view.ChainOr(k, m), p.view.ChainOr(l, n));
    AllowanceMono(kind, x, y);
  }

  lemma DivideMono(x: real, y: real, d: real)
    requires x <= y && d > 0.0
    ensures x / d <= y / d
  {
    assert y / d - x / d == (y - x) / d;
    assert (y - x) / d >= 0.0;
  }

  lemma SecondsMono(p: Probe, m: nat, n: nat)
    requires m <= n
    ensures p.RecomputeSeconds(m) <= p.RecomputeSeconds(n)
  {
    DivideMono(m as real, n as real, p.cost.kvBytesPerToken);
    DivideMono(m as real / p.cost.kvBytesPerToken, n as real / p.cost.kvBytesPerToken, p.cost.prefillRate);
  }

  /** Touching a key makes its entry recent and renews its lifetime. */
  lemma {:induction false} TouchRenews(kind: Kind, p: Probe, es: seq<Entry>, keys: seq<Key>, i: nat)
    requires i < |es| && es[i].key in keys
    ensures var r := TouchKeys(kind, p, es, keys)[i];
            && r.key == es[i].key && r.nbytes == es[i].nbytes
            && r.lastTouch == p.view.now && r.expiresAt == Expiry(kind, p, es[i].key, es[i].nbytes)
    decreases |keys|
  {
    var m := TouchKey(kind, p, es, keys[0]);
    if es[i].key in keys[1..] { TouchRenews(kind, p, m, keys[1..], i); } else { TouchOutside(kind, p, m, keys[1..]); }
  }

  /** After a turn an entry is on the turn's path, touched now and with a lifetime counted from now, or is
      as it was before. */
  lemma StepRenews(cfg: SimConfig, kind: Kind, sched: Schedule, c: Control, turn: Turn)
    requires UniqueKeys(c.host.entries)
    ensures var p, keys := ProbeOf(cfg, c, turn), PathOf(cfg.Shape(), turn);
            var r := StepControl(cfg, kind, sched, c, turn).host.entries;
            forall e :: e in r ==>
              if e.key in keys then e.lastTouch == turn.t && e.expiresAt == Expiry(kind, p, e.key, e.nbytes)
              else e in c.host.entries
  {
    var p, keys := ProbeOf(cfg, c, turn), PathOf(cfg.Shape(), turn);
    var r := StepControl(cfg, kind, sched, c, turn).host.entries;
    StepOutside(cfg, kind, sched, c, turn);
    forall e | e in r && e.key in keys
      ensures e.lastTouch == turn.t && e.expiresAt == Expiry(kind, p, e.key, e.nbytes)
    {
      var i :| 0 <= i < |r| && r[i] == e;
      Renewed(kind, p, sched, StoreToHost(kind, p, sched, c.host, keys).entries, keys, i);
    }
  }

  lemma {:induction false} Renewed(kind: Kind, p: Probe, sched: Schedule, es: seq<Entry>, keys: seq<Key>, i: nat)
    requires i < |es|
    ensures var r := RefreshAll(sched, p.view.now, TouchKeys(kind, p, es, keys), keys)[i];
            r.key in keys ==> r.lastTouch == p.view.now && r.expiresAt == Expiry(kind, p, r.key, r.nbytes)
  {
    TouchOutside(kind, p, es, keys);
    if es[i].key in keys { TouchRenews(kind, p, es, keys, i); }
  }

  /** The policies that set no lifetimes. */
  predicate Timeless(kind: Kind) { !kind.FixedTtl? && !kind.Continuum? }

  /** In every run of such a policy no entry has an end of life. */
  lemma {:induction false} RunTimeless(cfg: SimConfig, kind: Kind, sched: Schedule, turns: seq<Turn>)
    requires Timeless(kind)
    ensures forall e :: e in RunControl(cfg, kind, sched, turns).host.entries ==> e.expiresAt == Never
  {
    if turns != [] {
      var n := |turns| - 1;
      RunTimeless(cfg, kind, sched, turns[..n]);
      RunHoused(cfg, kind, sched, turns[..n]);
      StepRenews(cfg, kind, sched, RunControl(cfg, kind, sched, turns[..n]), turns[n]);
    }
  }

  /** So they never lose an entry to the clock: at every turn of every run all residents are current. */
  lemma {:induction false} NothingExpires(cfg: SimConfig, kind: Kind, sched: Schedule, turns: seq<Turn>, turn: Turn)
    requires Timeless(kind)
    ensures var c := RunControl(cfg, kind, sched, turns);
            Current(kind, ProbeOf(cfg, c, turn), c.host.entries) == c.host.entries
  {
    RunTimeless(cfg, kind, sched, turns);
    UnexpiredIff(RunControl(cfg, kind, sched, turns).host.entries, turn.t);
  }

  // ---- service --------------------------------------------------------------

  /** The block can be served without recompute. */
  predicate Resident(hbm: seq<Item>, es: seq<Entry>, k: Key) { Holds(hbm, k) || HasKey(es, k) }

  /** Bytes to be restored for a list of blocks: those in the host tier that are not in the pool. */
  function ToRestore(hbm: seq<Item>, es: seq<Entry>, keys: seq<Key>): nat {
    if keys == [] then 0
    else
      var n := |keys| - 1;
      ToRestore(hbm, es, keys[..n])
        + if !Holds(hbm, keys[n]) && HasKey(es, keys[n]) then Find(es, keys[n]).value.nbytes else 0
  }

  /** A turn is served the longest prefix of its path of which every block is resident, pays the transfer
      of exactly the blocks of it that are in the host tier only, and recomputes the rest. */
  lemma {:induction false} ServedPrefix(window: real, hbm: seq<Item>, left: map<Key, real>, es: seq<Entry>,
          keys: seq<Key>, now: real)
    ensures var s := Serve(window, hbm, left, es, keys, now);
            && (forall i :: 0 <= i < s.cut ==> Resident(hbm, es, keys[i]))
            && (s.cut < |keys| ==> !Resident(hbm, es, keys[s.cut]))
            && s.restoreBytes == ToRestore(hbm, es, keys[..s.cut])
            && s.thrash <= s.cut
  {
    ServedLongest(window, hbm, left, es, keys, now);
    ServedBytes(window, hbm, left, es, keys, now);
  }

  lemma {:induction false} ServedLongest(window: real, hbm: seq<Item>, left: map<Key, real>, es: seq<Entry>,
          keys: seq<Key>, now: real)
    ensures var s := Serve(window, hbm, left, es, keys, now);
            && (forall i :: 0 <= i < s.cut ==> Resident(hbm, es, keys[i]))
            && (s.cut < |keys| ==> !Resident(hbm, es, keys[s.cut]))
            && s.thrash <= s.cut
  {
    if keys != [] {
      ServedLongest(window, hbm, left, es, keys[1..], now);
      var s, t := Serve(window, hbm, left, es, keys, now), Serve(window, hbm, left, es, keys[1..], now);
      forall i | 0 <= i < s.cut
        ensures Resident(hbm, es, keys[i])
      {
        if i > 0 { assert keys[i] == keys[1..][i - 1]; }
      }
    }
  }

  lemma {:induction false} RestoreCons(hbm: seq<Item>, es: seq<Entry>, keys: seq<Key>)
    requires keys != []
    ensures ToRestore(hbm, es, keys)
         == ToRestore(hbm, es, keys[1..]) + if !Holds(hbm, keys[0])
           && HasKey(es, keys[0]) then Find(es, keys[0]).value.nbytes else 0
  {
    var n := |keys| - 1;
    if n > 0 {
      RestoreCons(hbm, es, keys[..n]);
      assert keys[..n][1..] == keys[1..][..n - 1];
    }
  }

  lemma {:induction false} ServedBytes(window: real, hbm: seq<Item>, left: map<Key, real>, es: seq<Entry>,
          keys: seq<Key>, now: real)
    ensures var s := Serve(window, hbm, left, es, keys, now); s.restoreBytes == ToRestore(hbm, es, keys[..s.cut])
  {
    if keys != [] {
      ServedBytes(window, hbm, left, es, keys[1..], now);
      var s := Serve(window, hbm, left, es, keys, now);
      if s.cut > 0 {
        RestoreCons(hbm, es, keys[..s.cut]);
        assert keys[..s.cut][1..] == keys[1..][..s.cut - 1];
      }
    }
  }
}
