/** The simulator object (src/acr/replay.py): its methods are proved to take the steps of module `Replay`. */
module Simulation {
  import opened Base
  import opened Sorting
  import opened Trace
  import opened Config
  import opened Prefix
  import opened Leases
  import opened Policies
  import opened Hbm
  import opened Replay
  import opened HostFacts

  function TimeOrder(): (Turn, Turn) -> bool { (a: Turn, b: Turn) => a.t <= b.t }

  function ClockOrder(): (real, real) -> bool { (a: real, b: real) => a <= b }

  /** The simulator after more turns. */
  function RunFrom(cfg: SimConfig, kind: Kind, sched: Schedule, s: Sim, turns: seq<Turn>): Sim {
    if turns == [] then s
    else OneTurn(cfg, kind, sched, RunFrom(cfg, kind, sched, s, turns[..|turns| - 1]), turns[|turns| - 1])
  }

  lemma {:induction false} RunFromFresh(cfg: SimConfig, kind: Kind, sched: Schedule, turns: seq<Turn>)
    ensures RunFrom(cfg, kind, sched, FRESH, turns) == Run(cfg, kind, sched, turns)
  {
    if turns != [] { RunFromFresh(cfg, kind, sched, turns[..|turns| - 1]); }
  }

  lemma {:induction false} RunFromNext(cfg: SimConfig, kind: Kind, sched: Schedule, s: Sim, turns: seq<Turn>, n: nat)
    requires n < |turns|
    ensures RunFrom(cfg, kind, sched, s, turns[..n + 1])
         == OneTurn(cfg, kind, sched, RunFrom(cfg, kind, sched, s, turns[..n]), turns[n])
  {
    assert turns[..n + 1][..n] == turns[..n];
  }

  /** The index after every session has closed. */
  function AllClosed(ix: IndexState): IndexState {
    ix.(blocks := map k | k in ix.blocks :: ix.blocks[k].(refs := set s | s in ix.blocks[k].refs && k !in ix.Path(s)),
        path := map[], lastSeen := ix.lastSeen - ix.path.Keys)
  }

  // ---- the steps of a turn, in the order of the source ----------------------

  function ProbeAt(cfg: SimConfig, c: Control, now: real): Probe {
    Probe(cfg.cost, cfg.ram, View(cfg.exp, c.ix, now, c.eta))
  }

  function Observed(cfg: SimConfig, c: Control, turn: Turn): Control {
    Control(Touch(cfg.Shape(), c.ix, turn), Announce(c.eta, turn), c.host)
  }

  /** The metric of a turn whose path has been touched. */
  function Measure(cfg: SimConfig, s: Sim, turn: Turn, keys: seq<Key>): Metric {
    var service := Serve(cfg.thrashWindow, s.hbm, s.leftHbm, s.control.host.entries, keys, turn.t);
    var recompute := TokensOf(s.control.ix, keys[service.cut..]);
    var ttft := s.queue.Ttft(cfg.cost, turn.t, cfg.ram.RestoreSeconds(service.restoreBytes),
                             cfg.cost.RecomputeSeconds(recompute as real));
    Metric(turn.t, turn.role, turn.prompt, ttft, ttft + turn.completion as real / cfg.cost.decodeRate,
           recompute, service.restoreBytes, service.restoreBytes > 0)
  }

  function Served(cfg: SimConfig, s: Sim, turn: Turn, keys: seq<Key>): Sim {
    var m := Measure(cfg, s, turn, keys);
    s.(thrash := s.thrash + Serve(cfg.thrashWindow, s.hbm, s.leftHbm, s.control.host.entries, keys, turn.t).thrash,
       queue := s.queue.Charge(turn.t, cfg.ram.RestoreSeconds(m.restoreBytes),
           cfg.cost.RecomputeSeconds(m.recompute as real)))
  }

  function Filled(cfg: SimConfig, s: Sim, keys: seq<Key>, now: real): Sim {
    var evicted := StepEvicted(cfg, s.control.ix, s.hbm, keys);
    s.(hbm := StepHbm(cfg, s.control.ix, s.hbm, keys), leftHbm := LeftNow(s.leftHbm, evicted, now),
       demotions := s.demotions + |evicted|)
  }

  function StoredToHost(cfg: SimConfig, kind: Kind, sched: Schedule, c: Control, keys: seq<Key>, now: real): Control {
    c.(host := StoreToHost(kind, ProbeAt(cfg, c, now), sched, c.host, keys))
  }

  function Refreshed(cfg: SimConfig, kind: Kind, sched: Schedule, c: Control, keys: seq<Key>, now: real): Control {
    c.(host := c.host.(entries := RefreshAll(sched, now, TouchKeys(kind, ProbeAt(cfg, c, now), c.host.entries, keys),
        keys)))
  }

  function Retained(cfg: SimConfig, kind: Kind, sched: Schedule, s: Sim, keys: seq<Key>, now: real): Sim {
    Filled(cfg, s, keys, now).(control :=
      Refreshed(cfg, kind, sched, StoredToHost(cfg, kind, sched, s.control, keys, now), keys, now))
  }

  /** A turn, step by step. */
  function InSteps(cfg: SimConfig, kind: Kind, sched: Schedule, s: Sim, turn: Turn, keys: seq<Key>): Sim {
    var s1 := s.(control := Observed(cfg, s.control, turn));
    var s2 := Retained(cfg, kind, sched, Served(cfg, s1, turn, keys), keys, turn.t);
    s2.(metrics := s.metrics + [Measure(cfg, s1, turn, keys)],
        peakRam := MaxInt(s.peakRam, Bytes(s2.control.host.entries)))
  }

  /** The steps add up to the turn of module `Replay`. */
  lemma TurnInSteps(cfg: SimConfig, kind: Kind, sched: Schedule, s: Sim, turn: Turn)
    ensures OneTurn(cfg, kind, sched, s, turn) == InSteps(cfg, kind, sched, s, turn, PathOf(cfg.Shape(), turn))
  {
    ControlInSteps(cfg, kind, sched, s.control, turn);
    MeasureIsMetric(cfg, s, turn);
  }

  lemma ControlInSteps(cfg: SimConfig, kind: Kind, sched: Schedule, c: Control, turn: Turn)
    ensures var keys := PathOf(cfg.Shape(), turn);
            StepControl(cfg, kind, sched, c, turn)
              == Refreshed(cfg, kind, sched, StoredToHost(cfg, kind, sched, Observed(cfg, c, turn), keys, turn.t),
                  keys, turn.t)
  {
    assert ProbeAt(cfg, Observed(cfg, c, turn), turn.t) == ProbeOf(cfg, c, turn);
  }

  lemma MeasureIsMetric(cfg: SimConfig, s: Sim, turn: Turn)
    ensures Measure(cfg, s.(control := Observed(cfg, s.control, turn)), turn, PathOf(cfg.Shape(), turn))
        == MetricOf(cfg, s, turn)
  {
  }

  class Simulator {
    const cfg: SimConfig
    const index: PrefixIndex
    const policy: TierPolicy
    const hbm: HBMTier
    var toolEta: map<Session, real>
    var now: real
    var pcieBusy: real
    var prefillBusy: real
    var metrics: seq<Metric>
    var leftHbmAt: map<Key, real>
    var leftHostAt: map<Key, real>
    var thrash: nat
    var reacquires: nat
    var demotions: nat
    var peakRam: nat

    function State(): Sim
      reads this, index, policy, hbm
    {
      Sim(Control(index.State(), toolEta, HostState()), hbm.blocks, leftHbmAt, demotions, thrash,
          Queue(pcieBusy, prefillBusy), metrics, peakRam)
    }

    function HostState(): Host
      reads this, policy
    {
      Host(policy.entries, leftHostAt, reacquires)
    }

    /** The view handed to the policy. */
    function Probing(): Probe
      reads this, index
    {
      Probe(cfg.cost, cfg.ram, View(cfg.exp, index.State(), now, toolEta))
    }

    /** Every key of a path and every key of the host tier is in the index. */
    ghost predicate Valid()
      reads index, policy, hbm
    {
      && index.geo == cfg.Shape() && policy.capacity == cfg.ram.capacity && hbm.capacity == cfg.HbmBytes()
      && hbm.Valid() && Indexed(index.blocks.Keys, policy.entries)
      && forall s :: s in index.sessionPath ==> forall k :: k in index.sessionPath[s] ==> k in index.blocks
    }

    constructor (cfg: SimConfig, kind: Kind)
      ensures Valid() && State() == FRESH && policy.kind == kind && this.cfg == cfg
      ensures fresh(index) && fresh(policy) && fresh(hbm)
    {
      this.cfg := cfg;
      index := new PrefixIndex(cfg.Shape());
      policy := new TierPolicy(kind, cfg.ram.capacity);
      hbm := new HBMTier(cfg.HbmBytes());
      toolEta, now, pcieBusy, prefillBusy, metrics := map[], 0.0, 0.0, 0.0, [];
      leftHbmAt, leftHostAt, thrash, reacquires, demotions, peakRam := map[], map[], 0, 0, 0, 0;
    }

    // ---- oracle support -----------------------------------------------------

    /** `future_accesses`: the access times of every block of the trace. */
    static method FutureAccesses(geo: Geometry, turns: seq<Turn>) returns (sched: Schedule)
      ensures Foresees(geo, StableSort(turns, TimeOrder()), sched)
    {
      var ordered := StableSort(turns, TimeOrder());
      var index := new PrefixIndex(geo);
      sched := map[];
      for n := 0 to |ordered|
        invariant index.geo == geo && Foresees(geo, ordered[..n], sched)
      {
        var turn := ordered[n];
        var parts := index.BuildChain(turn.session, turn.role, turn.prompt, turn.sharedPrefix);
        assert KeysOf(parts) == PathOf(geo, turn);
        sched := Record(sched, KeysOf(parts), turn.t);
        assert ordered[..n + 1][..n] == ordered[..n];
      }
      assert ordered[..|ordered|] == ordered;
      TimesAscend(geo, turns, sched);
      sched := map k | k in sched :: StableSort(sched[k], ClockOrder());
    }

    /** Note one more access of every key. */
    static method Record(sched: Schedule, keys: seq<Key>, t: real) returns (r: Schedule)
      requires Distinct(keys)
      ensures forall k :: Times(r, k) == Times(sched, k) + (if k in keys then [t] else [])
    {
      r := sched;
      for i := 0 to |keys|
        invariant forall k :: Times(r, k) == Times(sched, k) + (if k in keys[..i] then [t] else [])
      {
        assert keys[..i + 1] == keys[..i] + [keys[i]];
        r := r[keys[i] := Times(r, keys[i]) + [t]];
      }
      assert keys[..|keys|] == keys;
    }

    /** `_refresh_oracle`. */
    method RefreshOracle(keys: seq<Key>, sched: Schedule)
      modifies policy
      ensures policy.entries == RefreshAll(sched, now, old(policy.entries), keys)
    {
      for i := 0 to |keys|
        invariant policy.entries == RefreshAll(sched, now, old(policy.entries), keys[..i])
      {
        assert keys[..i + 1] == keys[..i] + [keys[i]];
        if Find(policy.entries, keys[i]).Some? {
          policy.entries := SetNextUse(policy.entries, keys[i], NextUse(sched, keys[i], now));
        }
      }
      assert keys[..|keys|] == keys;
    }

    // ---- one turn -----------------------------------------------------------

    /** The longest serviceable prefix, and where each block must come from. */
    method ServeFrom(keys: seq<Key>) returns (cut: nat, restoreBytes: nat)
      modifies `thrash
      ensures thrash >= old(thrash)
      ensures Service(cut, restoreBytes, thrash - old(thrash))
           == Serve(cfg.thrashWindow, hbm.blocks, leftHbmAt, policy.entries, keys, now)
    {
      cut, restoreBytes := |keys|, 0;
      var i := 0;
      ghost var whole := Serve(cfg.thrashWindow, hbm.blocks, leftHbmAt, policy.entries, keys, now);
      assert keys[0..] == keys;
      while i < cut
        invariant i <= cut <= |keys| && thrash >= old(thrash)
        invariant var s := Serve(cfg.thrashWindow, hbm.blocks, leftHbmAt, policy.entries, keys[i..], now);
                  && whole == Service(i + s.cut, restoreBytes + s.restoreBytes, thrash - old(thrash) + s.thrash)
                  && (cut < |keys| ==> s == Service(0, 0, 0) && cut == i)
      {
        assert keys[i..][1..] == keys[i + 1..];
        if !Holds(hbm.blocks, keys[i]) {
          var entry := Find(policy.entries, keys[i]);
          if entry == None {
            cut := i;
            continue;
          }
          restoreBytes := restoreBytes + entry.value.nbytes;
          if Thrashes(cfg.thrashWindow, leftHbmAt, keys[i], now) { thrash := thrash + 1; }
        }
        i := i + 1;
      }
    }

    /** `_store_batch_to_host`. */
    method StoreBatchToHost(keys: seq<Key>, sched: Schedule)
      requires Valid() && Distinct(keys) && forall k :: k in keys ==> k in index.blocks
      modifies policy, `leftHostAt, `reacquires
      ensures Valid()
          && State() == old(State()).(control := StoredToHost(cfg, policy.kind, sched, old(State().control), keys, now))
    {
      StoreKeepsIndexed(policy.kind, Probing(), sched, HostState(), keys);
      var candidates := Absentees(keys);
      var incoming := policy.AdmitChain(candidates, Probing());
      if incoming != [] { StoreFresh(incoming, sched); }
    }

    /** Make room for the fresh blocks, and store the prefix that fits. */
    method StoreFresh(incoming: seq<Item>, sched: Schedule)
      requires policy.Valid() && policy.capacity == cfg.ram.capacity && Indexed(index.blocks.Keys, policy.entries)
      modifies policy, `leftHostAt, `reacquires
      ensures HostState() == Settle(policy.kind, Probing(), sched, old(HostState()), incoming,
                                    MakeRoom(policy.kind, Probing(), old(policy.entries), incoming))
    {
      ghost var host, p := HostState(), Probing();
      var ok, room, ev := RoomFor(incoming);
      if ok {
        Admit(incoming, room, sched);
        Settled(policy.kind, p, sched, host, incoming, ev, room);
      }
    }

    /** One eviction round for the fresh blocks; not `ok` when nothing is evictable at all. */
    method RoomFor(incoming: seq<Item>) returns (ok: bool, room: nat, ghost ev: Eviction)
      requires policy.Valid() && policy.capacity == cfg.ram.capacity && Indexed(index.blocks.Keys, policy.entries)
      modifies policy, `leftHostAt
      ensures policy.Valid() && ev == MakeRoom(policy.kind, Probing(), old(policy.entries), incoming)
      ensures policy.entries == ev.rest && ok == ev.victims.Some?
      ensures !ok ==> leftHostAt == old(leftHostAt)
      ensures ok ==> leftHostAt == LeftNow(old(leftHostAt), ev.victims.value, now)
      ensures ok ==> room == Spare(cfg.ram.capacity, old(policy.entries)) + PathBytes(index.State(), ev.victims.value)
    {
      ghost var es := policy.entries;
      var occupancy := policy.Occupancy();
      room := MaxInt(0, cfg.ram.capacity - occupancy);
      var needed := ItemBytes(incoming) - room;
      if needed <= 0 {
        NoRound(policy.kind, Probing(), es, incoming, leftHostAt);
        return true, room, Eviction(Some([]), es);
      }
      var freed := EvictFor(needed, KeySet(ItemKeys(incoming)));
      ev := Eviction(freed, policy.entries);
      ok := freed.Some?;
      if ok { room := NoteLeft(freed.value, room); }
    }

    /** The policy's eviction round; its victims are blocks of the index. */
    method EvictFor(needed: int, protected: set<Key>) returns (freed: Option<seq<Key>>)
      requires policy.Valid() && Indexed(index.blocks.Keys, policy.entries)
      modifies policy
      ensures policy.Valid()
      ensures Eviction(freed, policy.entries) == Evicted(policy.kind, Probing(), old(policy.entries), needed, protected)
      ensures freed.Some? ==> forall k :: k in freed.value ==> k in index.blocks
    {
      VictimsIndexed(policy.kind, Probing(), policy.entries, needed, protected);
      freed := policy.Evict(needed, protected, Probing());
    }

    /** The blocks of the path that are not resident, with their bytes. */
    method Absentees(keys: seq<Key>) returns (items: seq<Item>)
      requires forall k :: k in keys ==> k in index.blocks
      ensures items == Candidates(index.State(), policy.entries, keys)
    {
      items := [];
      assert keys[0..] == keys;
      for i := 0 to |keys|
        invariant items + Candidates(index.State(), policy.entries, keys[i..])
            == Candidates(index.State(), policy.entries, keys)
      {
        CandidatesNext(index.State(), policy.entries, keys[i..], items);
        assert keys[i..][1..] == keys[i + 1..];
        if Find(policy.entries, keys[i]).None? { items := items + [Item(keys[i], index.blocks[keys[i]].nbytes)]; }
      }
      assert items + [] == items;
    }

    /** Note that the victims left the host tier, and count their bytes in the index as room. */
    method NoteLeft(victims: seq<Key>, room: nat) returns (total: nat)
      requires forall v :: v in victims ==> v in index.blocks
      modifies `leftHostAt
      ensures leftHostAt == LeftNow(old(leftHostAt), victims, now)
      ensures total == room + PathBytes(index.State(), victims)
    {
      total := room;
      assert victims[0..] == victims;
      for i := 0 to |victims|
        invariant leftHostAt == LeftNow(old(leftHostAt), victims[..i], now)
        invariant total + PathBytes(index.State(), victims[i..]) == room + PathBytes(index.State(), victims)
      {
        assert victims[i..][1..] == victims[i + 1..];
        LeftNext(old(leftHostAt), victims, i, now);
        leftHostAt := leftHostAt[victims[i] := now];
        total := total + index.blocks[victims[i]].nbytes;
      }
      assert victims[..|victims|] == victims;
    }

    /** Store the prefix that fits, in path order. */
    method Admit(items: seq<Item>, space: nat, sched: Schedule)
      requires policy.Valid()
      modifies policy, `reacquires
      ensures policy.Valid()
      ensures policy.entries == InsertAll(policy.kind, Probing(), sched, old(policy.entries), Fit(items, space))
      ensures reacquires == old(reacquires) + CountLeft(leftHostAt, Fit(items, space))
    {
      var i, room := 0, space;
      assert items[0..] == items;
      while i < |items| && items[i].nbytes <= room
        invariant i <= |items| && room >= 0 && policy.Valid()
        invariant InsertAll(policy.kind, Probing(), sched, policy.entries, Fit(items[i..], room))
               == InsertAll(policy.kind, Probing(), sched, old(policy.entries), Fit(items, space))
        invariant reacquires + CountLeft(leftHostAt, Fit(items[i..], room))
            == old(reacquires) + CountLeft(leftHostAt, Fit(items, space))
      {
        AdmitNext(policy.kind, Probing(), sched, policy.entries, items, i, room, leftHostAt);
        room := room - items[i].nbytes;
        AdmitOne(items[i], sched);
        i := i + 1;
      }
      assert Fit(items[i..], room) == [];
    }

    method AdmitOne(item: Item, sched: Schedule)
      requires policy.Valid()
      modifies policy, `reacquires
      ensures policy.Valid() && policy.entries == InsertOne(policy.kind, Probing(), sched, old(policy.entries), item)
      ensures reacquires == old(reacquires) + if item.key in leftHostAt then 1 else 0
    {
      if item.key in leftHostAt { reacquires := reacquires + 1; }
      policy.Insert(item, Probing());
      if policy.kind.Oracle? {
        policy.entries := SetNextUse(policy.entries, item.key, NextUse(sched, item.key, now));
      }
    }

    /** `_one`. */
    method One(turn: Turn, sched: Schedule)
      requires Valid()
      modifies this, index, policy, hbm
      ensures Valid() && State() == OneTurn(cfg, policy.kind, sched, old(State()), turn)
    {
      TurnInSteps(cfg, policy.kind, sched, State(), turn);
      TakeSteps(turn, sched);
    }

    method TakeSteps(turn: Turn, sched: Schedule)
      requires Valid()
      modifies this, index, policy, hbm
      ensures Valid() && State() == InSteps(cfg, policy.kind, sched, old(State()), turn, PathOf(cfg.Shape(), turn))
    {
      var keys, m := Begin(turn);
      Place(keys, sched);
      Finish(m);
    }

    /** Record the turn's metric and the peak of the host tier. */
    method Finish(m: Metric)
      modifies `metrics, `peakRam
      ensures State() == old(State()).(metrics := old(metrics) + [m],
                                       peakRam := MaxInt(old(peakRam), Bytes(old(policy.entries))))
    {
      metrics := metrics + [m];
      var occupancy := policy.Occupancy();
      peakRam := MaxInt(peakRam, occupancy);
    }

    /** Fill the pool, store to the host tier, and record the use. */
    method Place(keys: seq<Key>, sched: Schedule)
      requires Valid() && Distinct(keys) && forall k :: k in keys ==> k in index.blocks
      modifies policy, hbm, `leftHbmAt, `demotions, `leftHostAt, `reacquires
      ensures Valid() && State() == Retained(cfg, policy.kind, sched, old(State()), keys, now)
    {
      FillHbm(keys);
      StoreBatchToHost(keys, sched);
      TouchStored(keys, sched);
    }

    /** Register the path and serve the turn. */
    method Begin(turn: Turn) returns (keys: seq<Key>, m: Metric)
      requires Valid()
      modifies index, `toolEta, `now, `thrash, `pcieBusy, `prefillBusy
      ensures Valid() && keys == PathOf(cfg.Shape(), turn) && now == turn.t && forall k :: k in keys ==>
          k in index.blocks
      ensures var s := old(State()).(control := Observed(cfg, old(State().control), turn));
              m == Measure(cfg, s, turn, keys) && State() == Served(cfg, s, turn, keys)
    {
      keys := Observe(turn);
      m := ServeTurn(turn, keys);
    }

    /** Register the turn's path and what it announces. */
    method Observe(turn: Turn) returns (keys: seq<Key>)
      requires Valid()
      modifies index, `toolEta, `now
      ensures Valid() && State() == old(State()).(control := Observed(cfg, old(State().control), turn)) && now == turn.t
      ensures keys == PathOf(cfg.Shape(), turn) && forall k :: k in keys ==> k in index.blocks
    {
      keys := index.TouchPath(turn);
      if turn.toolEta.Some? { toolEta := toolEta[turn.session := turn.toolEta.value]; }
      now := turn.t;
    }

    /** Serve what is resident, and charge the rest to the two servers. */
    method ServeTurn(turn: Turn, keys: seq<Key>) returns (m: Metric)
      requires now == turn.t
      modifies `thrash, `pcieBusy, `prefillBusy
      ensures m == Measure(cfg, old(State()), turn, keys) && State() == Served(cfg, old(State()), turn, keys)
    {
      var cut, restoreBytes := ServeFrom(keys);
      var recompute := TokensOf(index.State(), keys[cut..]);
      var ttft := Charge(restoreBytes, recompute);
      m := Metric(now, turn.role, turn.prompt, ttft, ttft + turn.completion as real / cfg.cost.decodeRate,
                  recompute, restoreBytes, restoreBytes > 0);
    }

    /** The recency, frequency and lifetime of the path's entries. */
    method TouchStored(keys: seq<Key>, sched: Schedule)
      requires Valid()
      modifies policy
      ensures Valid()
          && State() == old(State()).(control := Refreshed(cfg, policy.kind, sched, old(State().control), keys, now))
    {
      ghost var es := policy.entries;
      TouchItems(policy.kind, Probing(), es, keys);
      RefreshItems(sched, now, TouchKeys(policy.kind, Probing(), es, keys), keys);
      policy.Touch(keys, Probing());
      RefreshOracle(keys, sched);
      SameKeysIndexed(index.blocks.Keys, es, policy.entries);
    }

    /** Charge the transfer and the prefill to the two servers. */
    method Charge(restoreBytes: nat, recompute: nat) returns (ttft: real)
      modifies `pcieBusy, `prefillBusy
      ensures var q := Queue(old(pcieBusy), old(prefillBusy));
              var transfer, prefill := cfg.ram.RestoreSeconds(restoreBytes),
                  cfg.cost.RecomputeSeconds(recompute as real);
              Queue(pcieBusy, prefillBusy) == q.Charge(now, transfer, prefill)
                && ttft == q.Ttft(cfg.cost, now, transfer, prefill)
    {
      var transfer, prefill := cfg.ram.RestoreSeconds(restoreBytes), cfg.cost.RecomputeSeconds(recompute as real);
      var pcieStart := MaxReal(now, pcieBusy);
      var pcieEnd := pcieStart + transfer;
      pcieBusy := pcieEnd;
      var prefillStart := MaxReal(MaxReal(now, prefillBusy), if transfer != 0.0 then pcieEnd else 0.0);
      var prefillEnd := prefillStart + prefill;
      prefillBusy := prefillEnd;
      ttft := cfg.cost.overhead + MaxReal(0.0, prefillEnd - now);
    }

    /** The pool fill, and the demotions it causes. */
    method FillHbm(keys: seq<Key>)
      requires hbm.Valid() && hbm.capacity == cfg.HbmBytes() && forall k :: k in keys ==> k in index.blocks
      modifies hbm, `leftHbmAt, `demotions
      ensures hbm.Valid() && State() == Filled(cfg, old(State()), keys, now)
    {
      var evicted := hbm.Store(PathItems(index.State(), keys), KeySet(keys));
      ghost var pool := hbm.blocks;
      for i := 0 to |evicted|
        invariant hbm.Valid() && hbm.blocks == pool
        invariant leftHbmAt == LeftNow(old(leftHbmAt), evicted[..i], now) && demotions == old(demotions) + i
      {
        LeftNext(old(leftHbmAt), evicted, i, now);
        demotions := demotions + 1;
        leftHbmAt := leftHbmAt[evicted[i] := now];
      }
      assert evicted[..|evicted|] == evicted;
    }

    // ---- a whole trace ------------------------------------------------------

    /** `run`: the turns in order of time, then every session closes, then the report. */
    method Run(turns: seq<Turn>) returns (report: Report, ghost sched: Schedule)
      requires Valid()
      modifies this, index, policy, hbm
      ensures if policy.kind.Oracle? then Foresees(cfg.Shape(), StableSort(turns, TimeOrder()), sched)
              else sched == map[]
      ensures var s := RunFrom(cfg, policy.kind, sched, old(State()), StableSort(turns, TimeOrder()));
              State() == s.(control := s.control.(ix := AllClosed(s.control.ix))) && report == ReportOf(cfg, s)
      ensures Valid()
    {
      var plan: Schedule := map[];
      if policy.kind.Oracle? { plan := FutureAccesses(cfg.Shape(), turns); }
      sched := plan;
      Steps(StableSort(turns, TimeOrder()), plan);
      CloseSessions();
      report := Finalize();
    }

    method Steps(turns: seq<Turn>, sched: Schedule)
      requires Valid()
      modifies this, index, policy, hbm
      ensures Valid() && State() == RunFrom(cfg, policy.kind, sched, old(State()), turns)
    {
      for n := 0 to |turns|
        invariant Valid() && State() == RunFrom(cfg, policy.kind, sched, old(State()), turns[..n])
      {
        RunFromNext(cfg, policy.kind, sched, old(State()), turns, n);
        One(turns[n], sched);
      }
      assert turns[..|turns|] == turns;
    }

    /** Sessions that ended release their leases. */
    method CloseSessions()
      requires Valid()
      modifies index
      ensures Valid() && State() == old(State()).(control := old(State().control).(ix := AllClosed(old(index.State()))))
    {
      ghost var ix := index.State();
      var open := index.sessionPath.Keys;
      while open != {}
        invariant Valid() && open == index.sessionPath.Keys && ClosedTo(ix, index.State())
        decreases |open|
      {
        var s :| s in open;
        ReleaseCloses(ix, index.State(), s);
        index.ReleaseSession(s);
        open := open - {s};
      }
      ClosedToAll(ix, index.State());
    }

    /** `_finalize`, without the per-role statistics. */
    method Finalize() returns (report: Report)
      requires hbm.Valid()
      ensures report == ReportOf(cfg, State())
    {
      var recompute, restore := TotalRecompute(metrics), TotalRestore(metrics);
      var window := if metrics == [] then 0.0 else metrics[|metrics| - 1].t;
      report := Report(|metrics|, window, TotalPrompt(metrics), recompute, restore,
                       cfg.cost.RecomputeSeconds(recompute as real), cfg.ram.RestoreSeconds(restore),
                       thrash, reacquires, demotions, |index.invalidations|, peakRam, hbm.used);
    }
  }

  // ---- lemmas ---------------------------------------------------------------

  function Times(sched: Schedule, k: Key): seq<real> { if k in sched then sched[k] else [] }

  /** Access times collected in the order of the trace are in order already. */
  lemma {:induction false} TimesAscend(geo: Geometry, turns: seq<Turn>, sched: Schedule)
    requires Foresees(geo, StableSort(turns, TimeOrder()), sched)
    ensures forall k :: k in sched ==> StableSort(sched[k], ClockOrder()) == sched[k]
  {
    var ordered := StableSort(turns, TimeOrder());
    SortIsSorted(turns, TimeOrder());
    forall k | k in sched
      ensures StableSort(sched[k], ClockOrder()) == sched[k]
    {
      AccessesAscend(geo, ordered, k);
      assert sched[k] == Accesses(geo, ordered, k);
      SortedStays(sched[k]);
    }
  }

  lemma {:induction false} AccessesAscend(geo: Geometry, turns: seq<Turn>, k: Key)
    requires Sorted(turns, TimeOrder())
    ensures Sorted(Accesses(geo, turns, k), ClockOrder())
    ensures forall x :: x in Accesses(geo, turns, k) ==> turns != [] && x <= turns[|turns| - 1].t
  {
    if turns != [] {
      var n := |turns| - 1;
      AccessesAscend(geo, turns[..n], k);
      var a := Accesses(geo, turns[..n], k);
      forall x | x in a
        ensures x <= turns[n].t
      {
        assert TimeOrder()(turns[n - 1], turns[n]);
      }
      AscendMore(a, turns[n].t);
    }
  }

  lemma AscendMore(a: seq<real>, t: real)
    requires Sorted(a, ClockOrder()) && forall x :: x in a ==> x <= t
    ensures Sorted(a + [t], ClockOrder())
  {
    assert forall i :: 0 <= i < |a| ==> a[i] in a;
  }

  lemma {:induction false} SortedStays(ts: seq<real>)
    requires Sorted(ts, ClockOrder())
    ensures StableSort(ts, ClockOrder()) == ts
  {
    if ts != [] {
      SortedStays(ts[1..]);
      if |ts| > 1 { assert ClockOrder()(ts[0], ts[1]); }
    }
  }

  /** What an eviction round and the admission that follows it leave in the host tier. */
  lemma {:induction false} Settled(kind: Kind, p: Probe, sched: Schedule, host: Host, incoming: seq<Item>,
          ev: Eviction, room: nat)
    requires ev.victims.Some? && room == Spare(p.tier.capacity, host.entries) + PathBytes(p.view.ix, ev.victims.value)
    ensures var taken, left := Fit(incoming, room), LeftNow(host.leftAt, ev.victims.value, p.view.now);
            Settle(kind, p, sched, host, incoming, ev)
              == Host(InsertAll(kind, p, sched, ev.rest, taken), left, host.reacquires + CountLeft(left, taken))
  {
  }

  /** When the fresh blocks fit as it is, nothing leaves. */
  lemma {:induction false} NoRound(kind: Kind, p: Probe, es: seq<Entry>, incoming: seq<Item>, left: map<Key, real>)
    requires ItemBytes(incoming) <= Spare(p.tier.capacity, es)
    ensures MakeRoom(kind, p, es, incoming) == Eviction(Some([]), es)
    ensures LeftNow(left, [], p.view.now) == left && PathBytes(p.view.ix, []) == 0
  {
  }

  lemma LeftNext(left: map<Key, real>, ks: seq<Key>, i: nat, now: real)
    requires i < |ks|
    ensures LeftNow(left, ks[..i], now)[ks[i] := now] == LeftNow(left, ks[..i + 1], now)
  {
    assert ks[..i + 1] == ks[..i] + [ks[i]];
  }

  lemma {:induction false} CandidatesNext(ix: IndexState, es: seq<Entry>, keys: seq<Key>, items: seq<Item>)
    requires keys != []
    ensures items + Candidates(ix, es, keys)
         == (if HasKey(es, keys[0]) then items else items + [Item(keys[0], ix.Bytes(keys[0]))]) + Candidates(ix, es,
             keys[1..])
  {
  }

  lemma {:induction false} AdmitNext(kind: Kind, p: Probe, sched: Schedule, es: seq<Entry>, items: seq<Item>, i: nat,
          room: int, left: map<Key, real>)
    requires i < |items| && items[i].nbytes <= room
    ensures var rest := Fit(items[i + 1..], room - items[i].nbytes);
            && InsertAll(kind, p, sched, es, Fit(items[i..], room))
                 == InsertAll(kind, p, sched, InsertOne(kind, p, sched, es, items[i]), rest)
            && CountLeft(left, Fit(items[i..], room)) == (if items[i].key in left then 1 else 0) + CountLeft(left, rest)
  {
    var rest := Fit(items[i + 1..], room - items[i].nbytes);
    assert items[i..][1..] == items[i + 1..];
    assert Fit(items[i..], room) == [items[i]] + rest;
    assert ([items[i]] + rest)[1..] == rest;
  }

  /** A dictionary of blocks of the index. */
  ghost predicate Indexed(blocks: set<Key>, es: seq<Entry>) {
    UniqueKeys(es) && forall i :: 0 <= i < |es| ==> es[i].key in blocks
  }

  /** Every victim of a round is a block of the index. */
  lemma VictimsIndexed(kind: Kind, p: Probe, es: seq<Entry>, needed: int, protected: set<Key>)
    requires Indexed(p.view.ix.blocks.Keys, es)
    ensures var out := Evicted(kind, p, es, needed, protected).victims;
            out.Some? ==> forall k :: k in out.value ==> k in p.view.ix.blocks
  {
    VictimsAreResidents(kind, p, es, needed, protected);
    var vs := Victims(kind, p, es, needed, protected);
    forall i | 0 <= i < |vs|
      ensures vs[i].key in p.view.ix.blocks
    {
      assert vs[i] in es;
      var j :| 0 <= j < |es| && es[j] == vs[i];
    }
  }

  lemma SameKeysIndexed(blocks: set<Key>, es: seq<Entry>, r: seq<Entry>)
    requires Indexed(blocks, es) && ItemsOf(r) == ItemsOf(es)
    ensures Indexed(blocks, r)
  {
    assert |r| == |es|;
    forall i | 0 <= i < |r|
      ensures r[i].key == es[i].key
    {
      assert ItemsOf(r)[i] == ItemsOf(es)[i];
    }
  }

  lemma AppendIndexed(blocks: set<Key>, es: seq<Entry>, r: seq<Entry>, items: seq<Item>)
    requires Indexed(blocks, es) && Apart(es, items) && ItemsOf(r) == ItemsOf(es) + items
    requires forall i :: 0 <= i < |items| ==> items[i].key in blocks
    ensures Indexed(blocks, r)
  {
    assert |r| == |es| + |items|;
    forall i | 0 <= i < |r|
      ensures r[i].key == if i < |es| then es[i].key else items[i - |es|].key
    {
      assert ItemsOf(r)[i] == (ItemsOf(es) + items)[i];
    }
    forall i, j | 0 <= i < j < |r|
      ensures r[i].key != r[j].key
    {
      if i < |es| <= j { assert !HasKey(es, items[j - |es|].key); }
    }
  }

  lemma StoreKeepsIndexed(kind: Kind, p: Probe, sched: Schedule, host: Host, keys: seq<Key>)
    requires Indexed(p.view.ix.blocks.Keys, host.entries) && Distinct(keys)
    requires forall k :: k in keys ==> k in p.view.ix.blocks
    ensures Indexed(p.view.ix.blocks.Keys, StoreToHost(kind, p, sched, host, keys).entries)
  {
    Round(kind, p, host.entries, keys);
    var incoming := Fresh(kind, p, host.entries, keys);
    if incoming != [] {
      SettleKeepsIndexed(kind, p, sched, host, incoming, MakeRoom(kind, p, host.entries, incoming));
    }
  }

  lemma SettleKeepsIndexed(kind: Kind, p: Probe, sched: Schedule, host: Host, incoming: seq<Item>, ev: Eviction)
    requires Indexed(p.view.ix.blocks.Keys, host.entries) && Apart(host.entries, incoming) && Leaves(host.entries, ev)
    requires forall x :: x in incoming ==> x.key in p.view.ix.blocks
    ensures Indexed(p.view.ix.blocks.Keys, Settle(kind, p, sched, host, incoming, ev).entries)
  {
    forall i | 0 <= i < |ev.rest|
      ensures ev.rest[i].key in p.view.ix.blocks
    {
      assert ev.rest[i] in host.entries;
      var j :| 0 <= j < |host.entries| && host.entries[j] == ev.rest[i];
    }
    if ev.victims.Some? {
      SettleItems(kind, p, sched, host, incoming, ev);
      var taken := Accepted(p, host.entries, incoming, ev.victims.value);
      forall i | 0 <= i < |taken|
        ensures taken[i].key in p.view.ix.blocks
      {
        assert taken[i] == incoming[i] && incoming[i] in incoming;
      }
      AppendIndexed(p.view.ix.blocks.Keys, ev.rest, Settle(kind, p, sched, host, incoming, ev).entries, taken);
    }
  }

  /** `b` is `a` after some of its sessions have closed. */
  ghost predicate ClosedTo(a: IndexState, b: IndexState) {
    && b.path.Keys <= a.path.Keys && (forall s :: s in b.path ==> b.path[s] == a.path[s])
    && b.role == a.role && b.invalidations == a.invalidations && b.blocks.Keys == a.blocks.Keys
    && b.lastSeen == a.lastSeen - (a.path.Keys - b.path.Keys)
    && forall k :: k in a.blocks ==> b.blocks[k] == a.blocks[k].(refs := OpenRefs(a, b, k))
  }

  function OpenRefs(a: IndexState, b: IndexState, k: Key): set<Session>
    requires k in a.blocks
  {
    set s | s in a.blocks[k].refs && (s in b.path || k !in a.Path(s))
  }

  lemma ReleaseCloses(a: IndexState, b: IndexState, s: Session)
    requires ClosedTo(a, b) && s in b.path
    ensures ClosedTo(a, Release(b, s))
  {
    var r := Release(b, s);
    assert b.Path(s) == a.Path(s);
    assert a.path.Keys - r.path.Keys == (a.path.Keys - b.path.Keys) + {s};
    forall k | k in a.blocks
      ensures r.blocks[k] == a.blocks[k].(refs := OpenRefs(a, r, k))
    {
      assert b.blocks[k] == a.blocks[k].(refs := OpenRefs(a, b, k));
      if k in a.Path(s) {
        assert OpenRefs(a, r, k) == OpenRefs(a, b, k) - {s};
      } else {
        assert OpenRefs(a, r, k) == OpenRefs(a, b, k);
      }
    }
  }

  lemma ClosedToAll(a: IndexState, b: IndexState)
    requires ClosedTo(a, b) && b.path == map[]
    ensures b == AllClosed(a)
  {
    forall k | k in a.blocks
      ensures OpenRefs(a, b, k) == set s | s in a.blocks[k].refs && k !in a.Path(s)
    {
    }
    assert a.path.Keys - b.path.Keys == a.path.Keys;
  }

  /** After a run no block is leased and no session has a path or a last-seen time. */
  lemma {:induction false} RunLeavesNoLease(cfg: SimConfig, kind: Kind, sched: Schedule, turns: seq<Turn>)
    ensures var r := AllClosed(Run(cfg, kind, sched, turns).control.ix);
            r.path == map[] && r.lastSeen == map[] && forall k :: k in r.blocks ==> r.blocks[k].refs == {}
  {
    ControlIsIndependent(cfg, kind, sched, turns);
    RunHoused(cfg, kind, sched, turns);
  }
}
