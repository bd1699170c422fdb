/** One turn, and a whole trace, as functions on the state of the simulator (src/acr/replay.py).

    `StepControl` is the part of a turn that decides residency in the host tier.  It takes neither the
    HBM pool nor the two servers: they read it, it does not read them. */
module Replay {
  import opened Base
  import opened Trace
  import opened Config
  import opened Prefix
  import opened Policies
  import opened Hbm

  // ---- the oracle's schedule ------------------------------------------------

  /** Access times of every block of a trace, in order. */
  type Schedule = map<Key, seq<real>>

  function FirstAfter(ts: seq<real>, now: real): Time {
    if ts == [] then Never else if ts[0] > now then At(ts[0]) else FirstAfter(ts[1..], now)
  }

  function NextUse(sched: Schedule, k: Key, now: real): Time {
    if k in sched then FirstAfter(sched[k], now) else Never
  }

  /** The times of the turns whose path holds the block. */
  function Accesses(geo: Geometry, turns: seq<Turn>, k: Key): seq<real> {
    if turns == [] then []
    else
      var n := |turns| - 1;
      Accesses(geo, turns[..n], k) + (if k in PathOf(geo, turns[n]) then [turns[n].t] else [])
  }

  /** `sched` lists every block's access times, and only those. */
  ghost predicate Foresees(geo: Geometry, turns: seq<Turn>, sched: Schedule) {
    forall k :: (if k in sched then sched[k] else []) == Accesses(geo, turns, k)
  }

  // ---- the host tier --------------------------------------------------------

  /** The host tier, when each block last left it, and how many came back. */
  datatype Host = Host(entries: seq<Entry>, leftAt: map<Key, real>, reacquires: nat)

  /** The blocks of the path that are not resident, in path order. */
  function Candidates(ix: IndexState, es: seq<Entry>, keys: seq<Key>): seq<Item> {
    if keys == [] then []
    else if HasKey(es, keys[0]) then Candidates(ix, es, keys[1..])
    else [Item(keys[0], ix.Bytes(keys[0]))] + Candidates(ix, es, keys[1..])
  }

  /** The leading items that fit into `room`. */
  function Fit(items: seq<Item>, room: int): seq<Item> {
    if items == [] || items[0].nbytes > room then []
    else [items[0]] + Fit(items[1..], room - items[0].nbytes)
  }

  function Spare(capacity: nat, es: seq<Entry>): nat { MaxInt(0, capacity - Bytes(es)) }

  function SetNextUse(es: seq<Entry>, k: Key, t: Time): (r: seq<Entry>)
    ensures |r| == |es| && forall i :: 0 <= i < |es| ==> r[i] == if es[i].key == k then es[i].(nextUse := t) else es[i]
  {
    seq(|es|, i requires 0 <= i < |es| => if es[i].key == k then es[i].(nextUse := t) else es[i])
  }

  /** Insert one item; the oracle also notes when it is needed next. */
  function InsertOne(kind: Kind, p: Probe, sched: Schedule, es: seq<Entry>, item: Item): seq<Entry> {
    var r := InsertItem(kind, p, es, item);
    if kind.Oracle? then SetNextUse(r, item.key, NextUse(sched, item.key, p.view.now)) else r
  }

  function InsertAll(kind: Kind, p: Probe, sched: Schedule, es: seq<Entry>, items: seq<Item>): seq<Entry>
    decreases |items|
  {
    if items == [] then es else InsertAll(kind, p, sched, InsertOne(kind, p, sched, es, items[0]), items[1..])
  }

  function LeftNow(left: map<Key, real>, ks: seq<Key>, now: real): map<Key, real> {
    left + map k | k in ks :: now
  }

  /** How many items had left the host tier before. */
  function CountLeft(left: map<Key, real>, items: seq<Item>): nat {
    if items == [] then 0 else (if items[0].key in left then 1 else 0) + CountLeft(left, items[1..])
  }

  /** The eviction round of a turn; none when the fresh blocks fit as it is. */
  function MakeRoom(kind: Kind, p: Probe, es: seq<Entry>, fresh': seq<Item>): Eviction {
    var needed := ItemBytes(fresh') - Spare(p.tier.capacity, es);
    if needed > 0 then Evicted(kind, p, es, needed, KeySet(ItemKeys(fresh'))) else Eviction(Some([]), es)
  }

  function Fresh(kind: Kind, p: Probe, es: seq<Entry>, keys: seq<Key>): seq<Item> {
    Admitted(kind, p, es, p.tier.capacity, Candidates(p.view.ix, es, keys))
  }

  /** The blocks that fit, in path order.  The room is credited with the victims' bytes in the index. */
  function Accepted(p: Probe, es: seq<Entry>, incoming: seq<Item>, victims: seq<Key>): seq<Item> {
    Fit(incoming, Spare(p.tier.capacity, es) + PathBytes(p.view.ix, victims))
  }

  /** The host tier after an eviction round. */
  function Settle(kind: Kind, p: Probe, sched: Schedule, host: Host, incoming: seq<Item>, ev: Eviction): Host {
    match ev.victims
    case None => host.(entries := ev.rest)
    case Some(victims) =>
      var left := LeftNow(host.leftAt, victims, p.view.now);
      var taken := Accepted(p, host.entries, incoming, victims);
      Host(InsertAll(kind, p, sched, ev.rest, taken), left, host.reacquires + CountLeft(left, taken))
  }

  /** `_store_batch_to_host`. */
  function StoreToHost(kind: Kind, p: Probe, sched: Schedule, host: Host, keys: seq<Key>): Host {
    var incoming := Fresh(kind, p, host.entries, keys);
    if incoming == [] then host
    else Settle(kind, p, sched, host, incoming, MakeRoom(kind, p, host.entries, incoming))
  }

  /** `_refresh_oracle`: the path's entries note when they are needed next. */
  function RefreshAll(sched: Schedule, now: real, es: seq<Entry>, keys: seq<Key>): (r: seq<Entry>)
    ensures |r| == |es|
    ensures forall i :: 0 <= i < |es| ==>
              r[i] == if es[i].key in keys then es[i].(nextUse := NextUse(sched, es[i].key, now)) else es[i]
  {
    seq(|es|, i requires 0 <= i < |es| =>
      if es[i].key in keys then es[i].(nextUse := NextUse(sched, es[i].key, now)) else es[i])
  }

  /** Index, announced tool times and host tier. */
  datatype Control = Control(ix: IndexState, eta: map<Session, real>, host: Host)

  const START := Control(EMPTY, map[], Host([], map[], 0))

  function Announce(eta: map<Session, real>, turn: Turn): map<Session, real> {
    if turn.toolEta.Some? then eta[turn.session := turn.toolEta.value] else eta
  }

  /** What the policy sees during a turn. */
  function ProbeOf(cfg: SimConfig, c: Control, turn: Turn): Probe {
    Probe(cfg.cost, cfg.ram, View(cfg.exp, Touch(cfg.Shape(), c.ix, turn), turn.t, Announce(c.eta, turn)))
  }

  function StepControl(cfg: SimConfig, kind: Kind, sched: Schedule, c: Control, turn: Turn): Control {
    var p, keys := ProbeOf(cfg, c, turn), PathOf(cfg.Shape(), turn);
    var host := StoreToHost(kind, p, sched, c.host, keys);
    var touched := TouchKeys(kind, p, host.entries, keys);
    Control(p.view.ix, p.view.eta, host.(entries := RefreshAll(sched, turn.t, touched, keys)))
  }

  /** The control state after the turns of a trace. */
  function RunControl(cfg: SimConfig, kind: Kind, sched: Schedule, turns: seq<Turn>): Control {
    if turns == [] then START
    else StepControl(cfg, kind, sched, RunControl(cfg, kind, sched, turns[..|turns| - 1]), turns[|turns| - 1])
  }

  // ---- serving a turn -------------------------------------------------------

  /** Length of the serviceable prefix, bytes restored for it, and restores that count as thrash. */
  datatype Service = Service(cut: nat, restoreBytes: nat, thrash: nat)

  const LONG_AGO := -1000000000000000000.0

  /** A block that left HBM within the thrash window. */
  predicate Thrashes(window: real, leftHbm: map<Key, real>, k: Key, now: real) {
    0.0 <= now - (if k in leftHbm then leftHbm[k] else LONG_AGO) <= window
  }

  /** The longest prefix of the path of which every block is in HBM or in the host tier. */
  function Serve(window: real, hbm: seq<Item>, leftHbm: map<Key, real>, es: seq<Entry>, keys: seq<Key>,
          now: real): (s: Service)
    ensures s.cut <= |keys|
  {
    if keys == [] then Service(0, 0, 0)
    else if Holds(hbm, keys[0]) then
      var s := Serve(window, hbm, leftHbm, es, keys[1..], now);
      s.(cut := s.cut + 1)
    else
      match Find(es, keys[0])
      case None => Service(0, 0, 0)
      case Some(e) =>
        var s := Serve(window, hbm, leftHbm, es, keys[1..], now);
        Service(s.cut + 1, s.restoreBytes + e.nbytes,
                s.thrash + if Thrashes(window, leftHbm, keys[0], now) then 1 else 0)
  }

  /** The two servers: when the transfer path and the prefill engine are next free. */
  datatype Queue = Queue(pcieBusy: real, prefillBusy: real) {
    function PcieEnd(now: real, transfer: real): real { MaxReal(now, pcieBusy) + transfer }

    /** When a turn's prefill may start, apart from the prefill queue. */
    function Ready(now: real, transfer: real): real {
      MaxReal(now, if transfer != 0.0 then PcieEnd(now, transfer) else 0.0)
    }

    function PrefillStart(now: real, transfer: real): real { MaxReal(Ready(now, transfer), prefillBusy) }

    function Charge(now: real, transfer: real, prefill: real): Queue {
      Queue(PcieEnd(now, transfer), PrefillStart(now, transfer) + prefill)
    }

    function Ttft(cost: CostModel, now: real, transfer: real, prefill: real): real {
      cost.overhead + MaxReal(0.0, PrefillStart(now, transfer) + prefill - now)
    }
  }

  const IDLE := Queue(0.0, 0.0)

  datatype Metric = Metric(t: real, role: Role, prompt: nat, ttft: real, e2e: real, recompute: nat,
                           restoreBytes: nat, fromRam: bool)

  datatype Sim = Sim(control: Control, hbm: seq<Item>, leftHbm: map<Key, real>, demotions: nat, thrash: nat,
                     queue: Queue, metrics: seq<Metric>, peakRam: nat)

  const FRESH := Sim(START, [], map[], 0, 0, IDLE, [], 0)

  /** The path's blocks with their bytes in the index. */
  function PathItems(ix: IndexState, keys: seq<Key>): (items: seq<Item>)
    ensures |items| == |keys| && forall i :: 0 <= i < |keys| ==> items[i] == Item(keys[i], ix.Bytes(keys[i]))
  {
    seq(|keys|, i requires 0 <= i < |keys| => Item(keys[i], ix.Bytes(keys[i])))
  }

  function ServeTurn(cfg: SimConfig, s: Sim, turn: Turn): (r: Service)
    ensures r.cut <= |PathOf(cfg.Shape(), turn)|
  {
    Serve(cfg.thrashWindow, s.hbm, s.leftHbm, s.control.host.entries, PathOf(cfg.Shape(), turn), turn.t)
  }

  /** Tokens of the part of the path that must be recomputed, as the index counts them. */
  function Recompute(cfg: SimConfig, s: Sim, turn: Turn): nat {
    TokensOf(Touch(cfg.Shape(), s.control.ix, turn), PathOf(cfg.Shape(), turn)[ServeTurn(cfg, s, turn).cut..])
  }

  function MetricOf(cfg: SimConfig, s: Sim, turn: Turn): Metric {
    var service, recompute := ServeTurn(cfg, s, turn), Recompute(cfg, s, turn);
    var transfer, prefill := cfg.ram.RestoreSeconds(service.restoreBytes), cfg.cost.RecomputeSeconds(recompute as real);
    var ttft := s.queue.Ttft(cfg.cost, turn.t, transfer, prefill);
    Metric(turn.t, turn.role, turn.prompt, ttft, ttft + turn.completion as real / cfg.cost.decodeRate,
           recompute, service.restoreBytes, service.restoreBytes > 0)
  }

  /** The pool after a turn: filled with the path, which is protected. */
  function StepHbm(cfg: SimConfig, ix: IndexState, hbm: seq<Item>, keys: seq<Key>): seq<Item> {
    var filled := Fill(hbm, PathItems(ix, keys));
    Shed(filled, KeySet(keys), ItemBytes(filled) - cfg.HbmBytes())
  }

  function StepEvicted(cfg: SimConfig, ix: IndexState, hbm: seq<Item>, keys: seq<Key>): seq<Key> {
    var filled := Fill(hbm, PathItems(ix, keys));
    ShedKeys(filled, KeySet(keys), ItemBytes(filled) - cfg.HbmBytes())
  }

  /** `_one`. */
  function OneTurn(cfg: SimConfig, kind: Kind, sched: Schedule, s: Sim, turn: Turn): Sim {
    var keys, service, m := PathOf(cfg.Shape(), turn), ServeTurn(cfg, s, turn), MetricOf(cfg, s, turn);
    var c := StepControl(cfg, kind, sched, s.control, turn);
    var evicted := StepEvicted(cfg, c.ix, s.hbm, keys);
    Sim(c, StepHbm(cfg, c.ix, s.hbm, keys), LeftNow(s.leftHbm, evicted, turn.t), s.demotions + |evicted|,
        s.thrash + service.thrash,
        s.queue.Charge(turn.t, cfg.ram.RestoreSeconds(service.restoreBytes),
                       cfg.cost.RecomputeSeconds(m.recompute as real)),
        s.metrics + [m], MaxInt(s.peakRam, Bytes(c.host.entries)))
  }

  /** The simulator after the turns of a trace, in the given order. */
  function Run(cfg: SimConfig, kind: Kind, sched: Schedule, turns: seq<Turn>): Sim {
    if turns == [] then FRESH
    else OneTurn(cfg, kind, sched, Run(cfg, kind, sched, turns[..|turns| - 1]), turns[|turns| - 1])
  }

  lemma OneTurnParts(cfg: SimConfig, kind: Kind, sched: Schedule, s: Sim, turn: Turn)
    ensures var r := OneTurn(cfg, kind, sched, s, turn);
            && r.control == StepControl(cfg, kind, sched, s.control, turn)
            && r.metrics == s.metrics + [MetricOf(cfg, s, turn)]
  {
  }

  /** The control state of a run is a run of the control alone: the host tier and the index never read
      the HBM pool or the servers. */
  lemma {:induction false} ControlIsIndependent(cfg: SimConfig, kind: Kind, sched: Schedule, turns: seq<Turn>)
    ensures Run(cfg, kind, sched, turns).control == RunControl(cfg, kind, sched, turns)
  {
    if turns != [] {
      var n := |turns| - 1;
      ControlIsIndependent(cfg, kind, sched, turns[..n]);
      OneTurnParts(cfg, kind, sched, Run(cfg, kind, sched, turns[..n]), turns[n]);
    }
  }

  // ---- the report -----------------------------------------------------------

  datatype Report = Report(turns: nat, window: real, promptTokens: nat, recomputeTokens: nat, restoreBytes: nat,
                           prefillSeconds: real, transferSeconds: real, thrash: nat, reacquires: nat,
                           demotions: nat, invalidations: nat, peakRam: nat, hbmBytes: nat)

  function TotalPrompt(ms: seq<Metric>): nat { if ms == [] then 0 else ms[0].prompt + TotalPrompt(ms[1..]) }

  function TotalRecompute(ms: seq<Metric>): nat { if ms == [] then 0 else ms[0].recompute + TotalRecompute(ms[1..]) }

  function TotalRestore(ms: seq<Metric>): nat { if ms == [] then 0 else ms[0].restoreBytes + TotalRestore(ms[1..]) }

  /** The sums of `_finalize`. */
  function ReportOf(cfg: SimConfig, s: Sim): Report {
    var recompute, restore := TotalRecompute(s.metrics), TotalRestore(s.metrics);
    Report(|s.metrics|, if s.metrics == [] then 0.0 else s.metrics[|s.metrics| - 1].t, TotalPrompt(s.metrics),
           recompute, restore, cfg.cost.RecomputeSeconds(recompute as real), cfg.ram.RestoreSeconds(restore),
           s.thrash, s.control.host.reacquires, s.demotions, |s.control.ix.invalidations|, s.peakRam, ItemBytes(s.hbm))
  }
}
