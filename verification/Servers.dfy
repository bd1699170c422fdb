/** The two FIFO servers of the simulator: service never overlaps, and what a turn waits for.

    The transfer path and the prefill engine are followed over any list of jobs; a run of the
    simulator is such a list, one job a turn. */
module Servers {
  import opened Base
  import opened Trace
  import opened Config
  import opened Policies
  import opened Replay

  /** A turn as the servers see it. */
  datatype Job = Job(now: real, transfer: real, prefill: real)

  ghost predicate Services(jobs: seq<Job>) {
    forall i :: 0 <= i < |jobs| ==> jobs[i].transfer >= 0.0 && jobs[i].prefill >= 0.0
  }

  /** The servers after the first `n` jobs. */
  function After(jobs: seq<Job>, n: nat): Queue
    requires n <= |jobs|
  {
    if n == 0 then IDLE else After(jobs, n - 1).Charge(jobs[n - 1].now, jobs[n - 1].transfer, jobs[n - 1].prefill)
  }

  /** When job `n` starts and ends on the transfer path and on the prefill engine. */
  function PcieStart(jobs: seq<Job>, n: nat): real
    requires n < |jobs|
  {
    MaxReal(jobs[n].now, After(jobs, n).pcieBusy)
  }

  function PcieEnd(jobs: seq<Job>, n: nat): real
    requires n < |jobs|
  {
    PcieStart(jobs, n) + jobs[n].transfer
  }

  function ReadyAt(jobs: seq<Job>, n: nat): real
    requires n < |jobs|
  {
    After(jobs, n).Ready(jobs[n].now, jobs[n].transfer)
  }

  function PrefillStart(jobs: seq<Job>, n: nat): real
    requires n < |jobs|
  {
    After(jobs, n).PrefillStart(jobs[n].now, jobs[n].transfer)
  }

  function PrefillEnd(jobs: seq<Job>, n: nat): real
    requires n < |jobs|
  {
    PrefillStart(jobs, n) + jobs[n].prefill
  }

  function Ttft(cost: CostModel, jobs: seq<Job>, n: nat): real
    requires n < |jobs|
  {
    After(jobs, n).Ttft(cost, jobs[n].now, jobs[n].transfer, jobs[n].prefill)
  }

  // ---- no overlap -----------------------------------------------------------

  lemma {:induction false} BusyAscends(jobs: seq<Job>, i: nat, j: nat)
    requires Services(jobs) && i <= j <= |jobs|
    ensures After(jobs, i).pcieBusy <= After(jobs, j).pcieBusy
    ensures After(jobs, i).prefillBusy <= After(jobs, j).prefillBusy
  {
    if i < j { BusyAscends(jobs, i, j - 1); }
  }

  /** Service intervals on each server are disjoint and in the order of the turns, a turn is served
      no sooner than it arrives, and its prefill no sooner than its transfer is done. */
  lemma ServiceNeverOverlaps(jobs: seq<Job>, i: nat, j: nat)
    requires Services(jobs) && i < j < |jobs|
    ensures jobs[i].now <= PcieStart(jobs, i) <= PcieEnd(jobs, i) <= PcieStart(jobs, j)
    ensures jobs[i].now <= PrefillStart(jobs, i) <= PrefillEnd(jobs, i) <= PrefillStart(jobs, j)
    ensures jobs[i].transfer > 0.0 ==> PcieEnd(jobs, i) <= PrefillStart(jobs, i)
  {
    BusyAscends(jobs, i + 1, j);
    assert After(jobs, i + 1) == After(jobs, i).Charge(jobs[i].now, jobs[i].transfer, jobs[i].prefill);
  }

  // ---- what the prefill engine is busy with ---------------------------------

  /** Prefill seconds of the jobs `from` up to `to`. */
  function Work(jobs: seq<Job>, from: nat, to: nat): real
    requires from <= to <= |jobs|
  {
    if from == to then 0.0 else Work(jobs, from, to - 1) + jobs[to - 1].prefill
  }

  /** A time by which the engine cannot be free: some job's ready time, or zero, plus all work since. */
  ghost predicate Bottleneck(jobs: seq<Job>, n: nat, t: real)
    requires n <= |jobs|
  {
    t == Work(jobs, 0, n) || exists j :: 0 <= j < n && t == ReadyAt(jobs, j) + Work(jobs, j, n)
  }

  /** The engine is free exactly at the greatest bottleneck. */
  lemma {:induction false} BusyIsMaxPlus(jobs: seq<Job>, n: nat)
    requires n <= |jobs|
    ensures Bottleneck(jobs, n, After(jobs, n).prefillBusy)
    ensures forall t :: Bottleneck(jobs, n, t) ==> t <= After(jobs, n).prefillBusy
  {
    if n > 0 {
      var m, q := n - 1, After(jobs, n - 1);
      BusyIsMaxPlus(jobs, m);
      var job, ready := jobs[m], ReadyAt(jobs, m);
      assert After(jobs, n).prefillBusy == MaxReal(ready, q.prefillBusy) + job.prefill;
      assert Work(jobs, m, m) == 0.0;
      assert Bottleneck(jobs, n, ready + job.prefill) by {
        assert Work(jobs, m, n) == job.prefill;
      }
      ExtendBottleneck(jobs, m, q.prefillBusy);
      forall t | Bottleneck(jobs, n, t)
        ensures t <= After(jobs, n).prefillBusy
      {
        ShortenBottleneck(jobs, n, t);
      }
    }
  }

  lemma ExtendBottleneck(jobs: seq<Job>, m: nat, t: real)
    requires m < |jobs| && Bottleneck(jobs, m, t)
    ensures Bottleneck(jobs, m + 1, t + jobs[m].prefill)
  {
    var next := m + 1;
    if t != Work(jobs, 0, m) {
      var j :| 0 <= j < m && t == ReadyAt(jobs, j) + Work(jobs, j, m);
      assert Work(jobs, j, next) == Work(jobs, j, m) + jobs[m].prefill;
      assert t + jobs[m].prefill == ReadyAt(jobs, j) + Work(jobs, j, next);
    }
  }

  lemma ShortenBottleneck(jobs: seq<Job>, n: nat, t: real)
    requires 0 < n <= |jobs| && Bottleneck(jobs, n, t)
    ensures Bottleneck(jobs, n - 1, t - jobs[n - 1].prefill) || t == ReadyAt(jobs, n - 1) + jobs[n - 1].prefill
  {
    var m := n - 1;
    assert Work(jobs, m, m) == 0.0;
    if t != Work(jobs, 0, n) {
      var j :| 0 <= j < n && t == ReadyAt(jobs, j) + Work(jobs, j, n);
      assert Work(jobs, j, n) == Work(jobs, j, m) + jobs[m].prefill;
      if j < m { assert t - jobs[m].prefill == ReadyAt(jobs, j) + Work(jobs, j, m); }
    }
  }

  // ---- monotonicity ---------------------------------------------------------

  /** The same arrivals, with no less transfer and no less prefill. */
  ghost predicate Heavier(light: seq<Job>, heavy: seq<Job>) {
    && |light| == |heavy|
    && forall i :: 0 <= i < |light| ==>
         light[i].now == heavy[i].now && light[i].transfer <= heavy[i].transfer && light[i].prefill <= heavy[i].prefill
  }

  lemma {:induction false} HeavierIsBusier(light: seq<Job>, heavy: seq<Job>, n: nat)
    requires Services(light) && Services(heavy) && Heavier(light, heavy) && n <= |light|
    ensures After(light, n).pcieBusy <= After(heavy, n).pcieBusy
    ensures After(light, n).prefillBusy <= After(heavy, n).prefillBusy
  {
    if n > 0 {
      HeavierIsBusier(light, heavy, n - 1);
      BusyAscends(heavy, 0, n - 1);
    }
  }

  /** A turn's time to first token never falls when it, or any turn before it, transfers or recomputes
      more. */
  lemma TtftMonotone(cost: CostModel, light: seq<Job>, heavy: seq<Job>, n: nat)
    requires Services(light) && Services(heavy) && Heavier(light, heavy) && n < |light|
    ensures Ttft(cost, light, n) <= Ttft(cost, heavy, n)
  {
    HeavierIsBusier(light, heavy, n);
    BusyAscends(heavy, 0, n);
  }

  // ---- runs -----------------------------------------------------------------

  /** The jobs behind a run's metrics. */
  function JobsOf(cfg: SimConfig, ms: seq<Metric>): (jobs: seq<Job>)
    ensures |jobs| == |ms|
    ensures forall i :: 0 <= i < |ms| ==> jobs[i] == JobOf(cfg, ms[i])
  {
    seq(|ms|, i requires 0 <= i < |ms| => JobOf(cfg, ms[i]))
  }

  function JobOf(cfg: SimConfig, m: Metric): Job {
    Job(m.t, cfg.ram.RestoreSeconds(m.restoreBytes), cfg.cost.RecomputeSeconds(m.recompute as real))
  }

  lemma Quotient(x: real, y: real)
    requires x >= 0.0 && y > 0.0
    ensures x / y >= 0.0
  {
  }

  lemma QuotientMono(x: real, x': real, y: real)
    requires x <= x' && y > 0.0
    ensures x / y <= x' / y
  {
    assert x' / y - x / y == (x' - x) / y;
    Quotient(x' - x, y);
  }

  lemma JobsServe(cfg: SimConfig, ms: seq<Metric>)
    ensures Services(JobsOf(cfg, ms))
  {
    forall i | 0 <= i < |ms|
      ensures JobOf(cfg, ms[i]).transfer >= 0.0 && JobOf(cfg, ms[i]).prefill >= 0.0
    {
      Quotient(ms[i].restoreBytes as real, cfg.ram.BytesPerSecond());
      Quotient(ms[i].recompute as real, cfg.cost.prefillRate);
    }
  }

  lemma {:induction false} AfterPrefix(jobs: seq<Job>, more: seq<Job>, n: nat)
    requires n <= |jobs| && jobs <= more
    ensures After(jobs, n) == After(more, n)
  {
    if n > 0 { AfterPrefix(jobs, more, n - 1); }
  }

  function TtftsOf(ms: seq<Metric>): (ts: seq<real>)
    ensures |ts| == |ms| && forall i :: 0 <= i < |ms| ==> ts[i] == ms[i].ttft
  {
    seq(|ms|, i requires 0 <= i < |ms| => ms[i].ttft)
  }

  /** The servers are those of the jobs, and each time to first token is its job's. */
  ghost predicate Tracks(cost: CostModel, q: Queue, jobs: seq<Job>, ttfts: seq<real>) {
    && |ttfts| == |jobs| && q == After(jobs, |jobs|)
    && forall i :: 0 <= i < |jobs| ==> ttfts[i] == Ttft(cost, jobs, i)
  }

  lemma JobAdded(cost: CostModel, q: Queue, jobs: seq<Job>, ttfts: seq<real>, job: Job)
    requires Tracks(cost, q, jobs, ttfts)
    ensures Tracks(cost, q.Charge(job.now, job.transfer, job.prefill), jobs + [job],
                   ttfts + [q.Ttft(cost, job.now, job.transfer, job.prefill)])
  {
    var more := jobs + [job];
    AfterPrefix(jobs, more, |jobs|);
    forall i | 0 <= i < |jobs|
      ensures Ttft(cost, more, i) == Ttft(cost, jobs, i)
    {
      AfterPrefix(jobs, more, i);
    }
  }

  /** Every run is a list of jobs, so everything proved about jobs holds of every run. */
  lemma {:induction false} RunIsJobs(cfg: SimConfig, kind: Kind, sched: Schedule, turns: seq<Turn>)
    ensures var s := Run(cfg, kind, sched, turns);
            Tracks(cfg.cost, s.queue, JobsOf(cfg, s.metrics), TtftsOf(s.metrics))
  {
    if turns != [] {
      var n := |turns| - 1;
      RunIsJobs(cfg, kind, sched, turns[..n]);
      TurnIsJob(cfg, kind, sched, Run(cfg, kind, sched, turns[..n]), turns[n]);
    }
  }

  lemma TurnIsJob(cfg: SimConfig, kind: Kind, sched: Schedule, s: Sim, turn: Turn)
    requires Tracks(cfg.cost, s.queue, JobsOf(cfg, s.metrics), TtftsOf(s.metrics))
    ensures var r := OneTurn(cfg, kind, sched, s, turn);
            Tracks(cfg.cost, r.queue, JobsOf(cfg, r.metrics), TtftsOf(r.metrics))
  {
    var m := MetricOf(cfg, s, turn);
    TurnCharges(cfg, kind, sched, s, turn);
    JobAdded(cfg.cost, s.queue, JobsOf(cfg, s.metrics), TtftsOf(s.metrics), JobOf(cfg, m));
    MetricAdded(cfg, s.metrics, m);
  }

  lemma MetricAdded(cfg: SimConfig, ms: seq<Metric>, m: Metric)
    ensures JobsOf(cfg, ms + [m]) == JobsOf(cfg, ms) + [JobOf(cfg, m)]
    ensures TtftsOf(ms + [m]) == TtftsOf(ms) + [m.ttft]
  {
  }

  lemma TurnCharges(cfg: SimConfig, kind: Kind, sched: Schedule, s: Sim, turn: Turn)
    ensures var r, m := OneTurn(cfg, kind, sched, s, turn), MetricOf(cfg, s, turn);
            var job := JobOf(cfg, m);
            && m.t == turn.t && r.metrics == s.metrics + [m]
            && r.queue == s.queue.Charge(job.now, job.transfer, job.prefill)
            && m.ttft == s.queue.Ttft(cfg.cost, job.now, job.transfer, job.prefill)
  {
  }

  ghost predicate SameTimes(turns: seq<Turn>, ms: seq<Metric>) {
    |ms| == |turns| && forall i :: 0 <= i < |turns| ==> ms[i].t == turns[i].t
  }

  lemma {:induction false} MetricTimes(cfg: SimConfig, kind: Kind, sched: Schedule, turns: seq<Turn>)
    ensures SameTimes(turns, Run(cfg, kind, sched, turns).metrics)
  {
    if turns != [] {
      var n := |turns| - 1;
      var s := Run(cfg, kind, sched, turns[..n]);
      MetricTimes(cfg, kind, sched, turns[..n]);
      TurnCharges(cfg, kind, sched, s, turns[n]);
      TimeAdded(turns, s.metrics, MetricOf(cfg, s, turns[n]));
    }
  }

  lemma TimeAdded(turns: seq<Turn>, ms: seq<Metric>, m: Metric)
    requires turns != [] && SameTimes(turns[..|turns| - 1], ms) && m.t == turns[|turns| - 1].t
    ensures SameTimes(turns, ms + [m])
  {
  }

  /** No metric recomputes or restores more than its counterpart. */
  ghost predicate NoMore(a: seq<Metric>, b: seq<Metric>) {
    |a| == |b| && forall i :: 0 <= i < |a| ==>
      a[i].recompute <= b[i].recompute && a[i].restoreBytes <= b[i].restoreBytes
  }

  /** Of two runs over the same trace and hardware, whatever their pools and policies: when no turn of
      one recomputes or restores more, no turn of it waits longer for its first token. */
  lemma {:induction false} LessWorkLessWait(a: SimConfig, ka: Kind, sa: Schedule, b: SimConfig, kb: Kind,
          sb: Schedule, turns: seq<Turn>, n: nat)
    requires a.cost == b.cost && a.ram == b.ram && n < |turns|
    requires NoMore(Run(a, ka, sa, turns).metrics, Run(b, kb, sb, turns).metrics)
    ensures var x, y := Run(a, ka, sa, turns).metrics, Run(b, kb, sb, turns).metrics;
            n < |x| == |y| && x[n].ttft <= y[n].ttft
  {
    MetricTimes(a, ka, sa, turns);
    MetricTimes(b, kb, sb, turns);
    RunIsJobs(a, ka, sa, turns);
    RunIsJobs(b, kb, sb, turns);
    WaitsLess(a, b, Run(a, ka, sa, turns), Run(b, kb, sb, turns), turns, n);
  }

  lemma WaitsLess(a: SimConfig, b: SimConfig, x: Sim, y: Sim, turns: seq<Turn>, n: nat)
    requires a.cost == b.cost && a.ram == b.ram && n < |turns|
    requires SameTimes(turns, x.metrics) && SameTimes(turns, y.metrics) && NoMore(x.metrics, y.metrics)
    requires Tracks(a.cost, x.queue, JobsOf(a, x.metrics), TtftsOf(x.metrics))
    requires Tracks(b.cost, y.queue, JobsOf(b, y.metrics), TtftsOf(y.metrics))
    ensures x.metrics[n].ttft <= y.metrics[n].ttft
  {
    LessWork(a, b, x.metrics, y.metrics);
    JobsServe(a, x.metrics);
    JobsServe(b, y.metrics);
    TtftMonotone(a.cost, JobsOf(a, x.metrics), JobsOf(b, y.metrics), n);
    assert TtftsOf(x.metrics)[n] == x.metrics[n].ttft && TtftsOf(y.metrics)[n] == y.metrics[n].ttft;
  }

  lemma LessWork(a: SimConfig, b: SimConfig, x: seq<Metric>, y: seq<Metric>)
    requires a.cost == b.cost && a.ram == b.ram && NoMore(x, y)
    requires forall i :: 0 <= i < |x| ==> x[i].t == y[i].t
    ensures Heavier(JobsOf(a, x), JobsOf(b, y))
  {
    forall i | 0 <= i < |x|
      ensures JobOf(a, x[i]).transfer <= JobOf(b, y[i]).transfer && JobOf(a, x[i]).prefill <= JobOf(b, y[i]).prefill
    {
      QuotientMono(x[i].restoreBytes as real, y[i].restoreBytes as real, a.ram.BytesPerSecond());
      QuotientMono(x[i].recompute as real, y[i].recompute as real, a.cost.prefillRate);
    }
  }

  // ---- report totals --------------------------------------------------------

  /** Prefill and transfer seconds charged turn by turn. */
  function PrefillCharged(cfg: SimConfig, ms: seq<Metric>): real {
    if ms == [] then 0.0 else JobOf(cfg, ms[0]).prefill + PrefillCharged(cfg, ms[1..])
  }

  function TransferCharged(cfg: SimConfig, ms: seq<Metric>): real {
    if ms == [] then 0.0 else JobOf(cfg, ms[0]).transfer + TransferCharged(cfg, ms[1..])
  }

  lemma SplitQuotient(a: nat, b: nat, rate: real)
    requires rate > 0.0
    ensures (a + b) as real / rate == a as real / rate + b as real / rate
  {
  }

  lemma {:induction false} TotalsAddUp(cfg: SimConfig, ms: seq<Metric>)
    ensures cfg.cost.RecomputeSeconds(TotalRecompute(ms) as real) == PrefillCharged(cfg, ms)
    ensures cfg.ram.RestoreSeconds(TotalRestore(ms)) == TransferCharged(cfg, ms)
  {
    if ms != [] {
      TotalsAddUp(cfg, ms[1..]);
      SplitQuotient(ms[0].recompute, TotalRecompute(ms[1..]), cfg.cost.prefillRate);
      SplitQuotient(ms[0].restoreBytes, TotalRestore(ms[1..]), cfg.ram.BytesPerSecond());
    }
  }

  /** The seconds a report shows are the seconds its turns were charged. */
  lemma {:induction false} ReportAddsUp(cfg: SimConfig, kind: Kind, sched: Schedule, turns: seq<Turn>)
    ensures var s := Run(cfg, kind, sched, turns);
            && ReportOf(cfg, s).prefillSeconds == PrefillCharged(cfg, s.metrics)
            && ReportOf(cfg, s).transferSeconds == TransferCharged(cfg, s.metrics)
  {
    TotalsAddUp(cfg, Run(cfg, kind, sched, turns).metrics);
  }
}
