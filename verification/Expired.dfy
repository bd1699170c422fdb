/** The expiring policies drop what has expired before they look for victims, so a round that reports
    nothing evicted can have emptied the tier. */
module Expired {
  import opened Base
  import opened Trace
  import opened Config
  import opened Prefix
  import opened Leases
  import opened Policies
  import opened Replay
  import opened HostFacts
  import opened Belady
  import opened Evictions
  import opened Lifetimes
  import opened Capacity
  import opened Overflow

  /** The longest life of a one-token block whose session announced nothing. */
  function LongestLife(cfg: SimConfig, kind: Kind): real
    requires !Timeless(kind)
  {
    if kind.FixedTtl? then kind.base + kind.perGib * (cfg.cost.BlockBytes(1) as real / GIB) else kind.maximum
  }

  /** One token of session one, at a later time. */
  function Later(t: real): Turn { Ask(1, 1).(t := t) }

  /** The first turn stores its block. */
  lemma FirstStored(cfg: SimConfig, kind: Kind, sched: Schedule)
    requires cfg.cost.BlockBytes(1) <= cfg.ram.capacity
    ensures var c := StepControl(cfg, kind, sched, START, Ask(0, 1));
            && ItemsOf(c.host.entries) == [Item(Private(0, 0), cfg.cost.BlockBytes(1))]
            && Sound(cfg.Shape(), c.ix) && Housed(c.ix, c.host.entries)
  {
    StoresNext(cfg, kind, sched, START, None, 0, 1);
    assert forall x: Item :: ItemsOf([]) + [x] == [x];
    StepHoused(cfg, kind, sched, START, Ask(0, 1));
  }

  /** Its life is no longer than that. */
  lemma FirstLife(cfg: SimConfig, kind: Kind, sched: Schedule, e: Entry)
    requires !Timeless(kind) && e in StepControl(cfg, kind, sched, START, Ask(0, 1)).host.entries
    requires e.nbytes == cfg.cost.BlockBytes(1)
    ensures e.expiresAt.At? && e.expiresAt.t <= LongestLife(cfg, kind)
  {
    StepRenews(cfg, kind, sched, START, Ask(0, 1));
    ShortLife(cfg, kind, ProbeOf(cfg, START, Ask(0, 1)), e.key);
  }

  /** The state after it. */
  ghost predicate OneExpiring(cfg: SimConfig, c: Control, t: real) {
    && ItemsOf(c.host.entries) == [Item(Private(0, 0), cfg.cost.BlockBytes(1))]
    && Sound(cfg.Shape(), c.ix) && Housed(c.ix, c.host.entries)
    && forall e :: e in c.host.entries ==> !Alive(e, t)
  }

  lemma FirstTurn(cfg: SimConfig, kind: Kind, sched: Schedule, t: real)
    requires !Timeless(kind) && cfg.cost.BlockBytes(1) <= cfg.ram.capacity && t >= LongestLife(cfg, kind)
    ensures OneExpiring(cfg, StepControl(cfg, kind, sched, START, Ask(0, 1)), t)
  {
    var c := StepControl(cfg, kind, sched, START, Ask(0, 1));
    FirstStored(cfg, kind, sched);
    forall e | e in c.host.entries
      ensures !Alive(e, t)
    {
      var i :| 0 <= i < |c.host.entries| && c.host.entries[i] == e;
      assert ItemsOf(c.host.entries)[i].nbytes == cfg.cost.BlockBytes(1);
      FirstLife(cfg, kind, sched, e);
    }
  }

  lemma ShortLife(cfg: SimConfig, kind: Kind, p: Probe, k: Key)
    requires !Timeless(kind) && p.view.now == 0.0 && p.view.eta == map[]
    ensures var t := Expiry(kind, p, k, cfg.cost.BlockBytes(1)); t.At? && t.t <= LongestLife(cfg, kind)
  {
    NoAbsence(p.view, k);
  }

  /** A round that finds nothing but expired entries reports `None`, and leaves none of them. */
  lemma NothingLeft(kind: Kind, p: Probe, es: seq<Entry>, needed: int, protected: set<Key>)
    requires !Timeless(kind) && forall e :: e in es ==> !Alive(e, p.view.now)
    ensures Evicted(kind, p, es, needed, protected) == Eviction(None, [])
  {
    NoneAlive(es, p.view.now);
  }

  /** The second turn, when the first block has expired and there is no room for both. */
  lemma SecondRefused(cfg: SimConfig, kind: Kind, sched: Schedule, c: Control, t: real)
    requires !Timeless(kind) && OneExpiring(cfg, c, t)
    requires cfg.cost.BlockBytes(1) <= cfg.ram.capacity < 2 * cfg.cost.BlockBytes(1)
    ensures StepControl(cfg, kind, sched, c, Later(t)).host.entries == []
  {
    var p, es, k := ProbeOf(cfg, c, Later(t)), c.host.entries, Private(1, 0);
    OnePrivatePath(cfg.Shape(), Later(t), 1);
    TouchSound(cfg.Shape(), c.ix, Later(t));
    assert k in PathOf(cfg.Shape(), Later(t));
    assert BlockSized(cfg.Shape(), k, p.view.ix.blocks[k]);
    BytesMono(cfg.cost, 1, p.view.ix.Tokens(k));
    OnlyItem(es, Item(Private(0, 0), cfg.cost.BlockBytes(1)), k);
    var incoming := [Item(k, p.view.ix.Bytes(k))];
    assert Candidates(p.view.ix, es, [k]) == incoming;
    assert ItemBytes(incoming) == p.view.ix.Bytes(k);
    NothingLeft(kind, p, es, ItemBytes(incoming) - Spare(cfg.ram.capacity, es), KeySet(ItemKeys(incoming)));
    assert StoreToHost(kind, p, sched, c.host, [k]).entries == [];
    StepItems(cfg, kind, sched, c, Later(t));
    assert |StepControl(cfg, kind, sched, c, Later(t)).host.entries| == |ItemsOf([])|;
  }

  lemma {:induction false} OnlyItem(es: seq<Entry>, item: Item, k: Key)
    requires ItemsOf(es) == [item] && k != item.key
    ensures Bytes(es) == item.nbytes && !HasKey(es, k)
  {
    assert |es| == |ItemsOf(es)| == 1;
    assert ItemsOf(es)[0] == Item(es[0].key, es[0].nbytes);
  }

  /** So a turn can empty the tier and store nothing: for every expiring policy, in every configuration
      with room for one smallest block and not for two, one such block is stored, and once its life is
      over the turn of another session drops it and has nothing to show for it. */
  lemma {:induction false} EmptiedForNothing(cfg: SimConfig, kind: Kind, sched: Schedule, t: real)
    requires !Timeless(kind) && cfg.cost.BlockBytes(1) <= cfg.ram.capacity < 2 * cfg.cost.BlockBytes(1)
    requires t >= 0.0 && t >= LongestLife(cfg, kind)
    ensures |RunControl(cfg, kind, sched, [Ask(0, 1)]).host.entries| == 1
    ensures RunControl(cfg, kind, sched, [Ask(0, 1), Later(t)]).host.entries == []
  {
    RunOne(cfg, kind, sched, Ask(0, 1));
    FirstTurn(cfg, kind, sched, t);
    var c := RunControl(cfg, kind, sched, [Ask(0, 1)]);
    assert |c.host.entries| == |ItemsOf(c.host.entries)|;
    SecondRefused(cfg, kind, sched, c, t);
    RunTwo(cfg, kind, sched, Ask(0, 1), Later(t));
  }
}
