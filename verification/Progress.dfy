/**
 No operation waits for another thread: under any interleaving an allocation, a return, a warm, a
 reset or a snapshot is over after a number of its own steps that is fixed when it begins.
 */
module Progress {
  import opened Sums
  import opened Memory
  import opened Routing
  import opened Config
  import opened Magazine
  import opened Stats
  import opened Machine
  import opened Invariant
  import opened Safety
  import opened Returns

  /** A drain lasts as long as other threads keep the queue filled; nothing else does. */
  predicate Bounded(op: Op) {
    !op.Draining? && !op.DrainStore?
  }

  /** The most steps an operation can still take, whatever it meets. */
  function StepsLeft(batch: nat, op: Op): nat
    requires Bounded(op)
  {
    match op
    case Idle => 0
    case Start(_) => 4 + 2 * (if batch == 0 then 0 else batch - 1)
    case Oversize(_) => 1
    case Hit(_, _, _) => 1
    case RefillPop(_, _) => 3 + 2 * (if batch == 0 then 0 else batch - 1)
    case RefillFirst(_, _, _) => 2 + 2 * (if batch == 0 then 0 else batch - 1)
    case RefillLoop(_, _, _, rem) => 2 * rem + 1
    case RefillMore(_, _, _, _, rem) => 2 * rem + 2
    case Cold(_, _) => 1
    case Return(_, _, _) => 2 * batch + 4
    case Spill(_, _, _, rem) => 2 * rem + 3
    case SpillCount(_, _, _, rem) => 2 * rem + 4
    case Place(_, _, _) => 2
    case OverflowCount(_, _) => 1
    case WarmLoop(_, _, rem) => 2 * rem + 1
    case WarmCount(_, _, rem) => 2 * rem + 2
    case Resetting(_, k) => if k <= 6 then 7 - k else 1
    case Snapshotting(_, k, _, _) => if k <= SNAPSHOT_LOADS then SNAPSHOT_LOADS + 1 - k else 1
  }

  ghost predicate Advances(batch: nat, op: Op, op': Op)
    requires Bounded(op) && !op.Idle?
  {
    Bounded(op') && StepsLeft(batch, op') < StepsLeft(batch, op) && (!op'.Idle? ==> PoolOf(op') == PoolOf(op))
  }

  lemma AllocProgress(cfg: Settings, th: Thread, sc: SharedClass, ctr: Totals, raw: Vec)
    requires Shaped(th) && Allocating(th.op)
    ensures Advances(cfg.batch, th.op, Micro(cfg, th, sc, ctr, raw).th.op)
  {
    hide RouteSize, Attach, Recycle, Cut, Wrap;
  }

  lemma ReturnProgress(cfg: Settings, th: Thread, sc: SharedClass, ctr: Totals, raw: Vec)
    requires Shaped(th) && Dealloc(th.op)
    ensures Advances(cfg.batch, th.op, Micro(cfg, th, sc, ctr, raw).th.op)
  {
    hide Attach, Decide, Wrap;
  }

  lemma UpkeepProgress(cfg: Settings, th: Thread, sc: SharedClass, ctr: Totals, raw: Vec)
    requires Shaped(th) && (th.op.WarmLoop? || th.op.WarmCount? || th.op.Resetting? || th.op.Snapshotting?)
    ensures Advances(cfg.batch, th.op, Micro(cfg, th, sc, ctr, raw).th.op)
  {
    hide Wrap, ZeroCounter, LoadCounter;
  }

  lemma MicroProgress(cfg: Settings, th: Thread, sc: SharedClass, ctr: Totals, raw: Vec)
    requires Shaped(th) && !th.op.Idle? && Bounded(th.op)
    ensures Advances(cfg.batch, th.op, Micro(cfg, th, sc, ctr, raw).th.op)
  {
    hide Advances, Micro, StepsLeft;
    if Allocating(th.op) { AllocProgress(cfg, th, sc, ctr, raw); }
    else if Dealloc(th.op) { ReturnProgress(cfg, th, sc, ctr, raw); }
    else { UpkeepProgress(cfg, th, sc, ctr, raw); }
  }

  lemma GoProgress(s: State, e: Event)
    requires Enabled(s, e) && e.a.Go? && Bounded(s.threads[e.t].op)
    ensures var op, op' := s.threads[e.t].op, Step(s, e).threads[e.t].op;
            && !op.Idle? && PoolOf(op) < |s.cfgs| && Bounded(op') && (!op'.Idle? ==> PoolOf(op') == PoolOf(op))
            && StepsLeft(s.cfgs[PoolOf(op)].batch, op') < StepsLeft(s.cfgs[PoolOf(op)].batch, op)
  {
    hide Micro, StepsLeft, Supplied;
    var th := s.threads[e.t];
    MicroProgress(s.cfgs[PoolOf(th.op)], th, s.pools[PoolOf(th.op)].classes[ClassOf(th.op)], s.pools[PoolOf(th.op)].ctr,
                  e.a.raw);
  }

  /** The steps of thread `t` in a run. */
  function OwnSteps(t: nat, es: seq<Event>): nat {
    if es == [] then 0 else (if es[0].t == t then 1 else 0) + OwnSteps(t, es[1..])
  }

  /** While thread `t` only carries on, its own steps use up what it had left; others cannot lengthen its work. */
  lemma {:induction false} OwnStepsBounded(s: State, es: seq<Event>, t: nat, p: nat)
    requires ValidRun(s, es) && OnlyGoes(t, es) && t < |s.threads| && p < |s.cfgs| && Bounded(s.threads[t].op)
    requires !s.threads[t].op.Idle? ==> PoolOf(s.threads[t].op) == p
    ensures |After(s, es).threads| == |s.threads| && Bounded(After(s, es).threads[t].op)
    ensures OwnSteps(t, es) + StepsLeft(s.cfgs[p].batch, After(s, es).threads[t].op)
            <= StepsLeft(s.cfgs[p].batch, s.threads[t].op)
    decreases |es|
  {
    hide Step, Enabled, StepsLeft, Bounded;
    if es == [] {
    } else {
      CfgsStay(s, es[0]);
      if es[0].t == t { GoProgress(s, es[0]); } else { OthersLeaveThreadAlone(s, es[0], t); }
      assert OnlyGoes(t, es[1..]);
      OwnStepsBounded(Step(s, es[0]), es[1..], t, p);
    }
  }

  /**
   From any reachable state, under any interleaving: an allocation takes at most 2 * batch + 4 steps of
   its own, a return as many, and a warm two for each buffer and one more. Since no thread is ever
   stuck (`NeverStuck`), every such operation completes as soon as its thread is given those steps.
   */
  lemma OperationsAreShort(n: nat, es0: seq<Event>, t: nat, es: seq<Event>)
    requires ValidRun(Initial(n), es0) && t < n && |After(Initial(n), es0).threads| == n
    requires var s := After(Initial(n), es0);
             !s.threads[t].op.Idle? && Bounded(s.threads[t].op) && ValidRun(s, es) && OnlyGoes(t, es)
    ensures var s := After(Initial(n), es0);
            var op := s.threads[t].op;
            && PoolOf(op) < |s.cfgs|
            && (op.Start? || op.Return? ==> OwnSteps(t, es) <= 2 * s.cfgs[PoolOf(op)].batch + 4)
            && (op.WarmLoop? ==> OwnSteps(t, es) <= 2 * op.rem + 1)
            && (op.Resetting? ==> OwnSteps(t, es) <= 7)
            && (op.Snapshotting? ==> OwnSteps(t, es) <= SNAPSHOT_LOADS + 1)
  {
    hide Step, Enabled, ValidRun, After, OnlyGoes, OwnSteps;
    ReachableOk(n, es0);
    var s := After(Initial(n), es0);
    assert ThreadOk(ANY, s.cfgs, s.threads[t]);
    OwnStepsBounded(s, es, t, PoolOf(s.threads[t].op));
  }

  // ── Drains ──────────────────────────────────────────────────────────

  function QueueLength(): SharedClass -> nat {
    (sc: SharedClass) => |sc.queue|
  }

  /** All that is queued in pool `p`. */
  function Queued(s: State, p: nat): nat {
    if p < |s.pools| then Sum(s.pools[p].classes, QueueLength()) else 0
  }

  /** How much longer the queues of pool `p` get through the steps of threads other than `t`. */
  ghost function Arrivals(s: State, es: seq<Event>, t: nat, p: nat): nat
    requires ValidRun(s, es)
    decreases |es|
  {
    if es == [] then 0
    else
      var s1 := Step(s, es[0]);
      (if es[0].t != t && Queued(s1, p) > Queued(s, p) then Queued(s1, p) - Queued(s, p) else 0)
          + Arrivals(s1, es[1..], t, p)
  }

  /** A drain of pool `p`, or what it becomes. */
  predicate DrainsPool(op: Op, p: nat) {
    op.Idle? || ((op.Draining? || op.DrainStore?) && op.pool == p && op.c < NUM_CLASSES)
  }

  /** Two steps for each class still to be done, to find it empty and to store. */
  function ClassesLeft(op: Op, p: nat): nat
    requires DrainsPool(op, p)
  {
    if op.Idle? then 0 else if op.Draining? then 2 * (NUM_CLASSES - op.c) else 2 * (NUM_CLASSES - op.c) - 1
  }

  /** Each step of a drain takes one buffer or gets one closer to the end. */
  lemma DrainGoes(s: State, e: Event, p: nat)
    requires Enabled(s, e) && e.a.Go? && DrainsPool(s.threads[e.t].op, p)
    ensures e.t < |Step(s, e).threads| && DrainsPool(Step(s, e).threads[e.t].op, p)
    ensures Queued(Step(s, e), p) + ClassesLeft(Step(s, e).threads[e.t].op, p) + 1
            == Queued(s, p) + ClassesLeft(s.threads[e.t].op, p)
  {
    hide Sum, AllocStep, RefillStep, ReturnStep, SpillStep, SnapshotStep, RouteSize, Supplied;
    var th := s.threads[e.t];
    var o := UpkeepStep(s.cfgs[p], th, s.pools[p].classes[th.op.c], s.pools[p].ctr, e.a.raw);
    SumUpdate(s.pools[p].classes, th.op.c, o.sc, QueueLength());
  }

  lemma {:induction false} DrainRun(s: State, es: seq<Event>, t: nat, p: nat)
    requires ValidRun(s, es) && OnlyGoes(t, es) && t < |s.threads| && DrainsPool(s.threads[t].op, p)
    ensures t < |After(s, es).threads| && DrainsPool(After(s, es).threads[t].op, p)
    ensures OwnSteps(t, es) + Queued(After(s, es), p) + ClassesLeft(After(s, es).threads[t].op, p)
            <= Queued(s, p) + ClassesLeft(s.threads[t].op, p) + Arrivals(s, es, t, p)
    decreases |es|
  {
    hide Step, Enabled, Queued, ClassesLeft, DrainsPool;
    if es == [] {
    } else {
      if es[0].t == t { DrainGoes(s, es[0], p); } else { OthersLeaveThreadAlone(s, es[0], t); }
      assert OnlyGoes(t, es[1..]);
      DrainRun(Step(s, es[0]), es[1..], t, p);
    }
  }

  /**
   A drain is held up only by what other threads queue meanwhile: its own steps are at most the buffers
   queued when it begins, those that arrive by the steps of others, and two for each class.
   */
  lemma DrainTakesWhatItMeets(s: State, es: seq<Event>, t: nat, p: nat)
    requires ValidRun(s, es) && OnlyGoes(t, es) && t < |s.threads| && s.threads[t].op == Draining(p, 0, 0)
    ensures OwnSteps(t, es) <= Queued(s, p) + Arrivals(s, es, t, p) + 16
  {
    hide Step, Enabled, Queued, Arrivals, OwnSteps;
    DrainRun(s, es, t, p);
  }
}
