/**
 The counter kept beside each shared queue. It is updated one step after the queue, so it
 lags; and draining a class overwrites it. The drift of a class is what is wrong with its
 counter once the operations in flight are allowed for. It is zero for a new pool, and no
 step of any thread changes it except the store that ends a drain.
 */
module CountAgreement {
  import opened Sums
  import opened Memory
  import opened Routing
  import opened Config
  import opened Magazine
  import opened Stats
  import opened Machine
  import opened Invariant
  import opened Safety
  import opened Scripts

  /** Buffers this thread has queued in class `c` of pool `p` without counting them yet. */
  function Uncounted(p: nat, c: nat, th: Thread): nat {
    if (th.op.SpillCount? || th.op.OverflowCount? || th.op.WarmCount?) && th.op.pool == p && th.op.c == c then 1 else 0
  }

  /** Buffers it has taken from there without counting that yet; a drain counts nothing until its last step. */
  function Undeducted(p: nat, c: nat, th: Thread): nat {
    if (th.op.RefillFirst? || th.op.RefillMore?) && th.op.r.pool == p && th.op.c == c then 1
    else if (th.op.Draining? || th.op.DrainStore?) && th.op.pool == p && th.op.c == c then th.op.popped
    else 0
  }

  function UncountedBy(p: nat, c: nat): Thread -> nat {
    (th: Thread) => Uncounted(p, c, th)
  }

  function UndeductedBy(p: nat, c: nat): Thread -> nat {
    (th: Thread) => Undeducted(p, c, th)
  }

  /** What the counter would be, were the steps in flight already counted the way they will be. */
  function Expected(s: State, p: nat, c: nat): int
    requires HasClass(s, p, c)
  {
    |s.pools[p].classes[c].queue| - Sum(s.threads, UncountedBy(p, c)) + Sum(s.threads, UndeductedBy(p, c))
  }

  function Drift(s: State, p: nat, c: nat): nat
    requires HasClass(s, p, c)
  {
    Wrap(s.pools[p].classes[c].count - Expected(s, p, c))
  }

  /** The last step of a drain of this class. */
  predicate Stores(op: Op, p: nat, c: nat) {
    op.DrainStore? && op.pool == p && op.c == c
  }

  // ── One step of one thread ──────────────────────────────────────────

  lemma WrapShift(x: int, y: int, k: int)
    ensures Wrap(Wrap(x + k) - (y + k)) == Wrap(x - y)
  {
    WrapDown(x + k, y + k);
    WrapDown(x + k, -y - k);
  }

  /** Queue length with one thread's outstanding work on its own class allowed for. */
  function Settled(sc: SharedClass, th: Thread, p: nat, c: nat): int {
    |sc.queue| - Uncounted(p, c, th) + Undeducted(p, c, th)
  }

  ghost predicate KeepsDrift(th: Thread, sc: SharedClass, o: Out)
    requires !th.op.Idle?
  {
    var p, c := PoolOf(th.op), ClassOf(th.op);
    Wrap(o.sc.count - Settled(o.sc, o.th, p, c)) == Wrap(sc.count - Settled(sc, th, p, c))
  }

  lemma QuietDrift(cfg: Settings, th: Thread, sc: SharedClass, ctr: Totals, raw: Vec)
    requires Shaped(th) && (th.op.Start? || th.op.Oversize? || th.op.Hit? || th.op.Cold? || th.op.Return?
                            || th.op.Snapshotting?)
    ensures KeepsDrift(th, sc, Micro(cfg, th, sc, ctr, raw))
  {
    hide Wrap, RouteSize, Attach, Decide, Recycle, Cut;
  }

  lemma RefillDrift(cfg: Settings, th: Thread, sc: SharedClass, ctr: Totals)
    requires Shaped(th) && (th.op.RefillPop? || th.op.RefillFirst? || th.op.RefillLoop? || th.op.RefillMore?)
    ensures KeepsDrift(th, sc, RefillStep(cfg, th, sc, ctr))
  {
    WrapShift(sc.count, Settled(sc, th, PoolOf(th.op), ClassOf(th.op)), -1);
    hide Wrap, Recycle;
  }

  lemma SpillDrift(cfg: Settings, th: Thread, sc: SharedClass, ctr: Totals)
    requires Shaped(th) && (th.op.Spill? || th.op.SpillCount? || th.op.Place? || th.op.OverflowCount?)
    ensures KeepsDrift(th, sc, SpillStep(cfg, th, sc, ctr))
  {
    WrapShift(sc.count, Settled(sc, th, PoolOf(th.op), ClassOf(th.op)), 1);
    hide Wrap;
  }

  lemma UpkeepDrift(cfg: Settings, th: Thread, sc: SharedClass, ctr: Totals, raw: Vec)
    requires Shaped(th) && (th.op.WarmLoop? || th.op.WarmCount? || th.op.Draining? || th.op.Resetting?)
    ensures KeepsDrift(th, sc, UpkeepStep(cfg, th, sc, ctr, raw))
  {
    WrapShift(sc.count, Settled(sc, th, PoolOf(th.op), ClassOf(th.op)), 1);
    hide Wrap, ZeroCounter;
  }

  /** Every step but a drain's store keeps the drift of its class. */
  lemma MicroDrift(cfg: Settings, th: Thread, sc: SharedClass, ctr: Totals, raw: Vec)
    requires Shaped(th) && !th.op.Idle? && !th.op.DrainStore?
    ensures KeepsDrift(th, sc, Micro(cfg, th, sc, ctr, raw))
  {
    hide KeepsDrift, AllocStep, RefillStep, ReturnStep, SpillStep, UpkeepStep, SnapshotStep;
    if th.op.Start? || th.op.Oversize? || th.op.Hit? || th.op.Cold? || th.op.Return? || th.op.Snapshotting? {
      QuietDrift(cfg, th, sc, ctr, raw);
    }
    else if th.op.RefillPop? || th.op.RefillFirst? || th.op.RefillLoop? || th.op.RefillMore? {
      RefillDrift(cfg, th, sc, ctr);
    }
    else if th.op.Spill? || th.op.SpillCount? || th.op.Place? || th.op.OverflowCount? { SpillDrift(cfg, th, sc, ctr); }
    else { UpkeepDrift(cfg, th, sc, ctr, raw); }
  }

  /** A step says nothing of classes other than its own. */
  lemma MicroElsewhere(cfg: Settings, th: Thread, sc: SharedClass, ctr: Totals, raw: Vec, p: nat, c: nat)
    requires Shaped(th) && !th.op.Idle? && (p, c) != (PoolOf(th.op), ClassOf(th.op))
    ensures var o := Micro(cfg, th, sc, ctr, raw);
            && Uncounted(p, c, th) == Uncounted(p, c, o.th) == 0
            && Undeducted(p, c, th) == Undeducted(p, c, o.th) == 0
  {
    hide Wrap, RouteSize, Attach, Decide, Recycle, Cut, ZeroCounter;
  }

  // ── Steps of the whole system ───────────────────────────────────────

  lemma ThreadSetDrift(s: State, t: nat, th: Thread, p: nat, c: nat)
    requires t < |s.threads|
    ensures Sum(s.threads[t := th], UncountedBy(p, c)) + Uncounted(p, c, s.threads[t])
            == Sum(s.threads, UncountedBy(p, c)) + Uncounted(p, c, th)
    ensures Sum(s.threads[t := th], UndeductedBy(p, c)) + Undeducted(p, c, s.threads[t])
            == Sum(s.threads, UndeductedBy(p, c)) + Undeducted(p, c, th)
  {
    SumUpdate(s.threads, t, th, UncountedBy(p, c));
    SumUpdate(s.threads, t, th, UndeductedBy(p, c));
  }

  lemma WrapSame(a: int, b: int, k: int)
    requires Wrap(a) == Wrap(b)
    ensures Wrap(a - k) == Wrap(b - k)
  {
    WrapDown(a, k);
    WrapDown(b, k);
  }

  lemma GoDrift(s: State, e: Event, p: nat, c: nat)
    requires Inv(ANY, s) && Enabled(s, e) && e.a.Go? && HasClass(s, p, c)
    requires !Stores(s.threads[e.t].op, p, c)
    ensures HasClass(Step(s, e), p, c) && Drift(Step(s, e), p, c) == Drift(s, p, c)
  {
    hide Sum, Wrap, Micro, Uncounted, Undeducted, Supplied, ThreadOk, HandleOk;
    var th := s.threads[e.t];
    var q, d := PoolOf(th.op), ClassOf(th.op);
    assert PoolOk(ANY, s.cfgs[q], q, s.pools[q]);
    var sc := s.pools[q].classes[d];
    assert ClassOk(ANY, s.cfgs[q], q, d, sc);
    var o := Micro(s.cfgs[q], th, sc, s.pools[q].ctr, e.a.raw);
    ThreadSetDrift(s, e.t, o.th, p, c);
    if (p, c) == (q, d) {
      MicroDrift(s.cfgs[q], th, sc, s.pools[q].ctr, e.a.raw);
      var others := Sum(s.threads, UndeductedBy(p, c)) - Undeducted(p, c, th)
                    - (Sum(s.threads, UncountedBy(p, c)) - Uncounted(p, c, th));
      WrapSame(o.sc.count - (|o.sc.queue| - Uncounted(p, c, o.th) + Undeducted(p, c, o.th)),
               sc.count - (|sc.queue| - Uncounted(p, c, th) + Undeducted(p, c, th)), others);
    } else {
      MicroElsewhere(s.cfgs[q], th, sc, s.pools[q].ctr, e.a.raw, p, c);
    }
  }

  /** Beginning an operation, or working on a handle, leaves every queue and counter alone. */
  lemma OtherStepShape(s: State, e: Event, p: nat, c: nat)
    requires Enabled(s, e) && !e.a.Go? && p < |s.pools|
    ensures p < |Step(s, e).pools| && Step(s, e).pools[p].classes == s.pools[p].classes
    ensures |Step(s, e).threads| == |s.threads|
    ensures Step(s, e).threads == s.threads[e.t := Step(s, e).threads[e.t]]
    ensures Uncounted(p, c, Step(s, e).threads[e.t]) == Uncounted(p, c, s.threads[e.t])
    ensures Undeducted(p, c, Step(s, e).threads[e.t]) == Undeducted(p, c, s.threads[e.t])
  {
    hide Micro, RouteSize, Worked;
    if e.a.BeginDrop? || e.a.WriteFromSlice? { assert LiveHandle(s, e.a.h); }
    else if e.a.BeginAlloc? || e.a.NewPool? {}
    else if e.a.BeginWarm? || e.a.BeginDrain? || e.a.BeginReset? || e.a.BeginSnapshot? || e.a.Exit? {}
    else { assert LiveHandle(s, e.a.h); }
  }

  lemma OtherStepDrift(s: State, e: Event, p: nat, c: nat)
    requires Enabled(s, e) && !e.a.Go? && HasClass(s, p, c)
    ensures HasClass(Step(s, e), p, c) && Drift(Step(s, e), p, c) == Drift(s, p, c)
  {
    hide Sum, Wrap, Step;
    OtherStepShape(s, e, p, c);
    var s' := Step(s, e);
    assert s'.threads == s.threads[e.t := s'.threads[e.t]];
    ThreadSetDrift(s, e.t, s'.threads[e.t], p, c);
  }

  /** Drift moves only when a drain of this very class stores its zero. */
  lemma OnlyDrainStoreMovesDrift(s: State, e: Event, p: nat, c: nat)
    requires Inv(ANY, s) && Enabled(s, e) && HasClass(s, p, c)
    requires e.a.Go? ==> !Stores(s.threads[e.t].op, p, c)
    ensures HasClass(Step(s, e), p, c) && Drift(Step(s, e), p, c) == Drift(s, p, c)
  {
    hide Step, Drift;
    if e.a.Go? { GoDrift(s, e, p, c); } else { OtherStepDrift(s, e, p, c); }
  }

  /** No event of the run ends a drain of this class. */
  ghost predicate NoStores(s: State, es: seq<Event>, p: nat, c: nat)
    requires ValidRun(s, es)
    decreases |es|
  {
    es == [] || ((es[0].a.Go? ==> !Stores(s.threads[es[0].t].op, p, c)) && NoStores(Step(s, es[0]), es[1..], p, c))
  }

  /**
   A counter that is off stays off by the same amount until the next drain of its class stores; so does one
   that is right.
   */
  lemma {:induction false} DriftStays(s: State, es: seq<Event>, p: nat, c: nat)
    requires Inv(ANY, s) && ValidRun(s, es) && HasClass(s, p, c) && NoStores(s, es, p, c)
    ensures HasClass(After(s, es), p, c) && Drift(After(s, es), p, c) == Drift(s, p, c)
    decreases |es|
  {
    hide Step, Enabled, Drift, Inv, Stores, HasClass;
    if es == [] {
    } else {
      StepKeepsInv(ANY, s, es[0]);
      OnlyDrainStoreMovesDrift(s, es[0], p, c);
      DriftStays(Step(s, es[0]), es[1..], p, c);
    }
  }

  /** Every thread but `t`. */
  function Others(s: State, t: nat): seq<Thread>
    requires t < |s.threads|
  {
    s.threads[..t] + s.threads[t + 1..]
  }

  lemma SumOthers(s: State, t: nat, f: Thread -> nat)
    requires t < |s.threads|
    ensures Sum(s.threads, f) == f(s.threads[t]) + Sum(Others(s, t), f)
  {
    SumAt(s.threads, t, f);
    SumAppend(s.threads[..t], s.threads[t + 1..], f);
  }

  /**
   Exactly when a drain's store leaves the counter right: what is queued by then, and what the other
   threads have queued uncounted and taken undeducted, must cancel out.
   */
  lemma DrainStoreDrift(s: State, e: Event, p: nat, c: nat)
    requires Enabled(s, e) && e.a.Go? && HasClass(s, p, c) && Stores(s.threads[e.t].op, p, c)
    ensures HasClass(Step(s, e), p, c)
    ensures Step(s, e).pools[p].classes[c] == SharedClass(s.pools[p].classes[c].queue, 0)
    ensures Expected(Step(s, e), p, c) == Expected(s, p, c) - s.threads[e.t].op.popped
    ensures Drift(Step(s, e), p, c) == 0 <==>
            Wrap(|s.pools[p].classes[c].queue| - Sum(Others(s, e.t), UncountedBy(p, c))
                 + Sum(Others(s, e.t), UndeductedBy(p, c))) == 0
  {
    hide Sum, RouteSize, Others;
    var th := s.threads[e.t];
    SumOthers(s, e.t, UncountedBy(p, c));
    SumOthers(s, e.t, UndeductedBy(p, c));
    ThreadSetDrift(s, e.t, Step(s, e).threads[e.t], p, c);
    WrapDown(0, Expected(Step(s, e), p, c));
  }

  // ── Runs in which drains run alone on their class ───────────────────

  /** The operation works on this queue or its counter. */
  predicate Uses(op: Op, p: nat, c: nat) {
    && (op.RefillPop? || op.RefillFirst? || op.RefillLoop? || op.RefillMore? || op.Spill? || op.SpillCount?
        || op.Place? || op.OverflowCount? || op.WarmLoop? || op.WarmCount? || op.Draining? || op.DrainStore?)
    && PoolOf(op) == p && op.c == c
  }

  predicate Drains(op: Op, p: nat, c: nat) {
    (op.Draining? || op.DrainStore?) && op.pool == p && op.c == c
  }

  /** While a thread drains a class, no other thread is in the middle of an operation on it. */
  ghost predicate DrainsAlone(s: State) {
    forall t, u, p: nat, c: nat ::
      0 <= t < |s.threads| && 0 <= u < |s.threads| && t != u && Drains(s.threads[t].op, p, c)
      ==> !Uses(s.threads[u].op, p, c)
  }

  ghost predicate DrainsAloneThroughout(s: State, es: seq<Event>)
    requires ValidRun(s, es)
    decreases |es|
  {
    DrainsAlone(s) && (es == [] || DrainsAloneThroughout(Step(s, es[0]), es[1..]))
  }

  /** All counters right, and every drain about to store has an empty queue before it. */
  ghost predicate Agreed(s: State) {
    && (forall p, c :: 0 <= p < |s.pools| && 0 <= c < |s.pools[p].classes| ==> Drift(s, p, c) == 0)
    && (forall t :: 0 <= t < |s.threads| ==> StoreSeesEmpty(s, s.threads[t].op))
  }

  ghost predicate StoreSeesEmpty(s: State, op: Op) {
    op.DrainStore? ==> HasClass(s, op.pool, op.c) && s.pools[op.pool].classes[op.c].queue == []
  }

  lemma MicroQuiet(cfg: Settings, th: Thread, sc: SharedClass, ctr: Totals, raw: Vec)
    requires Shaped(th) && !th.op.Idle?
    ensures var o := Micro(cfg, th, sc, ctr, raw);
            && (!Uses(th.op, PoolOf(th.op), ClassOf(th.op)) ==> o.sc == sc)
            && (o.th.op.DrainStore? ==> th.op.Draining? && sc.queue == [] == o.sc.queue
                                        && o.th.op.pool == th.op.pool && o.th.op.c == th.op.c)
  {
    hide Wrap, RouteSize, Attach, Decide, Recycle, Cut, ZeroCounter;
  }

  lemma {:induction false} NobodyElse(ts: seq<Thread>, t: nat, p: nat, c: nat)
    requires t < |ts|
    requires forall u :: 0 <= u < |ts| && u != t ==> !Uses(ts[u].op, p, c)
    ensures Sum(ts, UncountedBy(p, c)) == Uncounted(p, c, ts[t])
    ensures Sum(ts, UndeductedBy(p, c)) == Undeducted(p, c, ts[t])
  {
    SumAt(ts, t, UncountedBy(p, c));
    SumAt(ts, t, UndeductedBy(p, c));
    forall k | 0 <= k < |ts[..t]| ensures UncountedBy(p, c)(ts[..t][k]) == 0 && UndeductedBy(p, c)(ts[..t][k]) == 0 {
      assert !Uses(ts[k].op, p, c);
    }
    var after := ts[t + 1..];
    forall k | 0 <= k < |after| ensures UncountedBy(p, c)(after[k]) == 0 && UndeductedBy(p, c)(after[k]) == 0 {
      assert !Uses(ts[t + 1 + k].op, p, c);
    }
    SumZero(ts[..t], UncountedBy(p, c));
    SumZero(ts[..t], UndeductedBy(p, c));
    SumZero(after, UncountedBy(p, c));
    SumZero(after, UndeductedBy(p, c));
  }

  /** A drain that ran alone leaves an empty queue and a counter of zero, with nothing outstanding. */
  lemma LoneDrainResets(s: State, e: Event, p: nat, c: nat)
    requires Enabled(s, e) && e.a.Go? && HasClass(s, p, c) && Stores(s.threads[e.t].op, p, c)
    requires DrainsAlone(s) && Agreed(s)
    ensures HasClass(Step(s, e), p, c)
    ensures Step(s, e).pools[p].classes[c] == SharedClass([], 0) && Drift(Step(s, e), p, c) == 0
  {
    hide Sum, Step, Wrap;
    DrainStoreDrift(s, e, p, c);
    assert StoreSeesEmpty(s, s.threads[e.t].op);
    assert Drains(s.threads[e.t].op, p, c);
    NobodyElse(s.threads, e.t, p, c);
    assert Expected(s, p, c) == s.threads[e.t].op.popped;
    WrapZero();
  }

  lemma WrapZero()
    ensures Wrap(0) == 0
  {
  }

  lemma GoKeepsEmpty(s: State, e: Event, t: nat)
    requires Inv(ANY, s) && Enabled(s, e) && e.a.Go? && DrainsAlone(s) && Agreed(s) && t < |s.threads|
    ensures StoreSeesEmpty(Step(s, e), Step(s, e).threads[t].op)
  {
    hide Sum, Wrap, Micro, Drift, Supplied, ThreadOk, HandleOk;
    var th := s.threads[e.t];
    var q, d := PoolOf(th.op), ClassOf(th.op);
    MicroQuiet(s.cfgs[q], th, s.pools[q].classes[d], s.pools[q].ctr, e.a.raw);
    if t != e.t {
      var op := s.threads[t].op;
      assert StoreSeesEmpty(s, op);
      if op.DrainStore? { assert Drains(op, op.pool, op.c) && !Uses(th.op, op.pool, op.c); }
    }
  }

  lemma OtherKeepsEmpty(s: State, e: Event, t: nat)
    requires Enabled(s, e) && !e.a.Go? && Agreed(s) && t < |s.threads|
    ensures StoreSeesEmpty(Step(s, e), Step(s, e).threads[t].op)
  {
    hide Sum, Wrap, Micro, Drift, RouteSize, Worked;
    assert StoreSeesEmpty(s, s.threads[t].op);
  }

  lemma NewPoolDrift(s: State, e: Event, c: nat)
    requires Inv(ANY, s) && Enabled(s, e) && e.a.NewPool? && c < NUM_CLASSES
    ensures HasClass(Step(s, e), |s.pools|, c) && Drift(Step(s, e), |s.pools|, c) == 0
  {
    hide Micro, RouteSize, Worked;
    var p := |s.pools|;
    forall t | 0 <= t < |s.threads| 
      ensures UncountedBy(p, c)(s.threads[t]) == 0 && UndeductedBy(p, c)(s.threads[t]) == 0
    {
      assert ThreadOk(ANY, s.cfgs, s.threads[t]);
    }
    SumZero(s.threads, UncountedBy(p, c));
    SumZero(s.threads, UndeductedBy(p, c));
    assert NEW_POOL.classes[c] == EMPTY_CLASS;
  }

  lemma StepKeepsAgreed(s: State, e: Event)
    requires Inv(ANY, s) && Enabled(s, e) && DrainsAlone(s) && Agreed(s)
    ensures Agreed(Step(s, e))
  {
    hide Step, Enabled, Drift, DrainsAlone, StoreSeesEmpty;
    var s' := Step(s, e);
    Shape(s, e);
    forall t | 0 <= t < |s'.threads| ensures StoreSeesEmpty(s', s'.threads[t].op) {
      if e.a.Go? { GoKeepsEmpty(s, e, t); } else { OtherKeepsEmpty(s, e, t); }
    }
    forall p, c | 0 <= p < |s'.pools| && 0 <= c < |s'.pools[p].classes| ensures Drift(s', p, c) == 0 {
      if p == |s.pools| { NewPoolDrift(s, e, c); }
      else if e.a.Go? && Stores(s.threads[e.t].op, p, c) { LoneDrainResets(s, e, p, c); }
      else { OnlyDrainStoreMovesDrift(s, e, p, c); }
    }
  }

  /** Pools and threads keep their number and shape, but for a new pool. */
  lemma Shape(s: State, e: Event)
    requires Inv(ANY, s) && Enabled(s, e)
    ensures var s' := Step(s, e);
            && e.t < |s.threads| == |s'.threads|
            && |s'.pools| == (if e.a.NewPool? then |s.pools| + 1 else |s.pools|)
            && (forall p :: 0 <= p < |s.pools| ==> |s'.pools[p].classes| == |s.pools[p].classes|)
            && (e.a.NewPool? ==> |s'.pools[|s.pools|].classes| == NUM_CLASSES)
  {
    hide Micro, RouteSize, Worked;
  }

  lemma {:induction false} RunKeepsAgreed(s: State, es: seq<Event>)
    requires Inv(ANY, s) && ValidRun(s, es) && DrainsAloneThroughout(s, es) && Agreed(s)
    ensures Agreed(After(s, es))
    decreases |es|
  {
    hide Step, Enabled, DrainsAlone, Agreed, Inv;
    if es == [] {
    } else {
      StepKeepsInv(ANY, s, es[0]);
      StepKeepsAgreed(s, es[0]);
      RunKeepsAgreed(Step(s, es[0]), es[1..]);
    }
  }

  /**
   In every run in which drains run alone on their class, after every step: the counter is the
   queue length, less what is queued and not yet counted, plus what is taken and not yet
   deducted, modulo 2^64; and it is the queue length itself when nothing is outstanding.
   */
  lemma CounterFollowsQueue(n: nat, es: seq<Event>, p: nat, c: nat)
    requires ValidRun(Initial(n), es) && DrainsAloneThroughout(Initial(n), es)
    requires HasClass(After(Initial(n), es), p, c)
    ensures var s := After(Initial(n), es);
            && s.pools[p].classes[c].count == Wrap(Expected(s, p, c))
            && (Sum(s.threads, UncountedBy(p, c)) == 0 == Sum(s.threads, UndeductedBy(p, c)) ==>
                  s.pools[p].classes[c].count == |s.pools[p].classes[c].queue|)
  {
    hide Step, Enabled, Sum;
    InitialOk(ANY, n);
    RunKeepsAgreed(Initial(n), es);
    ReachableOk(n, es);
    var s := After(Initial(n), es);
    assert PoolOk(ANY, s.cfgs[p], p, s.pools[p]);
    assert ClassOk(ANY, s.cfgs[p], p, c, s.pools[p].classes[c]);
    assert Drift(s, p, c) == 0;
    CountFromDrift(s.pools[p].classes[c].count, Expected(s, p, c));
  }

  lemma CountFromDrift(count: nat, expected: int)
    requires count < TWO64 && Wrap(count - expected) == 0
    ensures count == Wrap(expected)
  {
  }

  // ── A drain that does not run alone ─────────────────────────────────

  const TINY: Settings := Settings(1, 1, 1, 0, false)

  function Scene(a: Op, b: Op, sc: SharedClass, created: nat): Stage {
    Stage(Thread(UNBOUND, a, 0), Thread(UNBOUND, b, 0), sc, ZERO_TOTALS, [], created)
  }

  /** One step of the draining thread, while the other stands still. */
  lemma DrainGoes(a: Op, sc: SharedClass, popped: nat, store: bool, created: nat)
    requires Happens(TINY, Scene(a, if store then DrainStore(0, 0, popped) else Draining(0, 0, popped), sc, created),
                     true)
    ensures var next := if store then Draining(0, 1, 0) else if sc.queue == [] then DrainStore(0, 0, popped)
            else Draining(0, 0, popped + 1);
            var left := if store then sc.(count := 0) else if sc.queue == [] then sc else Dequeue(sc);
            Happens(TINY, Scene(a, next, left, created), true)
  {
    hide Happens, HeapAllocate;
    var g := Scene(a, if store then DrainStore(0, 0, popped) else Draining(0, 0, popped), sc, created);
    Goes(TINY, g, true, 1, Page(0), UpkeepStep(TINY, g.b, sc, ZERO_TOTALS, Page(0)));
  }

  /** `warm` has queued its buffer but not counted it when a drain begins on the class. */
  lemma DrainMeetsWarm()
    ensures Happens(TINY, Scene(WarmCount(0, 0, 0), Draining(0, 0, 0), SharedClass([Page(0)], 0), 1), true)
  {
    hide Happens, Sheet, RouteSize;
    RouteSizeExact(0, 0);
    Opens(TINY);
    var g := Stage(NEW_THREAD, NEW_THREAD, EMPTY_CLASS, ZERO_TOTALS, [], 0);
    BeginsUpkeep(TINY, g, true, 0, BeginWarm(0, 1, 0), WarmLoop(0, 0, 1));
    BeginsUpkeep(TINY, Began(g, 0, WarmLoop(0, 0, 1)), true, 1, BeginDrain(0), Draining(0, 0, 0));
    WarmGoes(TINY, Scene(WarmLoop(0, 0, 1), Draining(0, 0, 0), EMPTY_CLASS, 0), true, 0, NEW_THREAD, WarmLoop(0, 0, 1),
             4096);
    assert Enqueue(EMPTY_CLASS, Page(0)) == SharedClass([Page(0)], 0);
  }

  /**
   A drain that overlaps a push leaves the counter wrong: `warm` has queued a buffer but not counted
   it when the drain pops it and stores zero, so the counter ends at one with the queue empty and
   nothing outstanding on the class. It is then off by one until the next drain, by `DriftStays`.
   */
  lemma OverlappingDrainBreaksCounter() returns (s: State)
    ensures Reachable(2, s) && HasClass(s, 0, 0) && s.pools[0].classes[0] == SharedClass([], 1) && Drift(s, 0, 0) == 1
    ensures forall t :: 0 <= t < |s.threads| ==> Uncounted(0, 0, s.threads[t]) == 0 == Undeducted(0, 0, s.threads[t])
  {
    hide Happens, Sheet, ValidRun, After;
    DrainMeetsWarm();
    var counting := WarmCount(0, 0, 0);
    assert Dequeue(SharedClass([Page(0)], 0)) == SharedClass([], 0);
    DrainGoes(counting, SharedClass([Page(0)], 0), 0, false, 1);
    DrainGoes(counting, SharedClass([], 0), 1, false, 1);
    DrainGoes(counting, SharedClass([], 0), 1, true, 1);
    // only now does warm count its buffer
    WarmGoes(TINY, Scene(counting, Draining(0, 1, 0), SharedClass([], 0), 1), true, 0, NEW_THREAD, counting, 4096);
    var es := Unfold(TINY, Scene(WarmLoop(0, 0, 0), Draining(0, 1, 0), SharedClass([], 1), 1), true);
    s := After(Initial(2), es);
    assert Reachable(2, s);
    SumZero(s.threads, UncountedBy(0, 0));
    SumZero(s.threads, UndeductedBy(0, 0));
  }
}
