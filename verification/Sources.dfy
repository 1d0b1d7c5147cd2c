/**
 Which counter each event of a run moves. Accounting has the sums; here each of cache hits, hits on
 the shared queue, allocations and discards is a tally of its own kind of event, recognised by what
 happens to buffers and not by what the code calls it.
 */
module Sources {
  import opened Options
  import opened Sums
  import opened Memory
  import opened Routing
  import opened Config
  import opened Magazine
  import opened Stats
  import opened Machine
  import opened Invariant
  import opened Safety
  import opened Accounting
  import opened Progress

  datatype Kind = CacheHits | QueueHits | Allocations | Discards

  function Shown(kind: Kind, ctr: Totals): nat {
    match kind
    case CacheHits => ctr.tlsHits
    case QueueHits => ctr.sharedHits
    case Allocations => ctr.allocations
    case Discards => ctr.discards
  }

  /** The step leaves an allocation of pool `p` with its first buffer in hand. */
  ghost predicate Picks(s: State, e: Event, p: nat)
    requires Enabled(s, e)
  {
    && e.a.Go? && AllocIn(p, s.threads[e.t].op) && OpVecs(s.threads[e.t].op) == []
    && e.t < |Step(s, e).threads| && OpVecs(Step(s, e).threads[e.t].op) != []
  }

  /**
   A cache hit is a buffer picked up while the queues stay as they are; a hit on the queue, one picked up
   from a queue; an allocation, one that the allocator makes for a request; a discard, the return of an
   oversize buffer or of one below the minimum size.
   */
  ghost predicate Is(kind: Kind, s: State, e: Event, p: nat)
    requires Enabled(s, e)
  {
    match kind
    case CacheHits => Picks(s, e, p) && Queued(Step(s, e), p) == Queued(s, p)
    case QueueHits => Picks(s, e, p) && Queued(Step(s, e), p) < Queued(s, p)
    case Allocations => e.a.Go? && AllocIn(p, s.threads[e.t].op) && Step(s, e).created > s.created
    case Discards =>
      && e.a.Go? && s.threads[e.t].op.Return? && s.threads[e.t].op.pool == p < |s.cfgs|
      && (s.threads[e.t].op.hint == OVERSIZE_HINT || s.threads[e.t].op.vec.Capacity() < s.cfgs[p].minSize)
  }

  ghost function Tally(kind: Kind, s: State, es: seq<Event>, p: nat): nat
    requires ValidRun(s, es)
    decreases |es|
  {
    if es == [] then 0 else Flag(Is(kind, s, es[0], p)) + Tally(kind, Step(s, es[0]), es[1..], p)
  }

  /** What is picked up but not yet counted. */
  function InHandOf(kind: Kind, p: nat): Thread -> nat {
    (th: Thread) =>
      match kind
      case CacheHits => Flag(th.op.Hit? && th.op.r.pool == p)
      case QueueHits => Flag((th.op.RefillFirst? || th.op.RefillLoop? || th.op.RefillMore?) && th.op.r.pool == p)
      case Allocations => 0
      case Discards => 0
  }

  // ── One step of one thread ──────────────────────────────────────────

  ghost predicate Ledger(kind: Kind, cfg: Settings, th: Thread, sc: SharedClass, ctr: Totals, o: Out)
    requires !th.op.Idle?
  {
    var p := PoolOf(th.op);
    var picks := Allocating(th.op) && OpVecs(th.op) == [] && OpVecs(o.th.op) != [];
    var event := match kind
              case CacheHits => picks && |o.sc.queue| == |sc.queue|
              case QueueHits => picks && |o.sc.queue| < |sc.queue|
              case Allocations => Allocating(th.op) && o.called
              case Discards => th.op.Return? && (th.op.hint == OVERSIZE_HINT || th.op.vec.Capacity() < cfg.minSize);
    Shown(kind, o.ctr) + InHandOf(kind, p)(o.th) == Shown(kind, ctr) + InHandOf(kind, p)(th) + Flag(event)
  }

  lemma AllocBooks(kind: Kind, cfg: Settings, th: Thread, sc: SharedClass, ctr: Totals, raw: Vec)
    requires Shaped(th) && cfg.track && (th.op.Start? || th.op.Oversize? || th.op.Hit? || th.op.Cold?)
    ensures Ledger(kind, cfg, th, sc, ctr, AllocStep(cfg, th, sc, ctr, raw))
  {
    hide RouteSize, Attach, Recycle, Cut;
  }

  lemma RefillBooks(kind: Kind, cfg: Settings, th: Thread, sc: SharedClass, ctr: Totals)
    requires Shaped(th) && cfg.track
    requires th.op.RefillPop? || th.op.RefillFirst? || th.op.RefillLoop? || th.op.RefillMore?
    ensures Ledger(kind, cfg, th, sc, ctr, RefillStep(cfg, th, sc, ctr))
  {
    hide Wrap, Recycle;
  }

  lemma ReturnBooks(kind: Kind, cfg: Settings, th: Thread, sc: SharedClass, ctr: Totals)
    requires Shaped(th) && cfg.track && th.op.Return?
    ensures Ledger(kind, cfg, th, sc, ctr, ReturnStep(cfg, th, sc, ctr))
  {
    hide Attach, RouteCapacity;
  }

  lemma OtherBooks(kind: Kind, cfg: Settings, th: Thread, sc: SharedClass, ctr: Totals, raw: Vec)
    requires Shaped(th) && !Allocating(th.op) && !th.op.Idle? && !th.op.Return? && !th.op.Resetting?
    ensures Ledger(kind, cfg, th, sc, ctr, Micro(cfg, th, sc, ctr, raw))
  {
    hide Wrap, LoadCounter;
  }

  lemma MicroBooks(kind: Kind, cfg: Settings, th: Thread, sc: SharedClass, ctr: Totals, raw: Vec)
    requires Shaped(th) && !th.op.Idle? && !th.op.Resetting? && cfg.track
    ensures Ledger(kind, cfg, th, sc, ctr, Micro(cfg, th, sc, ctr, raw))
  {
    hide Ledger, AllocStep, RefillStep, ReturnStep, SpillStep, UpkeepStep, SnapshotStep;
    if th.op.Start? || th.op.Oversize? || th.op.Hit? || th.op.Cold? { AllocBooks(kind, cfg, th, sc, ctr, raw); }
    else if Allocating(th.op) { RefillBooks(kind, cfg, th, sc, ctr); }
    else if th.op.Return? { ReturnBooks(kind, cfg, th, sc, ctr); }
    else { OtherBooks(kind, cfg, th, sc, ctr, raw); }
  }

  // ── Steps of the whole system ───────────────────────────────────────

  lemma QueuedAfter(s: State, p: nat, c: nat, sc: SharedClass, ctr: Totals)
    requires p < |s.pools| && c < |s.pools[p].classes|
    ensures var pools := s.pools[p := Pool(s.pools[p].classes[c := sc], ctr)];
            Sum(pools[p].classes, QueueLength()) + |s.pools[p].classes[c].queue| == Queued(s, p) + |sc.queue|
  {
    SumUpdate(s.pools[p].classes, c, sc, QueueLength());
  }

  /** The tally of one kind of event goes up with its counter, allowing for what is in hand. */
  ghost predicate InStep(kind: Kind, s: State, e: Event, p: nat)
    requires Enabled(s, e) && p < |s.pools| && p < |Step(s, e).pools|
  {
    Shown(kind, Step(s, e).pools[p].ctr) + Sum(Step(s, e).threads, InHandOf(kind, p))
    == Shown(kind, s.pools[p].ctr) + Sum(s.threads, InHandOf(kind, p)) + Flag(Is(kind, s, e, p))
  }

  lemma OwnGo(kind: Kind, s: State, e: Event, p: nat)
    requires Inv(ANY, s) && Enabled(s, e) && e.a.Go? && p < |s.pools| && s.cfgs[p].track
    requires NobodyResets(s, p) && PoolOf(s.threads[e.t].op) == p
    ensures p < |Step(s, e).pools| && InStep(kind, s, e, p)
  {
    hide Sum, Step, Enabled, Micro, Shown, InHandOf, OpVecs, ClassOf, Shaped, Inv;
    GoParts(s, e);
    var th := s.threads[e.t];
    var c := ClassOf(th.op);
    var sc, ctr := s.pools[p].classes[c], s.pools[p].ctr;
    var o := Micro(s.cfgs[p], th, sc, ctr, e.a.raw);
    assert !th.op.Resetting?;
    MicroBooks(kind, s.cfgs[p], th, sc, ctr, e.a.raw);
    QueuedAfter(s, p, c, o.sc, o.ctr);
    SumUpdate(s.threads, e.t, o.th, InHandOf(kind, p));
    SameEvent(kind, s, e, p, o);
  }

  /** Seen from the whole state the event is the same. */
  lemma SameEvent(kind: Kind, s: State, e: Event, p: nat, o: Out)
    requires Enabled(s, e) && e.a.Go? && e.t < |s.threads| && p < |s.pools| == |s.cfgs| && !s.threads[e.t].op.Idle?
    requires PoolOf(s.threads[e.t].op) == p && ClassOf(s.threads[e.t].op) < |s.pools[p].classes|
    requires Step(s, e) == Merge(s, e.t, p, ClassOf(s.threads[e.t].op), o)
    requires Ledger(kind, s.cfgs[p], s.threads[e.t], s.pools[p].classes[ClassOf(s.threads[e.t].op)], s.pools[p].ctr, o)
    ensures Shown(kind, o.ctr) + InHandOf(kind, p)(o.th)
            == Shown(kind, s.pools[p].ctr) + InHandOf(kind, p)(s.threads[e.t]) + Flag(Is(kind, s, e, p))
  {
    hide Sum, Step, Enabled, Shown, InHandOf, OpVecs, ClassOf;
    QueuedAfter(s, p, ClassOf(s.threads[e.t].op), o.sc, o.ctr);
  }

  lemma OtherGo(kind: Kind, s: State, e: Event, p: nat)
    requires Enabled(s, e) && e.a.Go? && p < |s.pools| && PoolOf(s.threads[e.t].op) != p
    ensures p < |Step(s, e).pools| && InStep(kind, s, e, p)
  {
    hide Sum, Step, Enabled, Micro, OpVecs, ClassOf, Shaped, Queued;
    GoParts(s, e);
    var th := s.threads[e.t];
    var q, c := PoolOf(th.op), ClassOf(th.op);
    var o := Micro(s.cfgs[q], th, s.pools[q].classes[c], s.pools[q].ctr, e.a.raw);
    KeepsPool(s.cfgs[q], th, s.pools[q].classes[c], s.pools[q].ctr, e.a.raw);
    SumUpdate(s.threads, e.t, o.th, InHandOf(kind, p));
  }

  /** An operation stays with its pool to the end. */
  lemma KeepsPool(cfg: Settings, th: Thread, sc: SharedClass, ctr: Totals, raw: Vec)
    requires Shaped(th) && !th.op.Idle?
    ensures var op := Micro(cfg, th, sc, ctr, raw).th.op;
            !op.Idle? ==> PoolOf(op) == PoolOf(th.op)
  {
    hide Wrap, RouteSize, Attach, Decide, Recycle, Cut, ZeroCounter, LoadCounter;
  }

  lemma NonGo(kind: Kind, s: State, e: Event, p: nat)
    requires Enabled(s, e) && !e.a.Go? && p < |s.pools|
    ensures p < |Step(s, e).pools| && InStep(kind, s, e, p)
  {
    hide Sum;
    NonGoShape(kind, s, e, p);
    hide Step, Enabled;
    SumUpdate(s.threads, e.t, Step(s, e).threads[e.t], InHandOf(kind, p));
  }

  lemma NonGoShape(kind: Kind, s: State, e: Event, p: nat)
    requires Enabled(s, e) && !e.a.Go? && p < |s.pools|
    ensures e.t < |s.threads| == |Step(s, e).threads| && p < |Step(s, e).pools|
    ensures Step(s, e).threads == s.threads[e.t := Step(s, e).threads[e.t]]
    ensures InHandOf(kind, p)(s.threads[e.t]) == 0 == InHandOf(kind, p)(Step(s, e).threads[e.t])
    ensures Shown(kind, Step(s, e).pools[p].ctr) == Shown(kind, s.pools[p].ctr)
  {
    hide Micro, RouteSize, Worked;
    if e.a.BeginDrop? || e.a.WriteFromSlice? { assert LiveHandle(s, e.a.h); }
  }

  /** The books of every kind, over runs that never reset the pool. */
  ghost predicate Tallied(kind: Kind, s: State, p: nat, tally: nat) {
    if p < |s.pools| then Shown(kind, s.pools[p].ctr) + Sum(s.threads, InHandOf(kind, p)) == tally else tally == 0
  }

  lemma StepTallied(kind: Kind, s: State, e: Event, p: nat, tally: nat)
    requires Inv(ANY, s) && Enabled(s, e) && Tracked(Step(s, e), p) && Tallied(kind, s, p, tally)
    requires p < |s.pools| ==> NobodyResets(s, p)
    ensures Tallied(kind, Step(s, e), p, tally + Flag(Is(kind, s, e, p)))
  {
    hide Step, Enabled, Inv, Sum, Shown, Is;
    CfgsGrow(s, e);
    InvPools(s);
    if e.a.Go? { GoParts(s, e); }
    if p < |s.pools| {
      if !e.a.Go? { NonGo(kind, s, e, p); }
      else if PoolOf(s.threads[e.t].op) == p { OwnGo(kind, s, e, p); }
      else { OtherGo(kind, s, e, p); }
    } else {
      NoSuchEvent(kind, s, e, p);
      if e.a.NewPool? {
        StepIsNewPool(s, e);
        NewPoolTallied(kind, s, e);
      } else {
        PoolsStay(s, e);
      }
    }
  }

  lemma InvPools(s: State)
    requires Inv(ANY, s)
    ensures |s.pools| == |s.cfgs|
  {
  }

  lemma NoSuchEvent(kind: Kind, s: State, e: Event, p: nat)
    requires Inv(ANY, s) && Enabled(s, e) && p >= |s.pools|
    ensures !Is(kind, s, e, p)
  {
    hide Step, Supplied;
    if e.a.Go? { assert ThreadOk(ANY, s.cfgs, s.threads[e.t]); }
  }

  lemma NewPoolTallied(kind: Kind, s: State, e: Event)
    requires Inv(ANY, s) && Enabled(s, e) && e.a.NewPool?
    ensures Tallied(kind, Step(s, e), |s.pools|, 0)
  {
    hide Sum, Step, Enabled;
    StepIsNewPool(s, e);
    var p := |s.pools|;
    forall k | 0 <= k < |s.threads| ensures InHandOf(kind, p)(s.threads[k]) == 0 {
      assert ThreadOk(ANY, s.cfgs, s.threads[k]);
    }
    SumZero(s.threads, InHandOf(kind, p));
    ShowsNone(kind);
  }

  lemma ShowsNone(kind: Kind)
    ensures Shown(kind, NEW_POOL.ctr) == 0
  {
  }

  lemma {:induction false} RunTallied(kind: Kind, s: State, es: seq<Event>, p: nat, tally: nat)
    requires Inv(ANY, s) && ValidRun(s, es) && NeverReset(es, p) && Books(s, p) && Tracked(After(s, es), p)
    requires Tallied(kind, s, p, tally)
    ensures Tallied(kind, After(s, es), p, tally + Tally(kind, s, es, p))
    decreases |es|
  {
    hide Step, Enabled, Inv, Tracked, Is, Tallied, Balanced;
    if es == [] {
    } else {
      StepKeepsInv(ANY, s, es[0]);
      assert NeverReset(es[1..], p);
      BooksBackwards(s, es, p);
      StepKeepsBooks(s, es[0], p);
      StepTallied(kind, s, es[0], p, tally);
      RunTallied(kind, Step(s, es[0]), es[1..], p, tally + Flag(Is(kind, s, es[0], p)));
    }
  }

  /**
   Each counter for what it is, after every step of every run that never resets the pool: cache hits are
   the buffers picked up from caches, and queue hits those picked up from queues, less those still in
   hand; allocations are the calls of the allocator for requests; discards are the returns of buffers not
   to be kept.
   */
  lemma EachCounterIsItsTally(n: nat, es: seq<Event>, p: nat)
    requires ValidRun(Initial(n), es) && NeverReset(es, p)
    requires p < |After(Initial(n), es).pools| && Tracked(After(Initial(n), es), p)
    ensures var s := After(Initial(n), es);
            var ctr := s.pools[p].ctr;
            && ctr.tlsHits + Sum(s.threads, InHandOf(CacheHits, p)) == Tally(CacheHits, Initial(n), es, p)
            && ctr.sharedHits + Sum(s.threads, InHandOf(QueueHits, p)) == Tally(QueueHits, Initial(n), es, p)
            && ctr.allocations == Tally(Allocations, Initial(n), es, p)
            && ctr.discards == Tally(Discards, Initial(n), es, p)
  {
    hide Step, Enabled, Sum, Tally, Balanced, Tracked;
    InitialOk(ANY, n);
    var s := After(Initial(n), es);
    RunTallied(CacheHits, Initial(n), es, p, 0);
    RunTallied(QueueHits, Initial(n), es, p, 0);
    RunTallied(Allocations, Initial(n), es, p, 0);
    RunTallied(Discards, Initial(n), es, p, 0);
    NoneInHand(s.threads, p);
  }

  lemma NoneInHand(ts: seq<Thread>, p: nat)
    ensures Sum(ts, InHandOf(Allocations, p)) == 0 == Sum(ts, InHandOf(Discards, p))
  {
    SumZero(ts, InHandOf(Allocations, p));
    SumZero(ts, InHandOf(Discards, p));
  }

  // ── Pools that do not keep statistics ───────────────────────────────

  predicate AllZero(ctr: Totals) {
    && ctr.gets == 0 == ctr.tlsHits && ctr.sharedHits == 0 == ctr.allocations
    && ctr.puts == 0 == ctr.discards && ctr.oversize == 0
  }

  ghost predicate Silent(s: State, p: nat) {
    p < |s.pools| && p < |s.cfgs| && !s.cfgs[p].track ==> AllZero(s.pools[p].ctr)
  }

  lemma MicroSilent(cfg: Settings, th: Thread, sc: SharedClass, ctr: Totals, raw: Vec)
    requires Shaped(th) && !th.op.Idle? && !cfg.track && AllZero(ctr)
    ensures AllZero(Micro(cfg, th, sc, ctr, raw).ctr)
  {
    hide Wrap, RouteSize, Attach, Decide, Recycle, Cut, LoadCounter;
  }

  lemma StepSilent(s: State, e: Event, p: nat)
    requires Inv(ANY, s) && Enabled(s, e) && Silent(s, p)
    ensures Silent(Step(s, e), p)
  {
    hide Micro, RouteSize, Worked, Supplied;
    if e.a.Go? {
      GoParts(s, e);
      hide Step, Enabled;
      var th := s.threads[e.t];
      var q, c := PoolOf(th.op), ClassOf(th.op);
      if q == p && !s.cfgs[p].track { MicroSilent(s.cfgs[q], th, s.pools[q].classes[c], s.pools[q].ctr, e.a.raw); }
    } else if e.a.NewPool? {
      ShowsNothing();
    }
  }

  lemma ShowsNothing()
    ensures AllZero(NEW_POOL.ctr)
  {
  }

  lemma {:induction false} RunSilent(s: State, es: seq<Event>, p: nat)
    requires Inv(ANY, s) && ValidRun(s, es) && Silent(s, p)
    ensures Silent(After(s, es), p)
    decreases |es|
  {
    hide Step, Enabled, Inv, Silent;
    if es == [] {
    } else {
      StepSilent(s, es[0], p);
      StepKeepsInv(ANY, s, es[0]);
      RunSilent(Step(s, es[0]), es[1..], p);
    }
  }

  /** A pool that does not track counts nothing, in any run. */
  lemma UntrackedCountsNothing(n: nat, es: seq<Event>, p: nat)
    requires ValidRun(Initial(n), es)
    ensures Silent(After(Initial(n), es), p)
  {
    hide Step, Enabled, Inv;
    InitialOk(ANY, n);
    RunSilent(Initial(n), es, p);
  }
}
