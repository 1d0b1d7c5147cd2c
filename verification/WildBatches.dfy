/**
 Which settings let a single return lose two buffers. The batch may be anything the builder
 accepts; one above the cache limit plus one is too much, because a refill that another thread
 feeds can then leave a cache so full that it is still full after a spill has begun.
 */
module WildBatches {
  import opened Sums
  import opened Memory
  import opened Routing
  import opened Config
  import opened Magazine
  import opened Stats
  import opened Machine
  import opened Invariant
  import opened Safety
  import opened Scripts
  import opened Returns

  /** Thread `t` begins a return under these settings after `es0`, and in `es` that return loses two buffers. */
  ghost predicate LosingReturn(cfg: Settings, n: nat, es0: seq<Event>, t: nat, es: seq<Event>) {
    && ValidRun(Initial(n), es0)
    && var s := After(Initial(n), es0);
    && t < n == |s.threads| && s.threads[t].op.Return?
    && s.threads[t].op.pool < |s.cfgs| && s.cfgs[s.threads[t].op.pool] == cfg
    && ValidRun(s, es) && OneReturn(s, es, t) && Loss(s, es, t) == 2
  }

  ghost predicate CanLoseTwo(cfg: Settings) {
    exists n, es0, t, es :: LosingReturn(cfg, n, es0, t, es)
  }

  /** Two threads: one at rest, one bound to the pool with so many buffers in its cache for class 0. */
  predicate Bound(cfg: Settings, g: Stage, k: nat) {
    && g.a == NEW_THREAD && g.b.tls.poolId == 1 && g.b.tls.limit == cfg.limit
    && |g.b.tls.caches| == NUM_CLASSES && |g.b.tls.caches[0]| == k
  }

  /** Thread 1 is refilling, has `rem` more to move, and finds the queue empty. */
  predicate Refilling(cfg: Settings, size: nat, g: Stage, k: nat, rem: nat) {
    Bound(cfg, g, k) && g.b.op == Op.RefillLoop(PAGE_REQ, 0, Sheet(size, 0), rem) && g.sc.queue == [] && g.handles == []
  }

  predicate RightSize(cfg: Settings, size: nat) {
    4096 <= size <= ISIZE_MAX && cfg.minSize <= size
  }

  /** One buffer is warmed; thread 1 misses its cache and asks for it. */
  lemma RefillStarts(cfg: Settings, size: nat) returns (g': Stage)
    requires Accepted(cfg) && RightSize(cfg, size)
    ensures Happens(cfg, g', true) && Bound(cfg, g', 0) && g'.b.op == RefillPop(PAGE_REQ, 0)
    ensures g'.sc.queue == [Sheet(size, 0)] && g'.handles == []
  {
    hide Happens, Sheet, RouteSize, CountUp, Flatten;
    Opens(cfg);
    var g := Stage(NEW_THREAD, NEW_THREAD, EMPTY_CLASS, ZERO_TOTALS, [], 0);
    WarmsOne(cfg, g, true, 0, size);
    var g1 := Warmed(g, size);
    assert g1.sc.queue == [Sheet(size, 0)] by { CountKeeps(Enqueue(g.sc, Sheet(size, 0))); }
    BeginsAlloc(cfg, g1, true, 1, PAGE_REQ);
    RouteSizeExact(0, 0);
    var g2 := Began(g1, 1, Start(PAGE_REQ)).(ctr := if cfg.track then g1.ctr.(gets := g1.ctr.gets + 1) else g1.ctr);
    var o := AllocStep(cfg, g2.b, g2.sc, g2.ctr, Sheet(size, 0));
    Goes(cfg, g2, true, 1, Sheet(size, 0), o);
    g' := Played(g2, 1, o);
  }

  lemma CountKeeps(sc: SharedClass)
    ensures CountUp(sc).queue == sc.queue && CountDown(sc).queue == sc.queue
  {
  }

  /** One step of thread 1 inside its refill. */
  lemma RefillGoes(cfg: Settings, g: Stage, raw: Vec) returns (g': Stage)
    requires Happens(cfg, g, true) && Shaped(g.b)
    requires g.b.op.RefillPop? || g.b.op.RefillFirst? || g.b.op.RefillLoop? || g.b.op.RefillMore?
    requires g.b.op.r == PAGE_REQ && g.b.op.c == 0
    ensures Happens(cfg, g', true) && g' == Played(g, 1, RefillStep(cfg, g.b, g.sc, g.ctr))
  {
    hide Happens, RefillStep, Played, Shaped;
    Goes(cfg, g, true, 1, raw, RefillStep(cfg, g.b, g.sc, g.ctr));
    g' := Played(g, 1, RefillStep(cfg, g.b, g.sc, g.ctr));
  }

  lemma RefillTakesFirst(cfg: Settings, size: nat) returns (g': Stage)
    requires Accepted(cfg) && RightSize(cfg, size) && cfg.batch > 0
    ensures Happens(cfg, g', true) && Refilling(cfg, size, g', 0, cfg.batch - 1)
  {
    hide Happens, Sheet, CountDown;
    SheetOk(size, 0);
    var g := RefillStarts(cfg, size);
    var g1 := RefillGoes(cfg, g, Sheet(size, 0));
    g' := RefillGoes(cfg, g1, Sheet(size, 0));
    CountKeeps(g1.sc);
  }

  /** Thread 0 warms a buffer, and the refill takes it. */
  lemma FeedsOne(cfg: Settings, size: nat, g: Stage, k: nat, rem: nat) returns (g': Stage)
    requires Accepted(cfg) && RightSize(cfg, size) && rem > 0
    requires Happens(cfg, g, true) && Refilling(cfg, size, g, k, rem)
    ensures Happens(cfg, g', true) && Refilling(cfg, size, g', k + 1, rem - 1)
  {
    hide Happens, Sheet, CountUp, CountDown;
    SheetOk(size, 0);
    SheetOk(size, g.created);
    WarmsOne(cfg, g, true, 0, size);
    var g1 := Warmed(g, size);
    CountKeeps(Enqueue(g.sc, Sheet(size, g.created)));
    var g2 := RefillGoes(cfg, g1, Sheet(size, 0));
    g' := RefillGoes(cfg, g2, Sheet(size, 0));
    CountKeeps(g2.sc);
  }

  lemma {:induction false} Feeds(cfg: Settings, size: nat, g: Stage, k: nat, rem: nat) returns (g': Stage)
    requires Accepted(cfg) && RightSize(cfg, size)
    requires Happens(cfg, g, true) && Refilling(cfg, size, g, k, rem)
    ensures Happens(cfg, g', true) && Refilling(cfg, size, g', k + rem, 0)
    decreases rem
  {
    hide Happens, Refilling;
    if rem == 0 {
      g' := g;
    } else {
      var g1 := FeedsOne(cfg, size, g, k, rem);
      g' := Feeds(cfg, size, g1, k + 1, rem - 1);
    }
  }

  /** Thread 1 holds the buffer it asked for. */
  predicate Holding(cfg: Settings, size: nat, g: Stage, k: nat) {
    && Bound(cfg, g, k) && g.b.op.Idle? && |g.handles| == 1
    && var h := g.handles[0];
    h.pool == 0 == h.hint && h.slot.Live? && h.slot.vec.Valid() && h.slot.vec.Capacity() == size
  }

  lemma HandsOut(cfg: Settings, size: nat, g: Stage, k: nat) returns (g': Stage)
    requires Happens(cfg, g, true) && Refilling(cfg, size, g, k, 0) && RightSize(cfg, size)
    ensures Happens(cfg, g', true) && Holding(cfg, size, g', k) && g'.sc.queue == []
  {
    hide Happens, Sheet;
    SheetOk(size, 0);
    ResizeExposesZeros(Sheet(size, 0), 0, 4096);
    g' := RefillGoes(cfg, g, Sheet(size, 0));
  }

  /** Thread 0 fills the queue. */
  lemma {:induction false} FillsQueue(cfg: Settings, size: nat, g: Stage, k: nat) returns (g': Stage)
    requires Happens(cfg, g, true) && Holding(cfg, size, g, k) && RightSize(cfg, size) && |g.sc.queue| <= cfg.maxBuffers
    ensures Happens(cfg, g', true) && Holding(cfg, size, g', k) && |g'.sc.queue| == cfg.maxBuffers
    decreases cfg.maxBuffers - |g.sc.queue|
  {
    hide Happens, Sheet, CountUp;
    if |g.sc.queue| == cfg.maxBuffers {
      g' := g;
    } else {
      WarmsOne(cfg, g, true, 0, size);
      CountKeeps(Enqueue(g.sc, Sheet(size, g.created)));
      g' := FillsQueue(cfg, size, Warmed(g, size), k);
    }
  }

  /** How far the return has come: nothing done, spilling, one buffer lost, two lost. */
  predicate Losing(cfg: Settings, g: Stage, step: nat) {
    && g.b.tls.poolId == 1 && g.b.tls.limit == cfg.limit && |g.b.tls.caches| == NUM_CLASSES
    && |g.sc.queue| == cfg.maxBuffers && g.b.lost == (if step <= 1 then 0 else step - 1)
    && (step <= 1 ==> |g.b.tls.caches[0]| > cfg.limit) && (step == 2 ==> |g.b.tls.caches[0]| >= cfg.limit)
    && if step == 0 then
         && g.b.op.Return? && g.b.op.pool == 0 == g.b.op.hint && g.b.op.vec.Valid()
         && g.b.op.vec.Capacity() >= 4096 && g.b.op.vec.Capacity() >= cfg.minSize
       else if step == 1 then
         g.b.op.Spill? && g.b.op.pool == 0 == g.b.op.c && g.b.op.vec.Valid() && g.b.op.rem > 0
       else if step == 2 then g.b.op.Place? && g.b.op.pool == 0 == g.b.op.c && g.b.op.vec.Valid()
       else g.b.op.Idle?
  }

  lemma ReturnStarts(cfg: Settings, size: nat) returns (g': Stage)
    requires Accepted(cfg) && !Modest(cfg) && RightSize(cfg, size)
    ensures Happens(cfg, g', true) && Losing(cfg, g', 0)
  {
    hide Happens, Sheet;
    var g := RefillTakesFirst(cfg, size);
    var g1 := Feeds(cfg, size, g, 0, cfg.batch - 1);
    var g2 := HandsOut(cfg, size, g1, cfg.batch - 1);
    var g3 := FillsQueue(cfg, size, g2, cfg.batch - 1);
    BeginsDrop(cfg, g3, true, 1, 0);
    g' := Dropped(cfg, g3, 1, 0);
  }

  /** The first spilled buffer does not fit, the cache is still full, and then the returned one does not fit either. */
  lemma LosingStep(s: State, cfg: Settings, g: Stage, step: nat, raw: Vec) returns (g': Stage)
    requires Shows(s, cfg, g) && Losing(cfg, g, step) && step < 3 && !Modest(cfg)
    ensures Dealloc(g.b.op)
    ensures Enabled(s, Event(1, Go(raw))) && Shows(Step(s, Event(1, Go(raw))), cfg, g') && Losing(cfg, g', step + 1)
  {
    hide Step, Enabled, Shows;
    var o := if step == 0 then ReturnStep(cfg, g.b, g.sc, g.ctr) else SpillStep(cfg, g.b, g.sc, g.ctr);
    GoesFrom(s, cfg, g, 1, raw, o);
    g' := Played(g, 1, o);
  }

  lemma {:induction false} LosingRun(s: State, cfg: Settings, g: Stage, step: nat, es: seq<Event>, raw: Vec)
    requires Shows(s, cfg, g) && Losing(cfg, g, step) && step <= 3 && !Modest(cfg)
    requires es == seq(3 - step, _ => Event(1, Go(raw)))
    ensures ValidRun(s, es) && OneReturn(s, es, 1)
    ensures |After(s, es).threads| == 2 && After(s, es).threads[1].lost == 2
    decreases 3 - step
  {
    hide Step, Enabled;
    if step == 3 {
    } else {
      var g' := LosingStep(s, cfg, g, step, raw);
      assert es[1..] == seq(2 - step, _ => Event(1, Go(raw)));
      LosingRun(Step(s, es[0]), cfg, g', step + 1, es[1..], raw);
    }
  }

  lemma WildBatchLosesTwo(cfg: Settings)
    requires Accepted(cfg) && !Modest(cfg) && cfg.minSize <= ISIZE_MAX
    ensures CanLoseTwo(cfg)
  {
    hide Step, Enabled, Losing, Inv, ValidRun, After, OneReturn, Loss;
    var size := if cfg.minSize <= 4096 then 4096 else cfg.minSize;
    var g := ReturnStarts(cfg, size);
    var es0 := Unfold(cfg, g, true);
    var s := After(Initial(2), es0);
    LosingAtReturn(cfg, g);
    var raw := Page(0);
    var es := seq(3, _ => Event(1, Go(raw)));
    LosingRun(s, cfg, g, 0, es, raw);
    ReachableOk(2, es0);
    RunLoss(s, es, 1, 0);
    assert LosingReturn(cfg, 2, es0, 1, es);
  }

  lemma LosingAtReturn(cfg: Settings, g: Stage)
    requires Losing(cfg, g, 0)
    ensures g.b.op.Return? && g.b.op.pool == 0 && g.b.lost == 0
  {
  }

  /**
   For all settings the builder accepts: some return, in some run, loses two buffers exactly when the
   batch is above the cache limit plus one and the minimum size does not keep every buffer out.
   */
  lemma LosesTwoExactly(cfg: Settings)
    requires Accepted(cfg)
    ensures CanLoseTwo(cfg) <==> !Modest(cfg) && cfg.minSize <= ISIZE_MAX
  {
    hide Step, Enabled, ValidRun, After, OneReturn, Loss;
    if !Modest(cfg) && cfg.minSize <= ISIZE_MAX {
      WildBatchLosesTwo(cfg);
    } else if CanLoseTwo(cfg) {
      var n, es0, t, es :| LosingReturn(cfg, n, es0, t, es);
      ReturnLosesLittle(n, es0, t, es);
    }
  }
}
