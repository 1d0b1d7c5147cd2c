/**
 The no-growth theorem for the step machine: one thread at work on one class of one pool, in a run
 of any length without warming, draining, extracting or discarding. At every step, in the middle of
 operations too, no more buffers exist than were ever in use at once; and up to the threshold of
 `NoGrowth` none is ever freed.
 */
module LoneThread {
  import opened Options
  import opened Sums
  import opened Memory
  import opened Routing
  import opened Config
  import opened Magazine
  import opened Stats
  import opened Machine
  import opened Invariant
  import opened Safety
  import opened Returns
  import opened Reuse
  import opened NoGrowth

  /** How many buffers the thread has cached for class `c` of pool 0, and how many it has in its hands. */
  function Kept(c: nat, th: Thread): nat {
    |CacheIds(0, c, th.tls)|
  }

  function InHand(op: Op): nat {
    |OpVecs(op)|
  }

  predicate Pausing(op: Op) {
    op.Idle? || op.Resetting? || op.Snapshotting?
  }

  /** The thread is bound to pool 0 or to none, and works on class `c` of pool 0 alone. */
  ghost predicate Lone(cfg: Settings, c: nat, th: Thread, q: nat) {
    && c < NUM_CLASSES == |th.tls.caches|
    && (th.tls.poolId == 1 || (th.tls.poolId == 0 && th.tls.caches == EMPTY_CACHES))
    && (th.tls.poolId == 1 ==> th.tls.limit == cfg.limit)
    && (Pausing(th.op)
        || (&& PoolOf(th.op) == 0
            && if th.op.Start? then RouteSize(th.op.r.size) == Some(c)
               else if th.op.Return? then
                 th.op.hint == c && th.op.vec.Capacity() >= cfg.minSize && th.op.vec.Capacity() >= Boundary(c)
               else
                 && (Allocating(th.op) || Dealloc(th.op)) && !th.op.Oversize? && th.op.c == c && th.tls.poolId == 1
                 && (th.op.RefillPop? || th.op.RefillFirst? ==> Kept(c, th) == 0)
                 && (th.op.Cold? ==> Kept(c, th) == 0 == q)))
  }

  /**
   Buffers outside handles move about, are handed out, freed or made, and are made only when there are
   none: the queue of class `c` goes from `q` to `q'`.
   */
  ghost predicate Balances(c: nat, th: Thread, q: nat, o: Out, q': nat) {
    && Kept(c, o.th) + InHand(o.th.op) + q' + |o.freed| + (if o.made.Some? then 1 else 0)
       == Kept(c, th) + InHand(th.op) + q + (if o.called then 1 else 0)
    && (o.called ==> o.made.Some? && Kept(c, th) + InHand(th.op) + q == 0)
    && (o.made.Some? ==> o.made.value.slot.Live? && o.made.value.pool == 0 && o.made.value.hint == c)
  }

  lemma NothingFlat(tls: Tls)
    requires tls.caches == EMPTY_CACHES
    ensures Flatten(tls.caches) == []
  {
    FlattenEmpty(EMPTY_CACHES);
  }

  lemma LoneAlloc(cfg: Settings, c: nat, th: Thread, q: nat, sc: SharedClass, ctr: Totals, raw: Vec)
    requires Lone(cfg, c, th, q) && Shaped(th) && (th.op.Start? || th.op.Hit? || th.op.Cold?)
    ensures var o := AllocStep(cfg, th, sc, ctr, raw);
            Lone(cfg, c, o.th, q) && Balances(c, th, q, o, q) && o.sc == sc
  {
    hide RouteSize, Recycle, Cut, Flatten;
    if th.op.Start? && th.tls.poolId == 0 { NothingFlat(th.tls); }
  }

  lemma LoneRefill(cfg: Settings, c: nat, th: Thread, sc: SharedClass, ctr: Totals)
    requires Lone(cfg, c, th, |sc.queue|) && Shaped(th)
    requires th.op.RefillPop? || th.op.RefillFirst? || th.op.RefillLoop? || th.op.RefillMore?
    ensures var o := RefillStep(cfg, th, sc, ctr);
            Lone(cfg, c, o.th, |o.sc.queue|) && Balances(c, th, |sc.queue|, o, |o.sc.queue|)
  {
    hide RouteSize, Recycle;
  }

  lemma LoneReturn(cfg: Settings, c: nat, th: Thread, q: nat, sc: SharedClass, ctr: Totals)
    requires Lone(cfg, c, th, q) && Shaped(th) && th.op.Return?
    ensures var o := ReturnStep(cfg, th, sc, ctr);
            Lone(cfg, c, o.th, q) && Balances(c, th, q, o, q) && o.sc == sc
  {
    hide RouteSize, RouteCapacity, Flatten;
    if th.tls.poolId == 0 { NothingFlat(th.tls); }
  }

  lemma LoneSpill(cfg: Settings, c: nat, th: Thread, sc: SharedClass, ctr: Totals)
    requires Lone(cfg, c, th, |sc.queue|) && Shaped(th) && (th.op.Spill? || th.op.SpillCount?)
    ensures var o := SpillStep(cfg, th, sc, ctr);
            Lone(cfg, c, o.th, |o.sc.queue|) && Balances(c, th, |sc.queue|, o, |o.sc.queue|)
  {
    hide RouteSize, Wrap;
  }

  lemma LonePlace(cfg: Settings, c: nat, th: Thread, sc: SharedClass, ctr: Totals)
    requires Lone(cfg, c, th, |sc.queue|) && Shaped(th) && (th.op.Place? || th.op.OverflowCount?)
    ensures var o := SpillStep(cfg, th, sc, ctr);
            Lone(cfg, c, o.th, |o.sc.queue|) && Balances(c, th, |sc.queue|, o, |o.sc.queue|)
  {
    hide RouteSize, Wrap;
  }

  // ── Nothing lost up to the threshold ────────────────────────────────

  function Less(a: nat, b: nat): nat {
    if a <= b then a else b
  }

  /** In the even case, so many are a whole number of shares. */
  predicate Whole(cfg: Settings, n: nat)
    requires Share(cfg) > 0
  {
    Even(cfg) ==> n % Share(cfg) == 0
  }

  /** With a tame batch: what the cache holds, and what the queue and the move in progress amount to. */
  ghost predicate Steady(cfg: Settings, c: nat, th: Thread, q: nat)
    requires Accepted(cfg) && Tame(cfg)
  {
    var k, batch := Kept(c, th), cfg.batch;
    && q <= cfg.maxBuffers
    && if th.op.RefillFirst? then q < cfg.maxBuffers && Whole(cfg, q + 1)
       else if th.op.RefillLoop? then
         && k + 1 + th.op.rem <= batch && (th.op.rem > 0 ==> k + 1 + th.op.rem == batch)
         && (q == 0 || (k + 1 + th.op.rem == batch && q + k + 1 <= cfg.maxBuffers && Whole(cfg, q + k + 1)))
       else if th.op.RefillMore? then
         k + 2 + th.op.rem == batch && q + k + 2 <= cfg.maxBuffers && Whole(cfg, q + k + 2)
       else if th.op.Spill? || th.op.SpillCount? then
         var m := Less(th.op.rem, k);
         k <= cfg.limit && q + m <= cfg.maxBuffers && Whole(cfg, q + m) && k - m < cfg.limit
       else if th.op.Place? then k < cfg.limit && Whole(cfg, q)
       else !th.op.OverflowCount? && k <= cfg.limit && Whole(cfg, q)
  }

  lemma SteadyAlloc(cfg: Settings, c: nat, th: Thread, q: nat, sc: SharedClass, ctr: Totals, raw: Vec)
    requires Accepted(cfg) && Tame(cfg) && Lone(cfg, c, th, q) && Steady(cfg, c, th, q)
    requires Shaped(th) && (th.op.Start? || th.op.Hit? || th.op.Cold?)
    ensures var o := AllocStep(cfg, th, sc, ctr, raw);
            Steady(cfg, c, o.th, q) && o.freed == []
  {
    hide RouteSize, Recycle, Cut, Flatten, Whole;
    if th.op.Start? && th.tls.poolId == 0 { NothingFlat(th.tls); }
  }

  /** When a refill has run its course, what it leaves in the queue is whole again. */
  lemma RefillLeavesWhole(cfg: Settings, k: nat, q: nat)
    requires Accepted(cfg) && Tame(cfg) && k + 1 <= cfg.batch
    requires q == 0 || (k + 1 == cfg.batch && q + k + 1 <= cfg.maxBuffers && Whole(cfg, q + k + 1))
    ensures k <= cfg.limit && Whole(cfg, q)
  {
    if q > 0 && Even(cfg) {
      WholeShares(q + k + 1, Share(cfg));
    }
  }

  lemma SteadyRefill(cfg: Settings, c: nat, th: Thread, sc: SharedClass, ctr: Totals)
    requires Accepted(cfg) && Tame(cfg) && Lone(cfg, c, th, |sc.queue|) && Steady(cfg, c, th, |sc.queue|) && Shaped(th)
    requires th.op.RefillPop? || th.op.RefillFirst? || th.op.RefillLoop? || th.op.RefillMore?
    ensures var o := RefillStep(cfg, th, sc, ctr);
            Steady(cfg, c, o.th, |o.sc.queue|) && o.freed == []
  {
    if th.op.RefillLoop? && th.op.rem == 0 { RefillLeavesWhole(cfg, Kept(c, th), |sc.queue|); }
    hide RouteSize, Recycle, Whole;
  }

  /** A full cache whose spill would not fit means more buffers than the threshold allows. */
  lemma SpillFits(cfg: Settings, k: nat, q: nat)
    requires Accepted(cfg) && Tame(cfg) && k == cfg.limit && q <= cfg.maxBuffers && Whole(cfg, q)
    requires k + q + 1 <= Threshold(cfg)
    ensures q + Share(cfg) <= cfg.maxBuffers && Whole(cfg, q + Share(cfg))
  {
    var b := Share(cfg);
    if Even(cfg) {
      WholeShares(q, b);
      if q + b > cfg.maxBuffers { FullQueue(q, b, cfg.maxBuffers); }
    }
  }

  lemma SteadyReturn(cfg: Settings, c: nat, th: Thread, q: nat, sc: SharedClass, ctr: Totals)
    requires Accepted(cfg) && Tame(cfg) && Lone(cfg, c, th, q) && Steady(cfg, c, th, q)
    requires Shaped(th) && th.op.Return? && Kept(c, th) + 1 + q <= Threshold(cfg)
    ensures var o := ReturnStep(cfg, th, sc, ctr);
            Steady(cfg, c, o.th, q) && o.freed == []
  {
    hide RouteSize, RouteCapacity, Flatten, Whole, Threshold;
    if th.tls.poolId == 0 { NothingFlat(th.tls); }
    if Kept(c, th) == cfg.limit { SpillFits(cfg, Kept(c, th), q); }
  }

  lemma SteadySpill(cfg: Settings, c: nat, th: Thread, sc: SharedClass, ctr: Totals)
    requires Accepted(cfg) && Tame(cfg) && Lone(cfg, c, th, |sc.queue|) && Steady(cfg, c, th, |sc.queue|) && Shaped(th)
    requires th.op.Spill? || th.op.SpillCount? || th.op.Place? || th.op.OverflowCount?
    ensures var o := SpillStep(cfg, th, sc, ctr);
            Steady(cfg, c, o.th, |o.sc.queue|) && o.freed == []
  {
    hide RouteSize, Whole;
  }

  // ── Steps of the whole system ───────────────────────────────────────

  function LiveOne(): Handle -> nat {
    (h: Handle) => if h.slot.Live? then 1 else 0
  }

  /** All buffers there are: in use, cached, in the thread's hands, queued. */
  function Existing(s: State, t: nat, c: nat): nat
    requires t < |s.threads| && HasClass(s, 0, c)
  {
    Sum(s.handles, LiveOne()) + Kept(c, s.threads[t]) + InHand(s.threads[t].op) + |s.pools[0].classes[c].queue|
  }

  ghost predicate LoneState(cfg: Settings, c: nat, s: State, t: nat) {
    && t < |s.threads| && HasClass(s, 0, c) && |s.cfgs| > 0 && s.cfgs[0] == cfg
    && Lone(cfg, c, s.threads[t], |s.pools[0].classes[c].queue|)
    && (forall h :: 0 <= h < |s.handles| ==> s.handles[h].pool == 0 && s.handles[h].hint == c)
    && s.created == Existing(s, t, c) + |s.freed|
  }

  ghost predicate SteadyState(cfg: Settings, c: nat, s: State, t: nat)
    requires LoneState(cfg, c, s, t)
  {
    Accepted(cfg) && Tame(cfg) ==> Steady(cfg, c, s.threads[t], |s.pools[0].classes[c].queue|) && s.freed == []
  }

  lemma LonePause(cfg: Settings, th: Thread, sc: SharedClass, ctr: Totals, raw: Vec)
    requires Shaped(th) && (th.op.Resetting? || th.op.Snapshotting?)
    ensures var o := Micro(cfg, th, sc, ctr, raw);
            o.th.tls == th.tls && Pausing(o.th.op) && o.sc == sc && o.freed == [] && o.made.None? && !o.called
  {
    hide ZeroCounter, LoadCounter;
  }

  lemma LoneMicro(cfg: Settings, c: nat, th: Thread, q: nat, sc: SharedClass, ctr: Totals, raw: Vec)
    requires Lone(cfg, c, th, q) && Shaped(th) && !Pausing(th.op)
    requires !th.op.Start? && !th.op.Return? ==> q == |sc.queue|
    ensures var o := Micro(cfg, th, sc, ctr, raw);
            var q' := if th.op.Start? || th.op.Return? then q else |o.sc.queue|;
            && Lone(cfg, c, o.th, q') && Balances(c, th, q, o, q') && (th.op.Start? || th.op.Return? ==> o.sc == sc)
            && (Accepted(cfg) && Tame(cfg) && Steady(cfg, c, th, q)
                && Kept(c, th) + InHand(th.op) + q <= Threshold(cfg) ==>
                  Steady(cfg, c, o.th, q') && o.freed == [])
  {
    hide AllocStep, RefillStep, ReturnStep, SpillStep, Steady, Threshold, Balances, RouteSize, Kept;
    var steady := Accepted(cfg) && Tame(cfg) && Steady(cfg, c, th, q)
        && Kept(c, th) + InHand(th.op) + q <= Threshold(cfg);
    if th.op.Start? || th.op.Hit? || th.op.Cold? {
      LoneAlloc(cfg, c, th, q, sc, ctr, raw);
      if steady { SteadyAlloc(cfg, c, th, q, sc, ctr, raw); }
    } else if th.op.Return? {
      LoneReturn(cfg, c, th, q, sc, ctr);
      if steady { SteadyReturn(cfg, c, th, q, sc, ctr); }
    } else if Allocating(th.op) {
      LoneRefill(cfg, c, th, sc, ctr);
      if steady { SteadyRefill(cfg, c, th, sc, ctr); }
    } else {
      if th.op.Spill? || th.op.SpillCount? { LoneSpill(cfg, c, th, sc, ctr); } else { LonePlace(cfg, c, th, sc, ctr); }
      if steady { SteadySpill(cfg, c, th, sc, ctr); }
    }
  }

  /** What a step of the machine does to the numbers. */
  ghost predicate Grows(cfg: Settings, c: nat, s: State, s': State, t: nat)
    requires LoneState(cfg, c, s, t)
  {
    && LoneState(cfg, c, s', t)
    && (Existing(s', t, c) <= Existing(s, t, c) || Existing(s', t, c) == Sum(s'.handles, LiveOne()))
    && (SteadyState(cfg, c, s, t) && (Accepted(cfg) && Tame(cfg) ==> Existing(s, t, c) <= Threshold(cfg)) ==>
          SteadyState(cfg, c, s', t))
  }

  lemma GoGrows(cfg: Settings, c: nat, s: State, e: Event)
    requires Enabled(s, e) && e.a.Go? && LoneState(cfg, c, s, e.t)
    ensures Grows(cfg, c, s, Step(s, e), e.t)
  {
    hide Sum, Step, Enabled, Micro, Lone, Balances, Steady, Threshold, Kept, InHand, Pausing, PoolOf, ClassOf, Shaped;
    GoParts(s, e);
    var th := s.threads[e.t];
    var p, d := PoolOf(th.op), ClassOf(th.op);
    var q, sc := |s.pools[0].classes[c].queue|, s.pools[p].classes[d];
    var o := Micro(s.cfgs[p], th, sc, s.pools[p].ctr, e.a.raw);
    if Pausing(th.op) {
      PauseGrows(cfg, c, s, e);
    } else {
      WorksOnClass(cfg, c, th, q);
      LoneMicro(cfg, c, th, q, sc, s.pools[p].ctr, e.a.raw);
      OneMade(s.handles, o, c, th, q, |Step(s, e).pools[0].classes[c].queue|);
    }
  }

  lemma PauseGrows(cfg: Settings, c: nat, s: State, e: Event)
    requires Enabled(s, e) && e.a.Go? && LoneState(cfg, c, s, e.t) && Pausing(s.threads[e.t].op)
    ensures Grows(cfg, c, s, Step(s, e), e.t)
  {
    hide Sum, Step, Enabled, Micro, Lone, Steady, Threshold, Kept, InHand;
    GoParts(s, e);
    var th := s.threads[e.t];
    var p, d := PoolOf(th.op), ClassOf(th.op);
    LonePause(s.cfgs[p], th, s.pools[p].classes[d], s.pools[p].ctr, e.a.raw);
    PausedAlike(cfg, c, th, Step(s, e).threads[e.t], |s.pools[0].classes[c].queue|);
  }

  lemma WorksOnClass(cfg: Settings, c: nat, th: Thread, q: nat)
    requires Lone(cfg, c, th, q) && !Pausing(th.op)
    ensures PoolOf(th.op) == 0 && (!th.op.Start? && !th.op.Return? ==> ClassOf(th.op) == c)
  {
  }

  lemma PausedAlike(cfg: Settings, c: nat, th: Thread, th': Thread, q: nat)
    requires Lone(cfg, c, th, q) && Pausing(th.op) && th'.tls == th.tls && Pausing(th'.op)
    ensures Lone(cfg, c, th', q) && Kept(c, th') == Kept(c, th) && InHand(th'.op) == InHand(th.op) == 0
    ensures Accepted(cfg) && Tame(cfg) ==> (Steady(cfg, c, th, q) <==> Steady(cfg, c, th', q))
  {
    hide Whole;
  }

  lemma OneMade(hs: seq<Handle>, o: Out, c: nat, th: Thread, q: nat, q': nat)
    requires Balances(c, th, q, o, q')
    ensures var hs' := if o.made.Some? then hs + [o.made.value] else hs;
            Sum(hs', LiveOne()) == Sum(hs, LiveOne()) + (if o.made.Some? then 1 else 0)
    ensures Kept(c, o.th) + InHand(o.th.op) + q' + |o.freed| + (if o.made.Some? then 1 else 0)
            == Kept(c, th) + InHand(th.op) + q + (if o.called then 1 else 0)
    ensures o.called ==> o.made.Some? && Kept(c, th) + InHand(th.op) + q == 0
    ensures o.made.Some? ==> o.made.value.pool == 0 && o.made.value.hint == c
  {
    if o.made.Some? { SumPush(hs, o.made.value, LiveOne()); }
  }

  /**
   The thread allocates from the class, returns to it, works on what it holds, resets, takes snapshots, or
   carries on.
   */
  ghost predicate Keeps(s: State, e: Event, c: nat) {
    || Pushes(s, e, 0, c) || Pops(e, 0, c)
    || (Neutral(s, e) && !e.a.IntoInner? && !e.a.BeginWarm? && !e.a.BeginDrain?)
  }

  lemma HandleStays(s: State, h: nat, b: Handle)
    requires h < |s.handles|
    ensures Sum(SetHandle(s, h, b).handles, LiveOne()) + LiveOne()(s.handles[h]) == Sum(s.handles, LiveOne())
            + LiveOne()(b)
  {
    SumUpdate(s.handles, h, b, LiveOne());
  }

  lemma WorkGrows(cfg: Settings, c: nat, s: State, e: Event)
    requires Enabled(s, e) && LoneState(cfg, c, s, e.t) && s.threads[e.t].op.Idle?
    requires e.a.Overwrite? || e.a.Append? || e.a.AssumeInit? || WritesWhole(s, e)
    ensures Grows(cfg, c, s, Step(s, e), e.t)
  {
    hide Sum, Micro, RouteSize, Lone, Steady, Threshold;
    HandleStays(s, e.a.h, Worked(s.handles[e.a.h], e.a));
  }

  lemma DropHolds(s: State, e: Event, c: nat)
    requires Inv(ANY, s) && Enabled(s, e) && Pushes(s, e, 0, c)
    ensures e.t < |s.threads| && s.threads[e.t].op.Idle? && LiveHandle(s, e.a.h) && |s.pools| == |s.cfgs|
    ensures Step(s, e) == Drop(s, e.t, e.a.h)
    ensures c < NUM_CLASSES ==> s.handles[e.a.h].slot.vec.Capacity() >= Boundary(c)
  {
    hide Micro, RouteSize, Worked, Drop;
    assert HandleOk(ANY, s.cfgs, s.handles[e.a.h]);
  }

  lemma DropGrows(cfg: Settings, c: nat, s: State, e: Event)
    requires Inv(ANY, s) && Enabled(s, e) && LoneState(cfg, c, s, e.t) && Pushes(s, e, 0, c)
    ensures Grows(cfg, c, s, Step(s, e), e.t)
  {
    hide Sum, Step, Enabled, Threshold, Inv, Whole;
    DropHolds(s, e, c);
    HandleStays(s, e.a.h, s.handles[e.a.h].(slot := Returned));
  }

  lemma BeginGrows(cfg: Settings, c: nat, s: State, e: Event)
    requires Enabled(s, e) && LoneState(cfg, c, s, e.t)
    requires Pops(e, 0, c) || e.a.NewPool? || e.a.BeginReset? || e.a.BeginSnapshot?
    ensures Grows(cfg, c, s, Step(s, e), e.t)
  {
    hide Sum, Micro, RouteSize, Worked, Threshold;
  }

  lemma StepGrows(cfg: Settings, c: nat, s: State, e: Event)
    requires Inv(ANY, s) && Enabled(s, e) && LoneState(cfg, c, s, e.t) && Keeps(s, e, c)
    ensures Grows(cfg, c, s, Step(s, e), e.t)
  {
    hide Step, Grows, LoneState;
    if e.a.Go? { GoGrows(cfg, c, s, e); }
    else if Pushes(s, e, 0, c) { DropGrows(cfg, c, s, e); }
    else if Pops(e, 0, c) || e.a.NewPool? || e.a.BeginReset? || e.a.BeginSnapshot? { BeginGrows(cfg, c, s, e); }
    else { WorkGrows(cfg, c, s, e); }
  }

  /** A run of thread `t` alone on class `c`, with at most `peak` buffers in use at every step. */
  ghost predicate LoneRun(s: State, es: seq<Event>, t: nat, c: nat, peak: nat)
    requires ValidRun(s, es)
    decreases |es|
  {
    && Sum(s.handles, LiveOne()) <= peak
    && (es == [] || (es[0].t == t && Keeps(s, es[0], c) && LoneRun(Step(s, es[0]), es[1..], t, c, peak)))
  }

  lemma {:induction false} RunGrows(cfg: Settings, c: nat, s: State, es: seq<Event>, t: nat, peak: nat)
    requires Inv(ANY, s) && ValidRun(s, es) && LoneState(cfg, c, s, t) && LoneRun(s, es, t, c, peak)
    requires Existing(s, t, c) <= peak
    ensures LoneState(cfg, c, After(s, es), t) && Existing(After(s, es), t, c) <= peak
    ensures SteadyState(cfg, c, s, t) && (Accepted(cfg) && Tame(cfg) ==> peak <= Threshold(cfg)) ==>
              SteadyState(cfg, c, After(s, es), t)
    decreases |es|
  {
    hide Step, Enabled, Keeps, Inv, Existing, LoneState, SteadyState, Threshold;
    if es == [] {
    } else {
      StepGrows(cfg, c, s, es[0]);
      StepKeepsInv(ANY, s, es[0]);
      RunGrows(cfg, c, Step(s, es[0]), es[1..], t, peak);
    }
  }

  /** A new pool, and thread `t` about to use it. */
  function NewlyMade(n: nat, t: nat, cfg: Settings): State {
    State([cfg], [NEW_POOL], Threads(n), [], [], 0)
  }

  lemma NewlyMadeReached(n: nat, t: nat, cfg: Settings)
    requires t < n && Accepted(cfg)
    ensures ValidRun(Initial(n), [Event(t, NewPool(cfg))])
    ensures After(Initial(n), [Event(t, NewPool(cfg))]) == NewlyMade(n, t, cfg)
  {
    hide Micro, RouteSize, Worked;
    RunSnoc(Initial(n), [], Event(t, NewPool(cfg)));
    assert [] + [Event(t, NewPool(cfg))] == [Event(t, NewPool(cfg))];
    assert Step(Initial(n), Event(t, NewPool(cfg))) == NewlyMade(n, t, cfg);
  }

  lemma NewlyMadeSteady(n: nat, t: nat, c: nat, cfg: Settings)
    requires t < n && c < NUM_CLASSES
    ensures LoneState(cfg, c, NewlyMade(n, t, cfg), t) && Existing(NewlyMade(n, t, cfg), t, c) == 0
    ensures SteadyState(cfg, c, NewlyMade(n, t, cfg), t)
  {
    assert NEW_POOL.classes[c] == EMPTY_CLASS;
    if Accepted(cfg) && Tame(cfg) { NoneWhole(cfg); }
    hide Whole;
  }

  lemma NoneWhole(cfg: Settings)
    requires Share(cfg) > 0
    ensures Whole(cfg, 0)
  {
  }

  /**
   No growth, step by step. Thread `t` makes a pool and then works on one class of it alone; other
   threads rest. However long the run and whatever the batch, at every step the buffers in use, cached,
   in hand and queued together are no more than were in use at once. With a tame batch and no more in
   use than the threshold, nothing is ever freed and the allocator is called at most once for each.
   */
  lemma NoGrowthStepByStep(n: nat, t: nat, c: nat, cfg: Settings, es: seq<Event>, peak: nat)
    requires t < n && c < NUM_CLASSES && Accepted(cfg)
    requires ValidRun(NewlyMade(n, t, cfg), es) && LoneRun(NewlyMade(n, t, cfg), es, t, c, peak)
    ensures ValidRun(Initial(n), [Event(t, NewPool(cfg))] + es)
    ensures var s := After(Initial(n), [Event(t, NewPool(cfg))] + es);
            && t < |s.threads| && HasClass(s, 0, c) && Existing(s, t, c) <= peak
            && (Tame(cfg) && peak <= Threshold(cfg) ==> s.freed == [] && s.created <= peak)
  {
    hide Step, Enabled, Inv, Existing, LoneRun, Threshold, ValidRun, After;
    NewlyMadeReached(n, t, cfg);
    RunJoin(Initial(n), [Event(t, NewPool(cfg))], es);
    ReachableOk(n, [Event(t, NewPool(cfg))]);
    NewlyMadeSteady(n, t, c, cfg);
    RunGrows(cfg, c, NewlyMade(n, t, cfg), es, t, peak);
  }
}
