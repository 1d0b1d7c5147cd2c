/** What one return can lose, and what it leaves for the next allocation, whatever other threads do meanwhile. */
module Returns {
  import opened Options
  import opened Sums
  import opened Memory
  import opened Routing
  import opened Config
  import opened Magazine
  import opened Stats
  import opened Machine
  import opened Invariant
  import opened Safety

  predicate Dealloc(op: Op) {
    op.Return? || op.Spill? || op.SpillCount? || op.Place? || op.OverflowCount?
  }

  // ── Other threads cannot touch a thread's caches or its operation ───

  lemma OthersLeaveThreadAlone(s: State, e: Event, t: nat)
    requires Enabled(s, e) && t < |s.threads| && e.t != t
    ensures |Step(s, e).threads| == |s.threads| && Step(s, e).threads[t] == s.threads[t]
  {
    hide Micro, RouteSize, Worked;
  }

  lemma CfgsStay(s: State, e: Event)
    requires Enabled(s, e)
    ensures |Step(s, e).threads| == |s.threads| && |Step(s, e).cfgs| >= |s.cfgs|
    ensures forall p :: 0 <= p < |s.cfgs| ==> Step(s, e).cfgs[p] == s.cfgs[p]
  {
    hide Micro, RouteSize, Worked;
  }

  lemma {:induction false} RunKeepsCfgs(s: State, es: seq<Event>)
    requires ValidRun(s, es)
    ensures |After(s, es).cfgs| >= |s.cfgs| && forall p :: 0 <= p < |s.cfgs| ==> After(s, es).cfgs[p] == s.cfgs[p]
    decreases |es|
  {
    hide Step, Enabled;
    if es == [] {
    } else {
      CfgsStay(s, es[0]);
      RunKeepsCfgs(Step(s, es[0]), es[1..]);
    }
  }

  predicate NoneBy(t: nat, es: seq<Event>) {
    forall k :: 0 <= k < |es| ==> es[k].t != t
  }

  lemma {:induction false} OthersRun(s: State, es: seq<Event>, t: nat)
    requires ValidRun(s, es) && NoneBy(t, es) && t < |s.threads|
    ensures |After(s, es).threads| == |s.threads| && After(s, es).threads[t] == s.threads[t]
    decreases |es|
  {
    hide Step, Enabled;
    if es == [] {
    } else {
      OthersLeaveThreadAlone(s, es[0], t);
      assert NoneBy(t, es[1..]);
      OthersRun(Step(s, es[0]), es[1..], t);
    }
  }

  // ── Bounded loss ────────────────────────────────────────────────────

  /** Buffers a step of a return frees, apart from those a rebind to another pool drops. */
  function FreedByReturn(s: State, e: Event): nat
    requires e.t < |s.threads|
    requires Dealloc(s.threads[e.t].op) && Shaped(s.threads[e.t]) && PoolOf(s.threads[e.t].op) < |s.cfgs|
    requires PoolOf(s.threads[e.t].op) < |s.pools|
             && ClassOf(s.threads[e.t].op) < |s.pools[PoolOf(s.threads[e.t].op)].classes|
  {
    var th := s.threads[e.t];
    var p := PoolOf(th.op);
    var sc := s.pools[p].classes[ClassOf(th.op)];
    if th.op.Return? then
      var d := Decide(th.op.vec.Capacity(), th.op.hint, s.cfgs[p].minSize);
      if d.Pooled? then 0 else |ReturnStep(s.cfgs[p], th, sc, s.pools[p].ctr).freed|
    else |SpillStep(s.cfgs[p], th, sc, s.pools[p].ctr).freed|
  }

  /** Thread `t` does nothing but one return; everyone else does as they like. */
  ghost predicate OneReturn(s: State, es: seq<Event>, t: nat)
    requires ValidRun(s, es)
    decreases |es|
  {
    es == [] ||
    ((es[0].t == t ==> es[0].a.Go? && Dealloc(s.threads[t].op)) && OneReturn(Step(s, es[0]), es[1..], t))
  }

  /** All that thread `t`'s steps free in the run, rebinding apart. */
  ghost function Loss(s: State, es: seq<Event>, t: nat): nat
    requires ValidRun(s, es) && OneReturn(s, es, t)
    decreases |es|
  {
    if es == [] then 0
    else (if es[0].t == t then FreedByReturn(s, es[0]) else 0) + Loss(Step(s, es[0]), es[1..], t)
  }

  /** Where a return to pool `p` may stand, and what it has lost so far. */
  ghost predicate LossSoFar(cfg: Settings, p: nat, th: Thread) {
    && th.lost <= 2 && (Modest(cfg) ==> th.lost <= 1)
    && (Dealloc(th.op) ==> th.op.pool == p) && (Dealloc(th.op) || th.op.Idle?)
    && (Tame(cfg) ==> !th.op.OverflowCount?)
    && (th.op.Place? ==> PlacesWell(cfg, th))
    && (cfg.minSize > ISIZE_MAX ==> th.lost <= 1 && (th.op.Idle? || th.op.Return?))
  }

  /** A modest return that has already lost a buffer finds room in its cache; so does every tame one. */
  ghost predicate PlacesWell(cfg: Settings, th: Thread)
    requires th.op.Place?
  {
    && th.op.c < |th.tls.caches|
    && ((Modest(cfg) && th.lost > 0) || Tame(cfg) ==> |th.tls.caches[th.op.c]| < th.tls.limit)
  }

  lemma MicroLoss(cfgs: seq<Settings>, th: Thread, sc: SharedClass, ctr: Totals, raw: Vec)
    requires ThreadOk(ANY, cfgs, th) && Shaped(th) && Dealloc(th.op)
    requires Accepted(cfgs[th.op.pool]) && LossSoFar(cfgs[th.op.pool], th.op.pool, th)
    ensures var cfg, o := cfgs[th.op.pool], Micro(cfgs[th.op.pool], th, sc, ctr, raw);
            && LossSoFar(cfg, th.op.pool, o.th)
            && (th.op.Return? && Decide(th.op.vec.Capacity(), th.op.hint, cfg.minSize).Pooled? ==> o.th.lost == th.lost)
            && (!(th.op.Return? && Decide(th.op.vec.Capacity(), th.op.hint, cfg.minSize).Pooled?) ==>
                  o.th.lost == th.lost + |o.freed|)
  {
    hide Decide, Parked, CountUp, Flatten;
    if th.op.Return? {
      DecideByHint(ANY, cfgs[th.op.pool], th.op.pool, th.op.hint, th.op.vec);
    } else if th.op.Spill? {
      assert CacheOk(ANY, cfgs[th.op.pool], th.op.pool, th.op.c, th.tls.caches[th.op.c]);
    }
  }

  lemma GoLoss(s: State, e: Event)
    requires Inv(ANY, s) && Enabled(s, e) && e.a.Go? && Dealloc(s.threads[e.t].op)
    requires LossSoFar(s.cfgs[s.threads[e.t].op.pool], s.threads[e.t].op.pool, s.threads[e.t])
    ensures var th, th' := s.threads[e.t], Step(s, e).threads[e.t];
            && th.op.pool < |s.cfgs| && LossSoFar(s.cfgs[th.op.pool], th.op.pool, th')
            && th'.lost == th.lost + FreedByReturn(s, e)
  {
    hide ReturnStep, SpillStep, AllocStep, RefillStep, UpkeepStep, Decide, OpOk;
    var th := s.threads[e.t];
    var p := th.op.pool;
    assert PoolOk(ANY, s.cfgs[p], p, s.pools[p]);
    MicroLoss(s.cfgs, th, s.pools[p].classes[ClassOf(th.op)], s.pools[p].ctr, e.a.raw);
  }

  lemma {:induction false} RunLoss(s: State, es: seq<Event>, t: nat, p: nat)
    requires Inv(ANY, s) && ValidRun(s, es) && OneReturn(s, es, t) && t < |s.threads| && p < |s.cfgs|
    requires LossSoFar(s.cfgs[p], p, s.threads[t])
    ensures |After(s, es).threads| == |s.threads|
    ensures LossSoFar(s.cfgs[p], p, After(s, es).threads[t])
    ensures After(s, es).threads[t].lost == s.threads[t].lost + Loss(s, es, t)
    decreases |es|
  {
    hide Step, Enabled, FreedByReturn, LossSoFar, Inv;
    if es == [] {
    } else {
      var s1 := Step(s, es[0]);
      StepKeepsInv(ANY, s, es[0]);
      CfgsStay(s, es[0]);
      if es[0].t == t {
        LossPool(s.cfgs[p], p, s.threads[t]);
        GoLoss(s, es[0]);
      } else {
        OthersLeaveThreadAlone(s, es[0], t);
      }
      RunLoss(s1, es[1..], t, p);
    }
  }

  lemma LossPool(cfg: Settings, p: nat, th: Thread)
    requires LossSoFar(cfg, p, th) && Dealloc(th.op)
    ensures th.op.pool == p
  {
  }

  /**
   One return frees at most two buffers, whatever the batch size and whatever other threads do
   in between; with a batch of at most the limit plus one it frees at most one, and also if no buffer
   is large enough to keep; and unless such a batch is empty, it always finds room in its own cache, so the
   queue is never asked to take the buffer.
   */
  lemma ReturnLosesLittle(n: nat, es0: seq<Event>, t: nat, es: seq<Event>)
    requires ValidRun(Initial(n), es0) && t < n
    requires var s := After(Initial(n), es0);
             && |s.threads| == n && s.threads[t].op.Return?
             && ValidRun(s, es) && OneReturn(s, es, t)
    ensures var s := After(Initial(n), es0);
            var p := s.threads[t].op.pool;
            && p < |s.cfgs| && |After(s, es).threads| == n
            && Loss(s, es, t) <= 2
            && (Modest(s.cfgs[p]) || s.cfgs[p].minSize > ISIZE_MAX ==> Loss(s, es, t) <= 1)
            && var th := After(s, es).threads[t];
            (Tame(s.cfgs[p]) ==>
               !th.op.OverflowCount? && (th.op.Place? ==>
                                           th.op.c < |th.tls.caches| && |th.tls.caches[th.op.c]| < th.tls.limit))
  {
    hide Step, Enabled, Loss, OneReturn;
    ReachableOk(n, es0);
    var s := After(Initial(n), es0);
    assert ThreadOk(ANY, s.cfgs, s.threads[t]);
    RunLoss(s, es, t, s.threads[t].op.pool);
  }

  /**
   The last step of a return, whatever other threads have done to the queue by then: with room in the
   cache the buffer goes on top of it; else with room in the queue, to its tail, to be counted next; and
   only if neither has room is it freed, and nothing else ever is.
   */
  lemma PlaceFindsRoom(s: State, e: Event)
    requires Enabled(s, e) && e.a.Go? && s.threads[e.t].op.Place?
    ensures var th, s' := s.threads[e.t], Step(s, e);
            var p, c, v := th.op.pool, th.op.c, th.op.vec;
            && p < |s.pools| == |s'.pools| && p < |s.cfgs| && e.t < |s'.threads|
            && c < |th.tls.caches| == |s'.threads[e.t].tls.caches| && c < |s.pools[p].classes| == |s'.pools[p].classes|
            && var cache, cache' := th.tls.caches[c], s'.threads[e.t].tls.caches[c];
            var queue, queue' := s.pools[p].classes[c].queue, s'.pools[p].classes[c].queue;
            var fits, room := |cache| < th.tls.limit, |queue| < s.cfgs[p].maxBuffers;
            && (fits ==> cache' == cache + [v] && queue' == queue && s'.freed == s.freed && s'.threads[e.t].op.Idle?)
            && (!fits && room ==>
                  && cache' == cache && queue' == queue + [v] && s'.freed == s.freed
                  && s'.threads[e.t].op == OverflowCount(p, c))
            && (!fits && !room ==> cache' == cache && queue' == queue && s'.freed == s.freed + [v])
            && (FreedByReturn(s, e) == 0 <==> fits || room)
  {
    hide AllocStep, RefillStep, ReturnStep, UpkeepStep, SnapshotStep, RouteSize, Supplied, CountUp;
  }

  // ── Hot reuse ───────────────────────────────────────────────────────

  /** The buffer `id` is on its way into this thread's cache for class `c` of pool `p`. */
  ghost predicate OnItsWay(cfg: Settings, p: nat, c: nat, id: nat, th: Thread) {
    && c < NUM_CLASSES && Dealloc(th.op) && !th.op.OverflowCount? && th.op.pool == p && th.op.vec.id == id
    && (th.op.Return? ==> th.op.hint == c && th.op.vec.Capacity() >= cfg.minSize)
    && (!th.op.Return? ==> th.op.c == c)
  }

  /** The buffer `id` is the most recent in this thread's cache for class `c` of pool `p`. */
  predicate OnTop(p: nat, c: nat, id: nat, tls: Tls) {
    && c < NUM_CLASSES == |tls.caches| && tls.poolId == PoolId(p)
    && tls.caches[c] != [] && tls.caches[c][|tls.caches[c]| - 1].id == id
  }

  ghost predicate Coming(cfg: Settings, p: nat, c: nat, id: nat, th: Thread) {
    if th.op.Idle? then OnTop(p, c, id, th.tls) else OnItsWay(cfg, p, c, id, th)
  }

  lemma MicroComing(cfgs: seq<Settings>, th: Thread, sc: SharedClass, ctr: Totals, raw: Vec, p: nat, c: nat, id: nat)
    requires |cfgs| < TWO64 && ThreadOk(ANY, cfgs, th) && Shaped(th) && p < |cfgs| && Tame(cfgs[p])
    requires OnItsWay(cfgs[p], p, c, id, th)
    ensures Coming(cfgs[p], p, c, id, Micro(cfgs[p], th, sc, ctr, raw).th)
  {
    hide Parked, CountUp, Attach, Decide;
    if th.op.Return? { DecideByHint(ANY, cfgs[p], p, th.op.hint, th.op.vec); }
    if th.op.Place? { assert PoolId(p) == p + 1; }
  }

  lemma GoComing(s: State, e: Event, p: nat, c: nat, id: nat)
    requires Inv(ANY, s) && Enabled(s, e) && e.a.Go? && p < |s.cfgs| && Tame(s.cfgs[p])
    requires Coming(s.cfgs[p], p, c, id, s.threads[e.t])
    ensures Coming(s.cfgs[p], p, c, id, Step(s, e).threads[e.t])
  {
    hide Micro, OnTop, Parked;
    var th := s.threads[e.t];
    assert ThreadOk(ANY, s.cfgs, th);
    MicroComing(s.cfgs, th, s.pools[p].classes[ClassOf(th.op)], s.pools[p].ctr, e.a.raw, p, c, id);
  }

  /** Thread `t` only carries on with what it has begun. */
  predicate OnlyGoes(t: nat, es: seq<Event>) {
    forall k :: 0 <= k < |es| ==> es[k].t == t ==> es[k].a.Go?
  }

  lemma {:induction false} RunComing(s: State, es: seq<Event>, t: nat, p: nat, c: nat, id: nat)
    requires Inv(ANY, s) && ValidRun(s, es) && OnlyGoes(t, es) && t < |s.threads| && p < |s.cfgs| && Tame(s.cfgs[p])
    requires Coming(s.cfgs[p], p, c, id, s.threads[t])
    ensures |After(s, es).threads| == |s.threads| && Inv(ANY, After(s, es))
    ensures Coming(s.cfgs[p], p, c, id, After(s, es).threads[t])
    decreases |es|
  {
    hide Step, Enabled, Coming, Inv;
    if es == [] {
    } else {
      var s1 := Step(s, es[0]);
      StepKeepsInv(ANY, s, es[0]);
      CfgsStay(s, es[0]);
      assert OnlyGoes(t, es[1..]);
      if es[0].t == t { GoComing(s, es[0], p, c, id); } else { OthersLeaveThreadAlone(s, es[0], t); }
      RunComing(s1, es[1..], t, p, c, id);
    }
  }

  /** Beginning to allocate, popping the cache, handing out: the three steps of a cache hit. */
  lemma HitBegins(s: State, t: nat, r: Req)
    requires Enabled(s, Event(t, BeginAlloc(r)))
    ensures var th := Step(s, Event(t, BeginAlloc(r))).threads[t];
            |Step(s, Event(t, BeginAlloc(r))).threads| == |s.threads| && th == s.threads[t].(op := Start(r))
  {
    hide Micro, RouteSize, Worked;
  }

  lemma HitPops(s: State, t: nat, raw: Vec, r: Req, c: nat, id: nat)
    requires Enabled(s, Event(t, Go(raw))) && s.threads[t].op == Start(r)
    requires RouteSize(r.size) == Some(c) && OnTop(r.pool, c, id, s.threads[t].tls)
    ensures var op := Step(s, Event(t, Go(raw))).threads[t].op;
            |Step(s, Event(t, Go(raw))).threads| == |s.threads| && op.Hit? && op.r == r && op.c == c && op.vec.id == id
  {
    hide RouteSize;
  }

  lemma HitHandsOut(s: State, t: nat, raw: Vec)
    requires Enabled(s, Event(t, Go(raw))) && s.threads[t].op.Hit?
    ensures var s' := Step(s, Event(t, Go(raw)));
            && |s'.handles| == |s.handles| + 1
            && var h := s'.handles[|s.handles|];
            && h.slot.Live? && h.slot.vec.id == s.threads[t].op.vec.id && h.pool == s.threads[t].op.r.pool
            && s'.created == s.created
  {
    hide RouteSize;
  }

  /**
   Hot reuse. Thread `t` drops a pooled handle (s0 to s1) and finishes returning it (s2); it then
   begins an allocation of any size of that class on that pool (s3), pops (s4 to s5) and hands out
   (s6 to s7). Other threads interleave as they like. The very same buffer comes back, and the
   allocator is not called.
   */
  lemma HotReuse(n: nat, t: nat, h: nat, r: Req, s0: State, s1: State, es1: seq<Event>, s2: State, s3: State,
                 es2: seq<Event>, s4: State, raw1: Vec, s5: State, es3: seq<Event>, s6: State, raw2: Vec, s7: State)
    requires Reachable(n, s0) && t < |s0.threads|
    requires Enabled(s0, Event(t, BeginDrop(h))) && s1 == Step(s0, Event(t, BeginDrop(h)))
    requires var b := s0.handles[h];
             && b.hint < NUM_CLASSES && b.pool < |s0.cfgs| && Tame(s0.cfgs[b.pool])
             && b.slot.vec.Capacity() >= s0.cfgs[b.pool].minSize
             && r.pool == b.pool && RouteSize(r.size) == Some(b.hint)
    requires ValidRun(s1, es1) && OnlyGoes(t, es1) && s2 == After(s1, es1)
    requires Enabled(s2, Event(t, BeginAlloc(r))) && s3 == Step(s2, Event(t, BeginAlloc(r)))
    requires ValidRun(s3, es2) && NoneBy(t, es2) && s4 == After(s3, es2)
    requires Enabled(s4, Event(t, Go(raw1))) && s5 == Step(s4, Event(t, Go(raw1)))
    requires ValidRun(s5, es3) && NoneBy(t, es3) && s6 == After(s5, es3)
    requires Enabled(s6, Event(t, Go(raw2))) && s7 == Step(s6, Event(t, Go(raw2)))
    ensures && |s7.handles| == |s6.handles| + 1 && s7.created == s6.created
            && s7.handles[|s6.handles|].slot.Live?
            && s7.handles[|s6.handles|].slot.vec.id == s0.handles[h].slot.vec.id
  {
    hide Step, Enabled, RouteSize, Inv, Coming, Reachable, ValidRun, After;
    ReachableInv(n, s0);
    DropNeeds(s0, t, h);
    var p, c, id := s0.handles[h].pool, s0.handles[h].hint, s0.handles[h].slot.vec.id;
    StepKeepsInv(ANY, s0, Event(t, BeginDrop(h)));
    DropComes(s0, t, h);
    CfgsStay(s0, Event(t, BeginDrop(h)));
    RunComing(s1, es1, t, p, c, id);
    IdleOnTop(s2, t, r, s0.cfgs[p], p, c, id);
    HitBegins(s2, t, r);
    OthersRun(s3, es2, t);
    HitPops(s4, t, raw1, r, c, id);
    OthersRun(s5, es3, t);
    HitHandsOut(s6, t, raw2);
  }

  lemma DropNeeds(s: State, t: nat, h: nat)
    requires Enabled(s, Event(t, BeginDrop(h)))
    ensures h < |s.handles| && s.handles[h].slot.Live?
  {
  }

  lemma DropComes(s: State, t: nat, h: nat)
    requires Enabled(s, Event(t, BeginDrop(h)))
    requires s.handles[h].hint < NUM_CLASSES && s.handles[h].pool < |s.cfgs|
    requires s.handles[h].slot.vec.Capacity() >= s.cfgs[s.handles[h].pool].minSize
    ensures t < |s.threads| == |Step(s, Event(t, BeginDrop(h))).threads|
    ensures Coming(s.cfgs[s.handles[h].pool], s.handles[h].pool, s.handles[h].hint, s.handles[h].slot.vec.id,
                   Step(s, Event(t, BeginDrop(h))).threads[t])
  {
    hide Micro, RouteSize, Worked;
  }

  lemma IdleOnTop(s: State, t: nat, r: Req, cfg: Settings, p: nat, c: nat, id: nat)
    requires Enabled(s, Event(t, BeginAlloc(r))) && Coming(cfg, p, c, id, s.threads[t])
    ensures OnTop(p, c, id, s.threads[t].tls)
  {
    hide RouteSize;
  }
}
