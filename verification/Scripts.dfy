/**
 Concrete runs, told one step at a time: two threads on one pool, with only class 0 in use. Each
 lemma here adds an event to a run that starts from nothing, so whatever is told did happen.
 */
module Scripts {
  import opened Options
  import opened Memory
  import opened Routing
  import opened Config
  import opened Magazine
  import opened Stats
  import opened Machine
  import opened Safety

  /** What matters of the state: the two threads, class 0, the counters, the handles, how many buffers were made. */
  datatype Stage = Stage(a: Thread, b: Thread, sc: SharedClass, ctr: Totals, handles: seq<Handle>, created: nat)

  function Actor(g: Stage, t: nat): Thread {
    if t == 0 then g.a else g.b
  }

  function Recast(g: Stage, t: nat, th: Thread): Stage {
    if t == 0 then g.(a := th) else g.(b := th)
  }

  ghost predicate Shows(s: State, cfg: Settings, g: Stage) {
    && |s.cfgs| == 1 == |s.pools| && s.cfgs[0] == cfg
    && |s.threads| == 2 && s.threads[0] == g.a && s.threads[1] == g.b
    && |s.pools[0].classes| == NUM_CLASSES && s.pools[0].classes[0] == g.sc && s.pools[0].ctr == g.ctr
    && s.handles == g.handles && s.created == g.created
  }

  /** Some run shows this stage; if `unreset`, a run that never resets the counters. */
  ghost predicate Happens(cfg: Settings, g: Stage, unreset: bool) {
    exists es :: ValidRun(Initial(2), es) && Shows(After(Initial(2), es), cfg, g) && (unreset ==> NeverReset(es, 0))
  }

  lemma Unfold(cfg: Settings, g: Stage, unreset: bool) returns (es: seq<Event>)
    requires Happens(cfg, g, unreset)
    ensures ValidRun(Initial(2), es) && Shows(After(Initial(2), es), cfg, g) && (unreset ==> NeverReset(es, 0))
  {
    hide Step, Enabled, Shows;
    es :| ValidRun(Initial(2), es) && Shows(After(Initial(2), es), cfg, g) && (unreset ==> NeverReset(es, 0));
  }

  lemma Follow(cfg: Settings, g: Stage, unreset: bool, es: seq<Event>, e: Event, g': Stage)
    requires ValidRun(Initial(2), es) && (unreset ==> NeverReset(es, 0) && e.a != BeginReset(0))
    requires Enabled(After(Initial(2), es), e) && Shows(Step(After(Initial(2), es), e), cfg, g')
    ensures Happens(cfg, g', unreset)
  {
    hide Step, Enabled, Shows;
    RunSnoc(Initial(2), es, e);
    assert Shows(After(Initial(2), es + [e]), cfg, g');
  }

  lemma Opens(cfg: Settings)
    requires Accepted(cfg)
    ensures Happens(cfg, Stage(NEW_THREAD, NEW_THREAD, EMPTY_CLASS, ZERO_TOTALS, [], 0), true)
  {
    hide Micro, RouteSize, Worked, Drop;
    var e := Event(0, NewPool(cfg));
    assert ValidRun(Initial(2), []) && After(Initial(2), []) == Initial(2);
    assert Step(Initial(2), e).pools == [NEW_POOL];
    Follow(cfg, Stage(NEW_THREAD, NEW_THREAD, EMPTY_CLASS, ZERO_TOTALS, [], 0), true, [], e,
           Stage(NEW_THREAD, NEW_THREAD, EMPTY_CLASS, ZERO_TOTALS, [], 0));
  }

  // ── Carrying on ─────────────────────────────────────────────────────

  /** The stage after thread `t` has taken a step with outcome `o`. */
  function Played(g: Stage, t: nat, o: Out): Stage {
    Recast(g, t, o.th).(sc := o.sc, ctr := o.ctr, handles := if o.made.Some? then g.handles + [o.made.value]
                        else g.handles,
                        created := if o.called then g.created + 1 else g.created)
  }

  ghost predicate CanPlay(g: Stage, t: nat, raw: Vec) {
    && t < 2 && !Actor(g, t).op.Idle? && Shaped(Actor(g, t))
    && PoolOf(Actor(g, t).op) == 0 && ClassOf(Actor(g, t).op) == 0 && Supplied(Actor(g, t).op, g.created, raw)
  }

  lemma GoesFrom(s: State, cfg: Settings, g: Stage, t: nat, raw: Vec, o: Out)
    requires Shows(s, cfg, g) && CanPlay(g, t, raw) && o == Micro(cfg, Actor(g, t), g.sc, g.ctr, raw)
    ensures Enabled(s, Event(t, Go(raw))) && Shows(Step(s, Event(t, Go(raw))), cfg, Played(g, t, o))
  {
    hide Micro, Supplied, Shaped;
  }

  lemma Goes(cfg: Settings, g: Stage, unreset: bool, t: nat, raw: Vec, o: Out)
    requires Happens(cfg, g, unreset) && CanPlay(g, t, raw) && o == Micro(cfg, Actor(g, t), g.sc, g.ctr, raw)
    ensures Happens(cfg, Played(g, t, o), unreset)
  {
    hide Step, Enabled, Shows, CanPlay, Micro, Played;
    var es := Unfold(cfg, g, unreset);
    GoesFrom(After(Initial(2), es), cfg, g, t, raw, o);
    Follow(cfg, g, unreset, es, Event(t, Go(raw)), Played(g, t, o));
  }

  // ── Beginning something ─────────────────────────────────────────────

  function Began(g: Stage, t: nat, op: Op): Stage {
    Recast(g, t, Actor(g, t).(op := op))
  }

  lemma BeginsUpkeep(cfg: Settings, g: Stage, unreset: bool, t: nat, a: Action, op: Op)
    requires Happens(cfg, g, unreset) && t < 2 && Actor(g, t).op.Idle?
    requires || (a.BeginWarm? && a.pool == 0 && RouteSize(a.size) == Some(0) && op == WarmLoop(0, 0, a.count))
             || (a == BeginDrain(0) && op == Draining(0, 0, 0))
             || (a == BeginSnapshot(0) && op == Snapshotting(0, 0, ZERO_TOTALS, []))
             || (a == BeginReset(0) && op == Resetting(0, 0) && !unreset)
    ensures Happens(cfg, Began(g, t, op), unreset)
  {
    hide RouteSize, Micro, Worked, Drop;
    var es := Unfold(cfg, g, unreset);
    Follow(cfg, g, unreset, es, Event(t, a), Began(g, t, op));
  }

  lemma BeginsAlloc(cfg: Settings, g: Stage, unreset: bool, t: nat, r: Req)
    requires Happens(cfg, g, unreset) && t < 2 && Actor(g, t).op.Idle? && r.pool == 0 && r.size <= ISIZE_MAX
    ensures Happens(cfg, Began(g, t, Start(r)).(ctr := if cfg.track then g.ctr.(gets := g.ctr.gets + 1) else g.ctr),
                    unreset)
  {
    hide RouteSize, Micro, Worked, Drop;
    var es := Unfold(cfg, g, unreset);
    Follow(cfg, g, unreset, es, Event(t, BeginAlloc(r)),
           Began(g, t, Start(r)).(ctr := if cfg.track then g.ctr.(gets := g.ctr.gets + 1) else g.ctr));
  }

  /** After handle `h` of class 0 has been dropped. */
  function Dropped(cfg: Settings, g: Stage, t: nat, h: nat): Stage
    requires h < |g.handles| && g.handles[h].slot.Live?
  {
    Recast(g, t, Actor(g, t).(op := Return(0, 0, g.handles[h].slot.vec.Clear()), lost := 0))
    .(handles := g.handles[h := g.handles[h].(slot := Returned)],
      ctr := if cfg.track then g.ctr.(puts := g.ctr.puts + 1) else g.ctr)
  }

  lemma BeginsDrop(cfg: Settings, g: Stage, unreset: bool, t: nat, h: nat)
    requires Happens(cfg, g, unreset) && t < 2 && Actor(g, t).op.Idle? && h < |g.handles|
    requires g.handles[h].slot.Live? && g.handles[h].slot.vec.Valid() && g.handles[h].pool == 0 == g.handles[h].hint
    ensures Happens(cfg, Dropped(cfg, g, t, h), unreset)
  {
    hide RouteSize, Micro, Worked;
    var es := Unfold(cfg, g, unreset);
    Follow(cfg, g, unreset, es, Event(t, BeginDrop(h)), Dropped(cfg, g, t, h));
  }

  // ── Common passages ─────────────────────────────────────────────────

  /** A buffer of `size` bytes, all zero. */
  function Sheet(size: nat, id: nat): Vec {
    HeapAllocate(id, 0, size)
  }

  function Page(id: nat): Vec {
    Sheet(4096, id)
  }

  /** A zeroed buffer of class 0. */
  const PAGE_REQ: Req := Req(0, 0, false)

  lemma SheetOk(size: nat, id: nat)
    requires 4096 <= size <= ISIZE_MAX
    ensures Sheet(size, id).Valid() && Sheet(size, id).Capacity() == size
    ensures Sheet(size, id).id == id && Sheet(size, id).home == 0
    ensures AllocatorContract(Sheet(size, id), Boundary(0))
    ensures forall rem :: Supplied(WarmLoop(0, 0, rem), id, Sheet(size, id))
    ensures Supplied(Cold(PAGE_REQ, 0), id, Sheet(size, id))
  {
    HeapAllocatorLawful(id, 0, size);
  }

  lemma PageOk(id: nat)
    ensures Page(id).Valid() && Page(id).Capacity() == 4096 == Boundary(0) && Page(id).id == id && Page(id).home == 0
    ensures Supplied(Cold(PAGE_REQ, 0), id, Page(id))
  {
    SheetOk(4096, id);
  }

  /** Class 0 after one more buffer has been warmed into it. */
  function Warmed(g: Stage, size: nat): Stage {
    g.(sc := CountUp(Enqueue(g.sc, Sheet(size, g.created))), created := g.created + 1)
  }

  /** One step of a warm: queue a buffer, count it, or stop. */
  lemma WarmGoes(cfg: Settings, g: Stage, unreset: bool, t: nat, th: Thread, op: Op, size: nat)
    requires Happens(cfg, g, unreset) && t < 2 && |th.tls.caches| == NUM_CLASSES && Actor(g, t) == th.(op := op)
    requires op == WarmLoop(0, 0, 1) || op == WarmCount(0, 0, 0) || op == WarmLoop(0, 0, 0)
    requires op == WarmLoop(0, 0, 1) ==> |g.sc.queue| < cfg.maxBuffers
    requires 4096 <= size <= ISIZE_MAX
    ensures var next := if op.WarmCount? then WarmLoop(0, 0, 0) else if op.rem == 0 then Idle else WarmCount(0, 0, 0);
            var sc := if op.WarmCount? then CountUp(g.sc) else if op.rem == 0 then g.sc
                      else Enqueue(g.sc, Sheet(size, g.created));
            var created := if op == WarmLoop(0, 0, 1) then g.created + 1 else g.created;
            Happens(cfg, Recast(g, t, th.(op := next)).(sc := sc, created := created), unreset)
  {
    hide Happens, Sheet, CountUp, RouteSize;
    SheetOk(size, g.created);
    var raw := Sheet(size, g.created);
    Goes(cfg, g, unreset, t, raw, UpkeepStep(cfg, th.(op := op), g.sc, g.ctr, raw));
  }

  /** Thread `t` warms one buffer, undisturbed. */
  lemma WarmsOne(cfg: Settings, g: Stage, unreset: bool, t: nat, size: nat)
    requires Happens(cfg, g, unreset) && t < 2 && Actor(g, t).op.Idle? && |g.sc.queue| < cfg.maxBuffers
    requires |Actor(g, t).tls.caches| == NUM_CLASSES && 4096 <= size <= ISIZE_MAX
    ensures Happens(cfg, Warmed(g, size), unreset)
  {
    hide Happens, Sheet, CountUp, RouteSize, Enqueue;
    RouteSizeExact(0, 0);
    var th := Actor(g, t);
    BeginsUpkeep(cfg, g, unreset, t, BeginWarm(0, 1, 0), WarmLoop(0, 0, 1));
    var g1 := Began(g, t, WarmLoop(0, 0, 1));
    WarmGoes(cfg, g1, unreset, t, th, WarmLoop(0, 0, 1), size);
    var sc := Enqueue(g.sc, Sheet(size, g.created));
    var g2 := Began(g, t, WarmCount(0, 0, 0)).(sc := sc, created := g.created + 1);
    WarmGoes(cfg, g2, unreset, t, th, WarmCount(0, 0, 0), size);
    var g3 := Began(g, t, WarmLoop(0, 0, 0)).(sc := CountUp(sc), created := g.created + 1);
    WarmGoes(cfg, g3, unreset, t, th, WarmLoop(0, 0, 0), size);
  }
}
