/**
 Unique ownership and conservation. Give every buffer identity an arbitrary weight; the
 total weight over all the places a buffer can be is at all times the total weight of the
 buffers ever created. Weight one everywhere counts buffers; weight one on a single
 identity says that buffer is in exactly one place.
 */
module Ownership {
  import opened Sums
  import opened Memory
  import opened Routing
  import opened Config
  import opened Magazine
  import opened Stats
  import opened Machine

  type Weight = nat -> nat

  function VecW(w: Weight): Vec -> nat {
    (v: Vec) => w(v.id)
  }

  function VecsW(w: Weight): seq<Vec> -> nat {
    (vs: seq<Vec>) => Sum(vs, VecW(w))
  }

  function ClassW(w: Weight): SharedClass -> nat {
    (sc: SharedClass) => Sum(sc.queue, VecW(w))
  }

  function PoolW(w: Weight): Pool -> nat {
    (p: Pool) => Sum(p.classes, ClassW(w))
  }

  function CachedW(w: Weight): Thread -> nat {
    (th: Thread) => Sum(th.tls.caches, VecsW(w))
  }

  function HandW(w: Weight): Thread -> nat {
    (th: Thread) => Sum(OpVecs(th.op), VecW(w))
  }

  function SlotW(slot: Slot, live: bool, w: Weight): nat {
    match slot
    case Live(v) => if live then w(v.id) else 0
    case Extracted(v) => if live then 0 else w(v.id)
    case Returned => 0
  }

  function LiveW(w: Weight): Handle -> nat {
    (h: Handle) => SlotW(h.slot, true, w)
  }

  function ExtractedW(w: Weight): Handle -> nat {
    (h: Handle) => SlotW(h.slot, false, w)
  }

  // The six places.
  function Shared(s: State, w: Weight): nat { Sum(s.pools, PoolW(w)) }
  function Cached(s: State, w: Weight): nat { Sum(s.threads, CachedW(w)) }
  function InFlight(s: State, w: Weight): nat { Sum(s.threads, HandW(w)) }
  function LiveIn(s: State, w: Weight): nat { Sum(s.handles, LiveW(w)) }
  function ExtractedIn(s: State, w: Weight): nat { Sum(s.handles, ExtractedW(w)) }
  function Freed(s: State, w: Weight): nat { Sum(s.freed, VecW(w)) }

  function Total(s: State, w: Weight): nat {
    Shared(s, w) + Cached(s, w) + InFlight(s, w) + LiveIn(s, w) + ExtractedIn(s, w) + Freed(s, w)
  }

  // ── One step of one thread ──────────────────────────────────────────

  function TlsTotal(tls: Tls, w: Weight): nat {
    Sum(tls.caches, VecsW(w))
  }

  lemma CacheSetW(tls: Tls, c: nat, cache: seq<Vec>, w: Weight)
    requires c < |tls.caches|
    ensures TlsTotal(WithCache(tls, c, cache), w) + Sum(tls.caches[c], VecW(w)) == TlsTotal(tls, w)
            + Sum(cache, VecW(w))
  {
    SumUpdate(tls.caches, c, cache, VecsW(w));
  }

  lemma EmptyW(id: nat, limit: nat, w: Weight)
    ensures TlsTotal(Tls(id, EMPTY_CACHES, limit), w) == 0
  {
    forall k | 0 <= k < |EMPTY_CACHES| ensures VecsW(w)(EMPTY_CACHES[k]) == 0 {
      assert EMPTY_CACHES[k] == [];
    }
    SumZero(EMPTY_CACHES, VecsW(w));
  }

  lemma AttachW(tls: Tls, id: nat, limit: nat, w: Weight)
    ensures var b := Attach(tls, id, limit);
            TlsTotal(b.tls, w) + Sum(b.freed, VecW(w)) == TlsTotal(tls, w)
  {
    if tls.poolId != id {
      SumFlatten(tls.caches, VecW(w), VecsW(w));
      EmptyW(id, limit, w);
    }
  }

  /** Weight of what a step starts from and of what it leaves behind. */
  function Before(th: Thread, sc: SharedClass, w: Weight): nat {
    TlsTotal(th.tls, w) + Sum(OpVecs(th.op), VecW(w)) + Sum(sc.queue, VecW(w))
  }

  function Behind(o: Out, w: Weight): nat {
    Before(o.th, o.sc, w) + Sum(o.freed, VecW(w)) + if o.made.Some? then LiveW(w)(o.made.value) else 0
  }

  ghost predicate Conserves(th: Thread, sc: SharedClass, raw: Vec, o: Out, w: Weight) {
    && Before(th, sc, w) + (if o.called then w(raw.id) else 0) == Behind(o, w)
    && (o.made.Some? ==> o.made.value.slot.Live?)
    && (o.called ==> th.op.Oversize? || th.op.Cold? || th.op.WarmLoop?)
  }

  lemma NoneW(w: Weight)
    ensures Sum([], VecW(w)) == 0
  {
  }

  lemma OneW(v: Vec, w: Weight)
    ensures Sum([v], VecW(w)) == w(v.id)
  {
    SumSingle(v, VecW(w));
  }

  lemma TwoW(v: Vec, u: Vec, w: Weight)
    ensures Sum([v, u], VecW(w)) == w(v.id) + w(u.id)
  {
    SumPush([v], u, VecW(w));
    OneW(v, w);
    assert [v] + [u] == [v, u];
  }

  lemma PushW(vs: seq<Vec>, v: Vec, w: Weight)
    ensures Sum(vs + [v], VecW(w)) == Sum(vs, VecW(w)) + w(v.id)
  {
    SumPush(vs, v, VecW(w));
  }

  /** Taking the first or the last buffer. */
  lemma TakeW(vs: seq<Vec>, w: Weight)
    requires vs != []
    ensures Sum(vs, VecW(w)) == Sum(vs[1..], VecW(w)) + w(vs[0].id)
    ensures Sum(vs, VecW(w)) == Sum(vs[..|vs| - 1], VecW(w)) + w(vs[|vs| - 1].id)
  {
    SumPop(vs, VecW(w));
  }

  lemma StartConserves(cfg: Settings, th: Thread, sc: SharedClass, ctr: Totals, raw: Vec, w: Weight)
    requires Shaped(th) && th.op.Start?
    ensures Conserves(th, sc, raw, AllocStep(cfg, th, sc, ctr, raw), w)
  {
    hide Sum, RouteSize, PoolId;
    NoneW(w);
    var r := th.op.r;
    if RouteSize(r.size).Some? {
      var c := RouteSize(r.size).value;
      AttachW(th.tls, PoolId(r.pool), cfg.limit, w);
      var b := Attach(th.tls, PoolId(r.pool), cfg.limit);
      var cache := b.tls.caches[c];
      if cache != [] {
        TakeW(cache, w);
        CacheSetW(b.tls, c, cache[..|cache| - 1], w);
        OneW(cache[|cache| - 1], w);
      }
    }
  }

  lemma HandOutConserves(cfg: Settings, th: Thread, sc: SharedClass, ctr: Totals, raw: Vec, w: Weight)
    requires Shaped(th) && (th.op.Oversize? || th.op.Hit? || th.op.Cold?)
    ensures Conserves(th, sc, raw, AllocStep(cfg, th, sc, ctr, raw), w)
  {
    hide Sum;
    NoneW(w);
    if th.op.Hit? { OneW(th.op.vec, w); }
  }

  lemma RefillConserves(cfg: Settings, th: Thread, sc: SharedClass, ctr: Totals, raw: Vec, w: Weight)
    requires Shaped(th) && (th.op.RefillPop? || th.op.RefillFirst? || th.op.RefillLoop?)
    ensures Conserves(th, sc, raw, RefillStep(cfg, th, sc, ctr), w)
  {
    hide Sum;
    NoneW(w);
    if sc.queue != [] {
      TakeW(sc.queue, w);
      OneW(sc.queue[0], w);
      if th.op.RefillLoop? { TwoW(th.op.vec, sc.queue[0], w); }
    }
    if !th.op.RefillPop? { OneW(th.op.vec, w); }
  }

  lemma RefillMoreConserves(cfg: Settings, th: Thread, sc: SharedClass, ctr: Totals, raw: Vec, w: Weight)
    requires Shaped(th) && th.op.RefillMore?
    ensures Conserves(th, sc, raw, RefillStep(cfg, th, sc, ctr), w)
  {
    hide Sum;
    NoneW(w);
    var cache := th.tls.caches[th.op.c];
    PushW(cache, th.op.next, w);
    CacheSetW(th.tls, th.op.c, cache + [th.op.next], w);
    OneW(th.op.vec, w);
    TwoW(th.op.vec, th.op.next, w);
  }

  lemma ReturnConserves(cfg: Settings, th: Thread, sc: SharedClass, ctr: Totals, raw: Vec, w: Weight)
    requires Shaped(th) && th.op.Return?
    ensures Conserves(th, sc, raw, ReturnStep(cfg, th, sc, ctr), w)
  {
    hide Sum, Decide, PoolId;
    NoneW(w);
    OneW(th.op.vec, w);
    AttachW(th.tls, PoolId(th.op.pool), cfg.limit, w);
  }

  lemma SpillConserves(cfg: Settings, th: Thread, sc: SharedClass, ctr: Totals, raw: Vec, w: Weight)
    requires Shaped(th) && (th.op.Spill? || th.op.SpillCount?)
    ensures Conserves(th, sc, raw, SpillStep(cfg, th, sc, ctr), w)
  {
    hide Sum;
    NoneW(w);
    var cache := th.tls.caches[th.op.c];
    if th.op.Spill? && cache != [] {
      TakeW(cache, w);
      CacheSetW(th.tls, th.op.c, cache[..|cache| - 1], w);
      PushW(sc.queue, cache[|cache| - 1], w);
      OneW(cache[|cache| - 1], w);
    }
  }

  lemma PlaceConserves(cfg: Settings, th: Thread, sc: SharedClass, ctr: Totals, raw: Vec, w: Weight)
    requires Shaped(th) && (th.op.Place? || th.op.OverflowCount?)
    ensures Conserves(th, sc, raw, SpillStep(cfg, th, sc, ctr), w)
  {
    hide Sum;
    NoneW(w);
    if th.op.Place? {
      var cache, v := th.tls.caches[th.op.c], th.op.vec;
      PushW(cache, v, w);
      CacheSetW(th.tls, th.op.c, cache + [v], w);
      PushW(sc.queue, v, w);
      OneW(v, w);
    }
  }

  lemma UpkeepConserves(cfg: Settings, th: Thread, sc: SharedClass, ctr: Totals, raw: Vec, w: Weight)
    requires Shaped(th)
    requires th.op.WarmLoop? || th.op.WarmCount? || th.op.Draining? || th.op.DrainStore? || th.op.Resetting?
    ensures Conserves(th, sc, raw, UpkeepStep(cfg, th, sc, ctr, raw), w)
  {
    hide Sum, ZeroCounter;
    NoneW(w);
    if th.op.WarmLoop? {
      PushW(sc.queue, raw, w);
      OneW(raw, w);
    } else if th.op.Draining? && sc.queue != [] {
      TakeW(sc.queue, w);
      OneW(sc.queue[0], w);
    }
  }

  lemma SnapshotConserves(th: Thread, sc: SharedClass, ctr: Totals, raw: Vec, w: Weight)
    requires Shaped(th) && th.op.Snapshotting?
    ensures Conserves(th, sc, raw, SnapshotStep(th, sc, ctr), w)
  {
    hide Sum, LoadCounter;
    NoneW(w);
  }

  lemma MicroConserves(cfg: Settings, th: Thread, sc: SharedClass, ctr: Totals, raw: Vec, w: Weight)
    requires Shaped(th) && !th.op.Idle?
    ensures Conserves(th, sc, raw, Micro(cfg, th, sc, ctr, raw), w)
  {
    hide Conserves, AllocStep, RefillStep, ReturnStep, SpillStep, UpkeepStep, SnapshotStep;
    if th.op.Start? { StartConserves(cfg, th, sc, ctr, raw, w); }
    else if th.op.Oversize? || th.op.Hit? || th.op.Cold? { HandOutConserves(cfg, th, sc, ctr, raw, w); }
    else if th.op.Return? { ReturnConserves(cfg, th, sc, ctr, raw, w); }
    else if th.op.RefillPop? || th.op.RefillFirst? || th.op.RefillLoop? { RefillConserves(cfg, th, sc, ctr, raw, w); }
    else if th.op.RefillMore? { RefillMoreConserves(cfg, th, sc, ctr, raw, w); }
    else if th.op.Spill? || th.op.SpillCount? { SpillConserves(cfg, th, sc, ctr, raw, w); }
    else if th.op.Place? || th.op.OverflowCount? { PlaceConserves(cfg, th, sc, ctr, raw, w); }
    else if th.op.Snapshotting? { SnapshotConserves(th, sc, ctr, raw, w); }
    else { UpkeepConserves(cfg, th, sc, ctr, raw, w); }
  }

  // ── Steps of the whole system ───────────────────────────────────────

  lemma MergeW(s: State, t: nat, p: nat, c: nat, o: Out, w: Weight)
    requires t < |s.threads| && p < |s.pools| && c < |s.pools[p].classes|
    requires o.made.Some? ==> o.made.value.slot.Live?
    ensures Total(Merge(s, t, p, c, o), w) + Before(s.threads[t], s.pools[p].classes[c], w) == Total(s, w)
            + Behind(o, w)
    ensures Merge(s, t, p, c, o).created == s.created + if o.called then 1 else 0
  {
    hide Sum;
    var pool' := Pool(s.pools[p].classes[c := o.sc], o.ctr);
    SumUpdate(s.pools[p].classes, c, o.sc, ClassW(w));
    SumUpdate(s.pools, p, pool', PoolW(w));
    SumUpdate(s.threads, t, o.th, CachedW(w));
    SumUpdate(s.threads, t, o.th, HandW(w));
    SumAppend(s.freed, o.freed, VecW(w));
    if o.made.Some? {
      SumPush(s.handles, o.made.value, LiveW(w));
      SumPush(s.handles, o.made.value, ExtractedW(w));
    }
  }

  lemma GoConserves(s: State, e: Event, w: Weight)
    requires Enabled(s, e) && e.a.Go?
    ensures Total(Step(s, e), w) == Total(s, w) + (if Step(s, e).created > s.created then w(s.created) else 0)
    ensures Step(s, e).created <= s.created + 1
  {
    hide Total, Merge, Before, Behind, Micro, AllocStep, RefillStep, ReturnStep, SpillStep, UpkeepStep, SnapshotStep;
    var th := s.threads[e.t];
    var p, c := PoolOf(th.op), ClassOf(th.op);
    var o := Micro(s.cfgs[p], th, s.pools[p].classes[c], s.pools[p].ctr, e.a.raw);
    MicroConserves(s.cfgs[p], th, s.pools[p].classes[c], s.pools[p].ctr, e.a.raw, w);
    MergeW(s, e.t, p, c, o, w);
  }

  /** Changing a thread's operation, a pool's counters or a handle moves only what they hold. */
  lemma ThreadSetW(s: State, t: nat, th: Thread, w: Weight)
    requires t < |s.threads|
    ensures Total(s.(threads := s.threads[t := th]), w) + CachedW(w)(s.threads[t]) + HandW(w)(s.threads[t])
            == Total(s, w) + CachedW(w)(th) + HandW(w)(th)
  {
    SumUpdate(s.threads, t, th, CachedW(w));
    SumUpdate(s.threads, t, th, HandW(w));
  }

  lemma TotalsSetW(s: State, p: nat, ctr: Totals, w: Weight)
    requires p < |s.pools|
    ensures Total(SetTotals(s, p, ctr), w) == Total(s, w)
  {
    SumUpdate(s.pools, p, s.pools[p].(ctr := ctr), PoolW(w));
  }

  lemma HandleSetW(s: State, h: nat, handle: Handle, w: Weight)
    requires h < |s.handles|
    ensures Total(SetHandle(s, h, handle), w) + LiveW(w)(s.handles[h]) + ExtractedW(w)(s.handles[h])
            == Total(s, w) + LiveW(w)(handle) + ExtractedW(w)(handle)
  {
    SumUpdate(s.handles, h, handle, LiveW(w));
    SumUpdate(s.handles, h, handle, ExtractedW(w));
  }

  lemma DropConserves(s: State, t: nat, h: nat, w: Weight)
    requires t < |s.threads| && LiveHandle(s, h) && |s.pools| == |s.cfgs| && s.threads[t].op.Idle?
    ensures Total(Drop(s, t, h), w) == Total(s, w) && Drop(s, t, h).created == s.created
  {
    hide Sum, Total;
    var b := s.handles[h];
    var ctr := s.pools[b.pool].ctr;
    var ctr' := if s.cfgs[b.pool].track then ctr.(puts := ctr.puts + 1) else ctr;
    var s1 := SetHandle(s, h, b.(slot := Returned));
    var s2 := SetTotals(s1, b.pool, ctr');
    var th := s.threads[t].(op := Return(b.pool, b.hint, b.slot.vec.Clear()), lost := 0);
    HandleSetW(s, h, b.(slot := Returned), w);
    TotalsSetW(s1, b.pool, ctr', w);
    ThreadSetW(s2, t, th, w);
    NoneW(w);
    OneW(b.slot.vec.Clear(), w);
  }

  lemma ExitConserves(s: State, t: nat, w: Weight)
    requires t < |s.threads| && s.threads[t].op.Idle?
    ensures Total(Step(s, Event(t, Exit)), w) == Total(s, w) && Step(s, Event(t, Exit)).created == s.created
  {
    hide Sum, Micro, RouteSize, Drop, Worked;
    NoneW(w);
    var caches := s.threads[t].tls.caches;
    ThreadSetW(s, t, NEW_THREAD, w);
    EmptyW(0, 0, w);
    SumFlatten(caches, VecW(w), VecsW(w));
    SumAppend(s.freed, Flatten(caches), VecW(w));
  }

  lemma NewPoolConserves(s: State, e: Event, w: Weight)
    requires Enabled(s, e) && e.a.NewPool?
    ensures Total(Step(s, e), w) == Total(s, w) && Step(s, e).created == s.created
  {
    hide Micro, RouteSize, Drop, Worked;
    SumPush(s.pools, NEW_POOL, PoolW(w));
    SumZero(NEW_POOL.classes, ClassW(w));
  }

  lemma BeginConserves(s: State, e: Event, w: Weight)
    requires Enabled(s, e) && (e.a.BeginAlloc? || e.a.BeginWarm? || e.a.BeginDrain? || e.a.BeginReset?
                               || e.a.BeginSnapshot?)
    ensures Total(Step(s, e), w) == Total(s, w) && Step(s, e).created == s.created
  {
    hide Sum, Total, RouteSize, Micro, Drop, Worked;
    var th := s.threads[e.t];
    NoneW(w);
    if e.a.BeginAlloc? {
      var p := e.a.r.pool;
      var ctr := s.pools[p].ctr;
      var ctr' := if s.cfgs[p].track then ctr.(gets := ctr.gets + 1) else ctr;
      TotalsSetW(s, p, ctr', w);
      ThreadSetW(SetTotals(s, p, ctr'), e.t, th.(op := Start(e.a.r)), w);
    } else {
      ThreadSetW(s, e.t, Step(s, e).threads[e.t], w);
    }
  }

  lemma WorkConserves(s: State, e: Event, w: Weight)
    requires Enabled(s, e)
    requires e.a.Overwrite? || e.a.Append? || e.a.WriteFromSlice? || e.a.AssumeInit? || e.a.IntoInner?
    requires e.a.WriteFromSlice? ==> |e.a.data| == s.handles[e.a.h].slot.vec.len
    ensures Total(Step(s, e), w) == Total(s, w) && Step(s, e).created == s.created
  {
    hide Sum, Total, RouteSize, Micro, Drop;
    HandleSetW(s, e.a.h, Worked(s.handles[e.a.h], e.a), w);
  }

  /** Each step, by any thread, creates at most the next buffer and moves everything else from place to place. */
  lemma StepConserves(s: State, e: Event, w: Weight)
    requires Enabled(s, e)
    ensures Total(Step(s, e), w) == Total(s, w) + (if Step(s, e).created > s.created then w(s.created) else 0)
    ensures s.created <= Step(s, e).created <= s.created + 1
  {
    hide Total, Micro, RouteSize, Drop, Worked;
    if e.a.Go? { GoConserves(s, e, w); }
    else if e.a.NewPool? { NewPoolConserves(s, e, w); }
    else if e.a.Exit? { ExitConserves(s, e.t, w); }
    else if e.a.BeginAlloc? || e.a.BeginWarm? || e.a.BeginDrain? || e.a.BeginReset? || e.a.BeginSnapshot? {
      BeginConserves(s, e, w);
    }
    else if e.a.BeginDrop? || (e.a.WriteFromSlice? && |e.a.data| != s.handles[e.a.h].slot.vec.len) {
      DropConserves(s, e.t, e.a.h, w);
    } else { WorkConserves(s, e, w); }
  }

  lemma {:induction false} RunConserves(s: State, es: seq<Event>, w: Weight)
    requires ValidRun(s, es) && Total(s, w) == SumBelow(s.created, w)
    ensures Total(After(s, es), w) == SumBelow(After(s, es).created, w)
    decreases |es|
  {
    hide Step, Enabled, Total;
    if es == [] {
    } else {
      StepConserves(s, es[0], w);
      RunConserves(Step(s, es[0]), es[1..], w);
    }
  }

  /** Conservation in every reachable state, whatever the weights. */
  lemma Conservation(n: nat, es: seq<Event>, w: Weight)
    requires ValidRun(Initial(n), es)
    ensures Total(After(Initial(n), es), w) == SumBelow(After(Initial(n), es).created, w)
  {
    hide Step, Enabled;
    var s := Initial(n);
    forall t | 0 <= t < n ensures CachedW(w)(s.threads[t]) == 0 && HandW(w)(s.threads[t]) == 0 {
      EmptyW(0, 0, w);
    }
    SumZero(s.threads, CachedW(w));
    SumZero(s.threads, HandW(w));
    RunConserves(s, es, w);
  }

  // ── Two readings ────────────────────────────────────────────────────

  function One(): Weight {
    (id: nat) => 1
  }

  function Only(id: nat): Weight {
    (x: nat) => if x == id then 1 else 0
  }

  lemma {:induction false} SumBelowOne(n: nat)
    ensures SumBelow(n, One()) == n
  {
    if n == 0 {
    } else {
      SumBelowOne(n - 1);
    }
  }

  lemma {:induction false} SumBelowOnly(n: nat, id: nat)
    ensures SumBelow(n, Only(id)) == if id < n then 1 else 0
  {
    if n == 0 {
    } else {
      SumBelowOnly(n - 1, id);
    }
  }

  /** created = shared + cached + in flight + live + extracted + freed, after every step of every run. */
  lemma EveryBufferAccountedFor(n: nat, es: seq<Event>)
    requires ValidRun(Initial(n), es)
    ensures var s := After(Initial(n), es);
            s.created == Shared(s, One()) + Cached(s, One()) + InFlight(s, One())
                         + LiveIn(s, One()) + ExtractedIn(s, One()) + Freed(s, One())
  {
    Conservation(n, es, One());
    SumBelowOne(After(Initial(n), es).created);
  }

  /** A buffer is in exactly one of the six places if it was ever created, and nowhere otherwise. */
  lemma EveryBufferInOnePlace(n: nat, es: seq<Event>, id: nat)
    requires ValidRun(Initial(n), es)
    ensures var s := After(Initial(n), es);
            Shared(s, Only(id)) + Cached(s, Only(id)) + InFlight(s, Only(id))
            + LiveIn(s, Only(id)) + ExtractedIn(s, Only(id)) + Freed(s, Only(id)) == if id < s.created then 1 else 0
  {
    Conservation(n, es, Only(id));
    SumBelowOnly(After(Initial(n), es).created, id);
  }

  /** No two handles ever share a buffer, and a live handle's buffer is in no cache, no queue and not freed. */
  lemma LiveBuffersAreExclusive(n: nat, es: seq<Event>, i: nat, j: nat)
    requires ValidRun(Initial(n), es)
    requires var s := After(Initial(n), es); i < |s.handles| && j < |s.handles| && i != j && s.handles[i].slot.Live?
    ensures var s := After(Initial(n), es);
            var id := s.handles[i].slot.vec.id;
            && (s.handles[j].slot.Live? ==> s.handles[j].slot.vec.id != id)
            && (s.handles[j].slot.Extracted? ==> s.handles[j].slot.vec.id != id)
            && Shared(s, Only(id)) == Cached(s, Only(id)) == InFlight(s, Only(id)) == Freed(s, Only(id)) == 0
  {
    var s := After(Initial(n), es);
    var id := s.handles[i].slot.vec.id;
    hide Sum, Step, Enabled;
    EveryBufferInOnePlace(n, es, id);
    SumAt(s.handles, i, LiveW(Only(id)));
    SumAt(s.handles, j, ExtractedW(Only(id)));
    if i < j { SumTwo(s.handles, i, j, LiveW(Only(id))); } else { SumTwo(s.handles, j, i, LiveW(Only(id))); }
  }
}
