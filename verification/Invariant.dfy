/**
 The inductive invariant of the step machine: what is true of every buffer wherever it is,
 of every thread wherever it stands, and of every handle, in every reachable state.
 */
module Invariant {
  import opened Options
  import opened Memory
  import opened Routing
  import opened Config
  import opened Magazine
  import opened Stats
  import opened Machine

  /**
   Restrictions some results are stated under: no `warm` is ever called, or every allocation
   has exactly the capacity asked for and no handle grows. All invariants hold in every regime,
   the unrestricted one included.
   */
  datatype Regime = Regime(warmFree: bool, exact: bool)

  const ANY: Regime := Regime(false, false)

  ghost predicate Allowed(rg: Regime, s: State, e: Event)
    requires Enabled(s, e)
  {
    && (rg.warmFree ==> !e.a.BeginWarm?)
    && (rg.exact ==>
          match e.a
          case Go(raw) => ExactSupply(s.threads[e.t].op, raw)
          case Append(h, data, _) => s.handles[h].slot.vec.len + |data| <= s.handles[h].slot.vec.Capacity()
          case _ => true)
  }

  ghost predicate ExactSupply(op: Op, raw: Vec) {
    && (op.Cold? && op.c < NUM_CLASSES ==> raw.Capacity() == Boundary(op.c))
    && (op.WarmLoop? && op.c < NUM_CLASSES ==> raw.Capacity() == Boundary(op.c))
  }

  // ── Buffers ─────────────────────────────────────────────────────────

  /**
   A buffer held by pool `p` for class `c`, in a queue, a cache or a thread's hands: made for `p` and fit to
   be recycled.
   */
  ghost predicate Parked(rg: Regime, cfg: Settings, p: nat, c: nat, v: Vec)
    requires c < NUM_CLASSES
  {
    && Ready(c, v) && v.home == p
    && (rg.warmFree ==> v.Capacity() >= cfg.minSize)
    && (rg.exact ==> v.Capacity() == Boundary(c))
  }

  ghost predicate AllParked(rg: Regime, cfg: Settings, p: nat, c: nat, vs: seq<Vec>)
    requires c < NUM_CLASSES
  {
    forall k :: 0 <= k < |vs| ==> Parked(rg, cfg, p, c, vs[k])
  }

  ghost predicate ClassOk(rg: Regime, cfg: Settings, p: nat, c: nat, sc: SharedClass)
    requires c < NUM_CLASSES
  {
    |sc.queue| <= cfg.maxBuffers && AllParked(rg, cfg, p, c, sc.queue) && sc.count < TWO64
  }

  ghost predicate CacheOk(rg: Regime, cfg: Settings, p: nat, c: nat, cache: seq<Vec>)
    requires c < NUM_CLASSES
  {
    |cache| <= CacheBound(cfg) && AllParked(rg, cfg, p, c, cache)
  }

  // ── Threads ─────────────────────────────────────────────────────────

  ghost predicate TlsOk(rg: Regime, cfgs: seq<Settings>, tls: Tls) {
    && |tls.caches| == NUM_CLASSES && tls.poolId <= |cfgs|
    && (tls.poolId == 0 ==> tls.caches == EMPTY_CACHES)
    && (tls.poolId > 0 ==> TlsBound(rg, cfgs[tls.poolId - 1], tls.poolId - 1, tls))
  }

  /** Caches bound to pool `p`: its limit, and only its buffers. */
  ghost predicate TlsBound(rg: Regime, cfg: Settings, p: nat, tls: Tls) {
    && |tls.caches| == NUM_CLASSES && tls.poolId == p + 1 && tls.limit == cfg.limit
    && forall c :: 0 <= c < NUM_CLASSES ==> CacheOk(rg, cfg, p, c, tls.caches[c])
  }

  ghost predicate Routed(r: Req, c: nat) {
    c < NUM_CLASSES && RouteSize(r.size) == Some(c)
  }

  ghost predicate AllocOk(rg: Regime, cfg: Settings, tls: Tls, op: Op)
    requires Allocating(op) && |tls.caches| == NUM_CLASSES
  {
    var p := op.r.pool;
    match op
    case Start(r) => r.size <= ISIZE_MAX
    case Oversize(r) => RouteSize(r.size).None? && r.size <= ISIZE_MAX
    case Hit(r, c, v) => Routed(r, c) && Parked(rg, cfg, p, c, v)
    case RefillPop(r, c) => Routed(r, c) && TlsBound(rg, cfg, p, tls) && tls.caches[c] == []
    case RefillFirst(r, c, v) =>
      Routed(r, c) && TlsBound(rg, cfg, p, tls) && tls.caches[c] == [] && Parked(rg, cfg, p, c, v)
    case RefillLoop(r, c, v, rem) =>
      Routed(r, c) && TlsBound(rg, cfg, p, tls) && Parked(rg, cfg, p, c, v)
      && |tls.caches[c]| + rem <= CacheBound(cfg)
    case RefillMore(r, c, v, next, rem) =>
      Routed(r, c) && TlsBound(rg, cfg, p, tls) && Parked(rg, cfg, p, c, v) && Parked(rg, cfg, p, c, next)
      && |tls.caches[c]| + rem + 1 <= CacheBound(cfg)
    case Cold(r, c) => Routed(r, c)
  }

  /** A vector taken from a handle with hint `hint` of pool `p`. */
  ghost predicate Fits(rg: Regime, p: nat, hint: nat, v: Vec) {
    && v.Valid() && v.home == p
    && (hint < NUM_CLASSES ==> v.Capacity() >= Boundary(hint))
    && (rg.exact && hint < NUM_CLASSES ==> v.Capacity() == Boundary(hint))
  }

  ghost predicate ReturnOk(rg: Regime, cfg: Settings, tls: Tls, op: Op, lost: nat)
    requires op.Return? || op.Spill? || op.SpillCount? || op.Place? || op.OverflowCount?
  {
    match op
    case Return(p, hint, v) =>
      (hint < NUM_CLASSES || hint == OVERSIZE_HINT) && Fits(rg, p, hint, v) && v.len == 0 && lost == 0
    case Spill(p, c, v, rem) =>
      c < NUM_CLASSES && TlsBound(rg, cfg, p, tls) && Parked(rg, cfg, p, c, v) && lost == 0
      && (Tame(cfg) ==> rem > 0 || |tls.caches[c]| < cfg.limit)
    case SpillCount(p, c, v, rem) =>
      c < NUM_CLASSES && TlsBound(rg, cfg, p, tls) && Parked(rg, cfg, p, c, v) && lost == 0
      && (Tame(cfg) ==> |tls.caches[c]| < cfg.limit)
    case Place(p, c, v) =>
      c < NUM_CLASSES && TlsBound(rg, cfg, p, tls) && Parked(rg, cfg, p, c, v) && lost <= 1
      && (Tame(cfg) ==> |tls.caches[c]| < cfg.limit)
    case OverflowCount(_, c) => c < NUM_CLASSES && lost <= 1 && !Tame(cfg)
  }

  ghost predicate OpOk(rg: Regime, cfgs: seq<Settings>, tls: Tls, op: Op, lost: nat)
    requires |tls.caches| == NUM_CLASSES
  {
    if op.Idle? then lost <= 2
    else
      && PoolOf(op) < |cfgs|
      && if Allocating(op) then AllocOk(rg, cfgs[op.r.pool], tls, op)
         else if op.Return? || op.Spill? || op.SpillCount? || op.Place? || op.OverflowCount? then
           ReturnOk(rg, cfgs[op.pool], tls, op, lost)
         else if op.Resetting? || op.Snapshotting? then true
         else op.c < NUM_CLASSES && (op.WarmLoop? || op.WarmCount? ==> !rg.warmFree)
  }

  ghost predicate ThreadOk(rg: Regime, cfgs: seq<Settings>, th: Thread) {
    TlsOk(rg, cfgs, th.tls) && th.lost <= 2 && OpOk(rg, cfgs, th.tls, th.op, th.lost)
  }

  // ── Handles, pools, the whole state ─────────────────────────────────

  ghost predicate HandleOk(rg: Regime, cfgs: seq<Settings>, h: Handle) {
    && h.pool < |cfgs| && h.size <= ISIZE_MAX
    && RouteSize(h.size) == (if h.hint == OVERSIZE_HINT then None else Some(h.hint))
    && (h.slot.Live? ==> Fits(rg, h.pool, h.hint, h.slot.vec))
  }

  ghost predicate PoolOk(rg: Regime, cfg: Settings, p: nat, pool: Pool) {
    && Accepted(cfg) && |pool.classes| == NUM_CLASSES
    && forall c :: 0 <= c < NUM_CLASSES ==> ClassOk(rg, cfg, p, c, pool.classes[c])
  }

  ghost predicate Inv(rg: Regime, s: State) {
    && |s.pools| == |s.cfgs| < TWO64
    && (forall p :: 0 <= p < |s.pools| ==> PoolOk(rg, s.cfgs[p], p, s.pools[p]))
    && (forall t :: 0 <= t < |s.threads| ==> ThreadOk(rg, s.cfgs, s.threads[t]))
    && (forall h :: 0 <= h < |s.handles| ==> HandleOk(rg, s.cfgs, s.handles[h]))
  }

  // ── One step of one thread keeps it ─────────────────────────────────

  /** What every step must re-establish about the parts it touches. */
  ghost predicate OutOk(rg: Regime, cfgs: seq<Settings>, p: nat, c: nat, o: Out)
    requires p < |cfgs| && c < NUM_CLASSES
  {
    && ThreadOk(rg, cfgs, o.th) && ClassOk(rg, cfgs[p], p, c, o.sc)
    && (o.made.Some? ==> HandleOk(rg, cfgs, o.made.value) && FreshHandle(o.made.value))
  }

  /** A handle just made: as long as asked, and, if readable, zero throughout. */
  ghost predicate FreshHandle(h: Handle) {
    && h.slot.Live? && h.slot.vec.Valid() && h.slot.vec.len == h.size
    && (!h.uninit ==> h.slot.vec.Visible() == Zeros(h.size))
  }

  lemma AttachOk(rg: Regime, cfgs: seq<Settings>, tls: Tls, p: nat)
    requires TlsOk(rg, cfgs, tls) && p < |cfgs| < TWO64
    ensures TlsBound(rg, cfgs[p], p, Attach(tls, PoolId(p), cfgs[p].limit).tls)
  {
    assert PoolId(p) == p + 1;
    if tls.poolId != PoolId(p) {
      forall c | 0 <= c < NUM_CLASSES ensures CacheOk(rg, cfgs[p], p, c, EMPTY_CACHES[c]) {
        assert EMPTY_CACHES[c] == [];
      }
    }
  }

  lemma CacheChangeOk(rg: Regime, cfg: Settings, p: nat, tls: Tls, c: nat, cache: seq<Vec>)
    requires TlsBound(rg, cfg, p, tls) && c < NUM_CLASSES && CacheOk(rg, cfg, p, c, cache)
    ensures TlsBound(rg, cfg, p, WithCache(tls, c, cache))
  {
    forall d | 0 <= d < NUM_CLASSES ensures CacheOk(rg, cfg, p, d, WithCache(tls, c, cache).caches[d]) {}
  }

  lemma BoundIsOk(rg: Regime, cfgs: seq<Settings>, p: nat, tls: Tls)
    requires p < |cfgs| && TlsBound(rg, cfgs[p], p, tls)
    ensures TlsOk(rg, cfgs, tls)
  {
  }

  /** Popping or pushing within a cache. */
  lemma PopOk(rg: Regime, cfg: Settings, p: nat, c: nat, vs: seq<Vec>)
    requires c < NUM_CLASSES && vs != [] && AllParked(rg, cfg, p, c, vs)
    ensures AllParked(rg, cfg, p, c, vs[..|vs| - 1]) && Parked(rg, cfg, p, c, vs[|vs| - 1])
    ensures AllParked(rg, cfg, p, c, vs[1..]) && Parked(rg, cfg, p, c, vs[0])
  {
    var front, back := vs[..|vs| - 1], vs[1..];
    forall k | 0 <= k < |back| ensures Parked(rg, cfg, p, c, back[k]) { assert back[k] == vs[k + 1]; }
    forall k | 0 <= k < |front| ensures Parked(rg, cfg, p, c, front[k]) { assert front[k] == vs[k]; }
  }

  lemma PushOk(rg: Regime, cfg: Settings, p: nat, c: nat, vs: seq<Vec>, v: Vec)
    requires c < NUM_CLASSES && AllParked(rg, cfg, p, c, vs) && Parked(rg, cfg, p, c, v)
    ensures AllParked(rg, cfg, p, c, vs + [v])
  {
    forall k | 0 <= k < |vs + [v]| ensures Parked(rg, cfg, p, c, (vs + [v])[k]) {}
  }

  /** A parked buffer serves any request of its class. */
  lemma RecycleOk(rg: Regime, cfg: Settings, c: nat, v: Vec, r: Req)
    requires Routed(r, c) && Parked(rg, cfg, r.pool, c, v)
    ensures r.size <= v.Capacity()
    ensures Fits(rg, r.pool, c, Recycle(v, r)) && FreshHandle(Handle(r.pool, c, r.size, r.uninit, Live(Recycle(v, r))))
  {
    ResizeExposesZeros(v, r.size, Boundary(c));
  }

  lemma CutOk(r: Req, n: nat, raw: Vec)
    requires raw.Valid() && Meets(raw, n, r.uninit) && r.size <= n
    ensures r.size <= raw.Capacity()
    ensures FreshHandle(Handle(r.pool, OVERSIZE_HINT, r.size, r.uninit, Live(Cut(raw, r))))
    ensures Cut(raw, r).store == raw.store && Cut(raw, r).home == raw.home && Cut(raw, r).Valid()
  {
    if !r.uninit { TruncateExposesZeros(raw, n, r.size); }
  }

  lemma StartOk(rg: Regime, cfgs: seq<Settings>, th: Thread, sc: SharedClass, ctr: Totals, raw: Vec)
    requires |cfgs| < TWO64 && ThreadOk(rg, cfgs, th) && th.op.Start? && Shaped(th)
    requires ClassOk(rg, cfgs[PoolOf(th.op)], PoolOf(th.op), 0, sc)
    ensures OutOk(rg, cfgs, PoolOf(th.op), 0, AllocStep(cfgs[PoolOf(th.op)], th, sc, ctr, raw))
  {
    var r := th.op.r;
    var p := r.pool;
    if RouteSize(r.size).Some? {
      var c := RouteSize(r.size).value;
      AttachOk(rg, cfgs, th.tls, p);
      var tls := Attach(th.tls, PoolId(p), cfgs[p].limit).tls;
      BoundIsOk(rg, cfgs, p, tls);
      var cache := tls.caches[c];
      assert CacheOk(rg, cfgs[p], p, c, cache);
      if cache != [] {
        PopOk(rg, cfgs[p], p, c, cache);
        CacheChangeOk(rg, cfgs[p], p, tls, c, cache[..|cache| - 1]);
        BoundIsOk(rg, cfgs, p, WithCache(tls, c, cache[..|cache| - 1]));
      }
    }
  }

  lemma HandOutOk(rg: Regime, cfgs: seq<Settings>, th: Thread, sc: SharedClass, ctr: Totals, raw: Vec, created: nat)
    requires ThreadOk(rg, cfgs, th) && (th.op.Oversize? || th.op.Hit? || th.op.Cold?) && Shaped(th)
    requires ClassOk(rg, cfgs[PoolOf(th.op)], PoolOf(th.op), ClassOf(th.op), sc)
    requires Supplied(th.op, created, raw) && (rg.exact ==> ExactSupply(th.op, raw))
    ensures OutOk(rg, cfgs, PoolOf(th.op), ClassOf(th.op), AllocStep(cfgs[PoolOf(th.op)], th, sc, ctr, raw))
  {
    match th.op
    case Oversize(r) => CutOk(r, r.size, raw);
    case Hit(r, c, v) => RecycleOk(rg, cfgs[r.pool], c, v, r);
    case Cold(r, c) => CutOk(r, Boundary(c), raw);
  }

  lemma RefillOk(rg: Regime, cfgs: seq<Settings>, th: Thread, sc: SharedClass, ctr: Totals)
    requires ThreadOk(rg, cfgs, th) && Shaped(th)
    requires th.op.RefillPop? || th.op.RefillFirst? || th.op.RefillLoop? || th.op.RefillMore?
    requires ClassOk(rg, cfgs[PoolOf(th.op)], PoolOf(th.op), ClassOf(th.op), sc)
    ensures OutOk(rg, cfgs, PoolOf(th.op), ClassOf(th.op), RefillStep(cfgs[PoolOf(th.op)], th, sc, ctr))
  {
    var p, c := th.op.r.pool, th.op.c;
    if sc.queue != [] { PopOk(rg, cfgs[p], p, c, sc.queue); }
    match th.op
    case RefillLoop(r, _, v, rem) =>
      if rem == 0 { RecycleOk(rg, cfgs[p], c, v, r); }
    case RefillMore(r, _, v, next, rem) =>
      var cache := th.tls.caches[c];
      assert CacheOk(rg, cfgs[p], p, c, cache);
      PushOk(rg, cfgs[p], p, c, cache, next);
      CacheChangeOk(rg, cfgs[p], p, th.tls, c, cache + [next]);
      BoundIsOk(rg, cfgs, p, WithCache(th.tls, c, cache + [next]));
    case _ =>
  }

  /** A returned pooled buffer always goes back to the class it came from. */
  lemma DecideByHint(rg: Regime, cfg: Settings, p: nat, hint: nat, v: Vec)
    requires (hint < NUM_CLASSES || hint == OVERSIZE_HINT) && Fits(rg, p, hint, v)
    ensures Decide(v.Capacity(), hint, cfg.minSize) ==
            if hint == OVERSIZE_HINT || v.Capacity() < cfg.minSize then Discard else Pooled(hint)
  {
  }

  lemma ReturnStepOk(rg: Regime, cfgs: seq<Settings>, th: Thread, sc: SharedClass, ctr: Totals)
    requires |cfgs| < TWO64 && ThreadOk(rg, cfgs, th) && th.op.Return? && Shaped(th)
    requires Accepted(cfgs[th.op.pool])
    requires ClassOk(rg, cfgs[PoolOf(th.op)], PoolOf(th.op), 0, sc)
    ensures OutOk(rg, cfgs, PoolOf(th.op), 0, ReturnStep(cfgs[PoolOf(th.op)], th, sc, ctr))
  {
    var p := th.op.pool;
    DecideByHint(rg, cfgs[p], p, th.op.hint, th.op.vec);
    AttachOk(rg, cfgs, th.tls, p);
    var tls := Attach(th.tls, PoolId(p), cfgs[p].limit).tls;
    BoundIsOk(rg, cfgs, p, tls);
  }

  lemma SpillStepOk(rg: Regime, cfgs: seq<Settings>, th: Thread, sc: SharedClass, ctr: Totals)
    requires ThreadOk(rg, cfgs, th) && Shaped(th)
    requires th.op.Spill? || th.op.SpillCount? || th.op.Place? || th.op.OverflowCount?
    requires Accepted(cfgs[PoolOf(th.op)])
    requires ClassOk(rg, cfgs[PoolOf(th.op)], PoolOf(th.op), ClassOf(th.op), sc)
    ensures OutOk(rg, cfgs, PoolOf(th.op), ClassOf(th.op), SpillStep(cfgs[PoolOf(th.op)], th, sc, ctr))
  {
    hide Parked, RouteSize, Fits;
    var p, c := th.op.pool, th.op.c;
    match th.op
    case Spill(_, _, v, rem) =>
      var cache := th.tls.caches[c];
      assert CacheOk(rg, cfgs[p], p, c, cache);
      if rem > 0 && cache != [] {
        PopOk(rg, cfgs[p], p, c, cache);
        CacheChangeOk(rg, cfgs[p], p, th.tls, c, cache[..|cache| - 1]);
        BoundIsOk(rg, cfgs, p, WithCache(th.tls, c, cache[..|cache| - 1]));
        PushOk(rg, cfgs[p], p, c, sc.queue, cache[|cache| - 1]);
      }
    case Place(_, _, v) =>
      var cache := th.tls.caches[c];
      assert CacheOk(rg, cfgs[p], p, c, cache);
      PushOk(rg, cfgs[p], p, c, sc.queue, v);
      if |cache| < th.tls.limit {
        PushOk(rg, cfgs[p], p, c, cache, v);
        CacheChangeOk(rg, cfgs[p], p, th.tls, c, cache + [v]);
        BoundIsOk(rg, cfgs, p, WithCache(th.tls, c, cache + [v]));
      }
    case _ =>
  }

  lemma UpkeepOk(rg: Regime, cfgs: seq<Settings>, th: Thread, sc: SharedClass, ctr: Totals, raw: Vec, created: nat)
    requires ThreadOk(rg, cfgs, th) && Shaped(th)
    requires th.op.WarmLoop? || th.op.WarmCount? || th.op.Draining? || th.op.DrainStore? || th.op.Resetting?
    requires ClassOk(rg, cfgs[PoolOf(th.op)], PoolOf(th.op), ClassOf(th.op), sc)
    requires Supplied(th.op, created, raw) && (rg.exact ==> ExactSupply(th.op, raw))
    ensures OutOk(rg, cfgs, PoolOf(th.op), ClassOf(th.op), UpkeepStep(cfgs[PoolOf(th.op)], th, sc, ctr, raw))
  {
    var p := th.op.pool;
    match th.op
    case WarmLoop(_, c, rem) =>
      assert Parked(rg, cfgs[p], p, c, raw);
      PushOk(rg, cfgs[p], p, c, sc.queue, raw);
    case Draining(_, c, _) =>
      if sc.queue != [] { PopOk(rg, cfgs[p], p, c, sc.queue); }
    case _ =>
  }

  lemma MicroOk(rg: Regime, cfgs: seq<Settings>, th: Thread, sc: SharedClass, ctr: Totals, raw: Vec, created: nat)
    requires |cfgs| < TWO64 && ThreadOk(rg, cfgs, th) && !th.op.Idle? && Shaped(th)
    requires Accepted(cfgs[PoolOf(th.op)])
    requires ClassOk(rg, cfgs[PoolOf(th.op)], PoolOf(th.op), ClassOf(th.op), sc)
    requires Supplied(th.op, created, raw) && (rg.exact ==> ExactSupply(th.op, raw))
    ensures OutOk(rg, cfgs, PoolOf(th.op), ClassOf(th.op), Micro(cfgs[PoolOf(th.op)], th, sc, ctr, raw))
  {
    if th.op.Start? { StartOk(rg, cfgs, th, sc, ctr, raw); }
    else if th.op.Oversize? || th.op.Hit? || th.op.Cold? { HandOutOk(rg, cfgs, th, sc, ctr, raw, created); }
    else if th.op.Return? { ReturnStepOk(rg, cfgs, th, sc, ctr); }
    else if th.op.RefillPop? || th.op.RefillFirst? || th.op.RefillLoop? || th.op.RefillMore? {
      RefillOk(rg, cfgs, th, sc, ctr);
    }
    else if th.op.Spill? || th.op.SpillCount? || th.op.Place? || th.op.OverflowCount? {
      SpillStepOk(rg, cfgs, th, sc, ctr);
    }
    else if th.op.Snapshotting? {}
    else { UpkeepOk(rg, cfgs, th, sc, ctr, raw, created); }
  }
}
