/**
 Every step of every run keeps the invariant, and what a program can observe follows:
 allocations are zero, `set_len` is always in bounds, no thread is ever stuck.
 */
module Safety {
  import opened Memory
  import opened Routing
  import opened Config
  import opened Stats
  import opened Machine
  import opened Invariant

  lemma InitialOk(rg: Regime, n: nat)
    ensures Inv(rg, Initial(n))
  {
    forall t | 0 <= t < n ensures ThreadOk(rg, [], Initial(n).threads[t]) {}
  }

  lemma MergeOk(rg: Regime, s: State, t: nat, p: nat, c: nat, o: Out)
    requires Inv(rg, s) && t < |s.threads| && p < |s.pools| && c < NUM_CLASSES
    requires OutOk(rg, s.cfgs, p, c, o)
    ensures Inv(rg, Merge(s, t, p, c, o))
  {
    var s' := Merge(s, t, p, c, o);
    assert PoolOk(rg, s.cfgs[p], p, s.pools[p]);
    forall q | 0 <= q < |s'.pools| ensures PoolOk(rg, s'.cfgs[q], q, s'.pools[q]) {
      assert PoolOk(rg, s.cfgs[q], q, s.pools[q]);
    }
    forall k | 0 <= k < |s'.handles| ensures HandleOk(rg, s'.cfgs, s'.handles[k]) {}
  }

  lemma GoKeepsInv(rg: Regime, s: State, e: Event)
    requires Inv(rg, s) && Enabled(s, e) && Allowed(rg, s, e) && e.a.Go?
    ensures Inv(rg, Step(s, e))
    ensures var op := s.threads[e.t].op;
            && PoolOf(op) < |s.pools| && ClassOf(op) < NUM_CLASSES == |s.pools[PoolOf(op)].classes|
            && OutOk(rg, s.cfgs, PoolOf(op), ClassOf(op),
                     Micro(s.cfgs[PoolOf(op)], s.threads[e.t], s.pools[PoolOf(op)].classes[ClassOf(op)],
                           s.pools[PoolOf(op)].ctr, e.a.raw))
  {
    var th := s.threads[e.t];
    var p, c := PoolOf(th.op), ClassOf(th.op);
    assert PoolOk(rg, s.cfgs[p], p, s.pools[p]);
    var sc, ctr := s.pools[p].classes[c], s.pools[p].ctr;
    assert ClassOk(rg, s.cfgs[p], p, c, sc);
    MicroOk(rg, s.cfgs, th, sc, ctr, e.a.raw, s.created);
    MergeOk(rg, s, e.t, p, c, Micro(s.cfgs[p], th, sc, ctr, e.a.raw));
  }

  lemma ThreadsGrowOk(rg: Regime, cfgs: seq<Settings>, cfg: Settings, th: Thread)
    requires ThreadOk(rg, cfgs, th)
    ensures ThreadOk(rg, cfgs + [cfg], th)
  {
    var more := cfgs + [cfg];
    assert forall k :: 0 <= k < |cfgs| ==> more[k] == cfgs[k];
  }

  lemma NewPoolOk(rg: Regime, cfg: Settings, p: nat)
    requires Accepted(cfg)
    ensures PoolOk(rg, cfg, p, NEW_POOL)
  {
    forall c | 0 <= c < NUM_CLASSES ensures ClassOk(rg, cfg, p, c, NEW_POOL.classes[c]) {
      assert NEW_POOL.classes[c] == EMPTY_CLASS;
    }
  }

  lemma NewPoolKeepsInv(rg: Regime, s: State, e: Event)
    requires Inv(rg, s) && Enabled(s, e) && e.a.NewPool?
    ensures Inv(rg, Step(s, e))
  {
    var s' := Step(s, e);
    NewPoolOk(rg, e.a.cfg, |s.pools|);
    forall p | 0 <= p < |s'.pools| ensures PoolOk(rg, s'.cfgs[p], p, s'.pools[p]) {
      if p < |s.pools| { assert PoolOk(rg, s.cfgs[p], p, s.pools[p]); }
    }
    forall t | 0 <= t < |s'.threads| ensures ThreadOk(rg, s'.cfgs, s'.threads[t]) {
      ThreadsGrowOk(rg, s.cfgs, e.a.cfg, s.threads[t]);
    }
    forall h | 0 <= h < |s'.handles| ensures HandleOk(rg, s'.cfgs, s'.handles[h]) {
      assert HandleOk(rg, s.cfgs, s.handles[h]);
    }
  }

  lemma ThreadChangeKeepsInv(rg: Regime, s: State, t: nat, th: Thread)
    requires Inv(rg, s) && t < |s.threads| && ThreadOk(rg, s.cfgs, th)
    ensures Inv(rg, s.(threads := s.threads[t := th]))
  {
  }

  lemma TotalsChangeKeepsInv(rg: Regime, s: State, p: nat, ctr: Totals)
    requires Inv(rg, s) && p < |s.pools|
    ensures Inv(rg, SetTotals(s, p, ctr))
  {
    var s' := SetTotals(s, p, ctr);
    forall q | 0 <= q < |s'.pools| ensures PoolOk(rg, s'.cfgs[q], q, s'.pools[q]) {
      assert PoolOk(rg, s.cfgs[q], q, s.pools[q]);
    }
  }

  lemma HandleChangeKeepsInv(rg: Regime, s: State, h: nat, handle: Handle)
    requires Inv(rg, s) && h < |s.handles| && HandleOk(rg, s.cfgs, handle)
    ensures Inv(rg, SetHandle(s, h, handle))
  {
  }

  lemma DropKeepsInv(rg: Regime, s: State, t: nat, h: nat)
    requires Inv(rg, s) && t < |s.threads| && LiveHandle(s, h)
    ensures Inv(rg, Drop(s, t, h))
  {
    var b := s.handles[h];
    assert HandleOk(rg, s.cfgs, b);
    var ctr := s.pools[b.pool].ctr;
    HandleChangeKeepsInv(rg, s, h, b.(slot := Returned));
    var s1 := SetHandle(s, h, b.(slot := Returned));
    var ctr' := if s.cfgs[b.pool].track then ctr.(puts := ctr.puts + 1) else ctr;
    TotalsChangeKeepsInv(rg, s1, b.pool, ctr');
    var th := s.threads[t].(op := Return(b.pool, b.hint, b.slot.vec.Clear()), lost := 0);
    assert ThreadOk(rg, s.cfgs, s.threads[t]);
    ThreadChangeKeepsInv(rg, SetTotals(s1, b.pool, ctr'), t, th);
  }

  /** Working on a handle in place keeps its class's room: contents, length and growth may change. */
  lemma WorkedOk(rg: Regime, s: State, e: Event)
    requires Inv(rg, s) && Enabled(s, e) && Allowed(rg, s, e)
    requires e.a.Overwrite? || e.a.Append? || e.a.WriteFromSlice? || e.a.AssumeInit? || e.a.IntoInner?
    requires e.a.WriteFromSlice? ==> |e.a.data| == s.handles[e.a.h].slot.vec.len
    ensures HandleOk(rg, s.cfgs, Worked(s.handles[e.a.h], e.a))
  {
    var b := s.handles[e.a.h];
    assert HandleOk(rg, s.cfgs, b);
    if e.a.Append? { AppendKeeps(b.slot.vec, e.a.data, e.a.spare); }
  }

  lemma ExitKeepsInv(rg: Regime, s: State, e: Event)
    requires Inv(rg, s) && Enabled(s, e) && e.a.Exit?
    ensures Inv(rg, Step(s, e))
  {
    assert ThreadOk(rg, s.cfgs, NEW_THREAD);
    ThreadChangeKeepsInv(rg, s, e.t, NEW_THREAD);
  }

  lemma BeginKeepsInv(rg: Regime, s: State, e: Event)
    requires Inv(rg, s) && Enabled(s, e) && Allowed(rg, s, e)
    requires e.a.BeginAlloc? || e.a.BeginWarm? || e.a.BeginDrain? || e.a.BeginReset? || e.a.BeginSnapshot?
    ensures Inv(rg, Step(s, e))
  {
    hide Micro, Drop, Worked, PoolOk, HandleOk;
    var th := s.threads[e.t];
    assert ThreadOk(rg, s.cfgs, th);
    if e.a.BeginAlloc? {
      var r := e.a.r;
      var ctr := s.pools[r.pool].ctr;
      var ctr' := if s.cfgs[r.pool].track then ctr.(gets := ctr.gets + 1) else ctr;
      TotalsChangeKeepsInv(rg, s, r.pool, ctr');
      ThreadChangeKeepsInv(rg, SetTotals(s, r.pool, ctr'), e.t, th.(op := Start(r)));
    } else {
      ThreadChangeKeepsInv(rg, s, e.t, Step(s, e).threads[e.t]);
    }
  }

  /** The invariant is inductive: any step, by any thread, from any good state. */
  lemma StepKeepsInv(rg: Regime, s: State, e: Event)
    requires Inv(rg, s) && Enabled(s, e) && Allowed(rg, s, e)
    ensures Inv(rg, Step(s, e))
  {
    if e.a.Go? { GoKeepsInv(rg, s, e); }
    else if e.a.NewPool? { NewPoolKeepsInv(rg, s, e); }
    else if e.a.BeginAlloc? || e.a.BeginWarm? || e.a.BeginDrain? || e.a.BeginReset? || e.a.BeginSnapshot? {
      BeginKeepsInv(rg, s, e);
    }
    else if e.a.Exit? { ExitKeepsInv(rg, s, e); }
    else if e.a.BeginDrop? || (e.a.WriteFromSlice? && |e.a.data| != s.handles[e.a.h].slot.vec.len) {
      DropKeepsInv(rg, s, e.t, e.a.h);
    } else {
      WorkedOk(rg, s, e);
      HandleChangeKeepsInv(rg, s, e.a.h, Worked(s.handles[e.a.h], e.a));
    }
  }

  /** All steps of a run respect the regime. */
  ghost predicate AllowedRun(rg: Regime, s: State, es: seq<Event>)
    requires ValidRun(s, es)
    decreases |es|
  {
    es == [] || (Allowed(rg, s, es[0]) && AllowedRun(rg, Step(s, es[0]), es[1..]))
  }

  lemma {:induction false} RunKeepsInv(rg: Regime, s: State, es: seq<Event>)
    requires Inv(rg, s) && ValidRun(s, es) && AllowedRun(rg, s, es)
    ensures Inv(rg, After(s, es))
    decreases |es|
  {
    hide Step, Enabled, Allowed, Inv;
    if es == [] {
    } else {
      StepKeepsInv(rg, s, es[0]);
      RunKeepsInv(rg, Step(s, es[0]), es[1..]);
    }
  }

  lemma {:induction false} AnyRunAllowed(s: State, es: seq<Event>)
    requires ValidRun(s, es)
    ensures AllowedRun(ANY, s, es)
    decreases |es|
  {
    if es == [] {
    } else {
      AnyRunAllowed(Step(s, es[0]), es[1..]);
    }
  }

  /** Every state that any number of threads can reach, in any interleaving, is good. */
  lemma ReachableOk(n: nat, es: seq<Event>)
    requires ValidRun(Initial(n), es)
    ensures Inv(ANY, After(Initial(n), es))
  {
    InitialOk(ANY, n);
    AnyRunAllowed(Initial(n), es);
    RunKeepsInv(ANY, Initial(n), es);
  }

  lemma ReachableInv(n: nat, s: State)
    requires Reachable(n, s)
    ensures Inv(ANY, s)
  {
    hide Step, Enabled, Inv;
    var es :| ValidRun(Initial(n), es) && After(Initial(n), es) == s;
    ReachableOk(n, es);
  }

  // ── What a program sees ─────────────────────────────────────────────

  /**
   Whatever the other threads have done and are doing, the step that completes an allocation
   hands out a buffer of the requested length, all zero if it is readable.
   */
  lemma AllocIsZeroed(n: nat, es: seq<Event>, e: Event)
    requires ValidRun(Initial(n), es) && Enabled(After(Initial(n), es), e) && e.a.Go?
    ensures var s := After(Initial(n), es);
            var s' := Step(s, e);
            |s'.handles| > |s.handles| ==>
              && Allocating(s.threads[e.t].op)
              && var r := s.threads[e.t].op.r;
              var h := s'.handles[|s.handles|];
              && s'.handles == s.handles + [h] && s'.threads[e.t].op.Idle?
              && h.pool == r.pool && h.size == r.size && h.uninit == r.uninit
              && h.slot.Live? && h.slot.vec.Valid() && h.slot.vec.len == r.size
              && (!r.uninit ==> h.slot.vec.Visible() == Zeros(r.size))
  {
    hide RouteSize, Parked, TlsOk, OpOk, Fits;
    ReachableOk(n, es);
    GoKeepsInv(ANY, After(Initial(n), es), e);
  }

  /** A step that calls `set_len`, with the length and the vector it is called on. */
  ghost predicate CallsSetLen(op: Op, raw: Vec, len: nat, v: Vec) {
    match op
    case Hit(r, _, w) => r.uninit && len == r.size && v == w
    case RefillLoop(r, _, w, rem) => r.uninit && rem == 0 && len == r.size && v == w
    case Oversize(r) => r.uninit && len == r.size && v == raw
    case Cold(r, _) => r.uninit && len == r.size && v == raw
    case _ => false
  }

  /** The safety condition of `set_len` holds at every call in every reachable state. */
  lemma SetLenIsSafe(n: nat, es: seq<Event>, e: Event, len: nat, v: Vec)
    requires ValidRun(Initial(n), es) && Enabled(After(Initial(n), es), e) && e.a.Go?
    requires CallsSetLen(After(Initial(n), es).threads[e.t].op, e.a.raw, len, v)
    ensures len <= v.Capacity()
  {
    ReachableOk(n, es);
    var s := After(Initial(n), es);
    assert ThreadOk(ANY, s.cfgs, s.threads[e.t]);
  }

  /** `vec![0; n]` */
  function HeapAllocate(id: nat, home: nat, n: nat): Vec {
    Vec(id, home, Zeros(n), n)
  }

  /** The default allocator keeps the contract for every size a vector can have. */
  lemma HeapAllocatorLawful(id: nat, home: nat, n: nat)
    requires n <= ISIZE_MAX
    ensures AllocatorContract(HeapAllocate(id, home, n), n) && HeapAllocate(id, home, n).Capacity() == n
  {
  }

  /** What the allocator may answer at a thread's next step. */
  function SampleSupply(op: Op, created: nat): Vec {
    match op
    case Oversize(r) => if r.uninit then HeapAllocate(created, r.pool, r.size).Clear()
        else HeapAllocate(created, r.pool, r.size)
    case Cold(r, c) =>
      var n := if c < NUM_CLASSES then Boundary(c) else 0;
      if r.uninit then HeapAllocate(created, r.pool, n).Clear() else HeapAllocate(created, r.pool, n)
    case WarmLoop(p, c, _) => HeapAllocate(created, p, if c < NUM_CLASSES then Boundary(c) else 0)
    case _ => HeapAllocate(created, 0, 0)
  }

  /** No thread is ever stuck: in every reachable state each operation in progress can take its next step. */
  lemma NeverStuck(n: nat, es: seq<Event>, t: nat)
    requires ValidRun(Initial(n), es) && t < n
    ensures var s := After(Initial(n), es);
            && |s.threads| == n
            && (!s.threads[t].op.Idle? ==> Enabled(s, Event(t, Go(SampleSupply(s.threads[t].op, s.created)))))
  {
    ReachableOk(n, es);
    ThreadCount(Initial(n), es);
    var s := After(Initial(n), es);
    assert ThreadOk(ANY, s.cfgs, s.threads[t]);
    var op := s.threads[t].op;
    if !op.Idle? {
      assert PoolOk(ANY, s.cfgs[PoolOf(op)], PoolOf(op), s.pools[PoolOf(op)]);
    }
  }

  /** What the machine asks of a handle before a program may use it holds of every live handle there is. */
  lemma EveryLiveHandleUsable(n: nat, es: seq<Event>, h: nat)
    requires ValidRun(Initial(n), es)
    ensures var s := After(Initial(n), es);
            |s.pools| == |s.cfgs| && (LiveHandle(s, h) <==> h < |s.handles| && s.handles[h].slot.Live?)
  {
    ReachableOk(n, es);
    var s := After(Initial(n), es);
    if h < |s.handles| {
      assert HandleOk(ANY, s.cfgs, s.handles[h]);
      RouteSizeExact(s.handles[h].size, 0);
    }
  }

  lemma {:induction false} ThreadCount(s: State, es: seq<Event>)
    requires ValidRun(s, es)
    ensures |After(s, es).threads| == |s.threads|
    decreases |es|
  {
    if es == [] {
    } else {
      ThreadCount(Step(s, es[0]), es[1..]);
    }
  }
}
