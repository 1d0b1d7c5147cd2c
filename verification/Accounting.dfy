/**
 The statistics counters of a tracked pool, in every run that never resets them: each is an
 exact count of handles made and returned, with the operations in flight allowed for.
 */
module Accounting {
  import opened Options
  import opened Sums
  import opened Memory
  import opened Routing
  import opened Config
  import opened Magazine
  import opened Stats
  import opened Machine
  import opened Invariant
  import opened Safety

  function Flag(b: bool): nat {
    if b then 1 else 0
  }

  predicate AllocIn(p: nat, op: Op) {
    Allocating(op) && op.r.pool == p
  }

  function AllocatingIn(p: nat): Thread -> nat {
    (th: Thread) => Flag(AllocIn(p, th.op))
  }

  /** Between the two counter updates of an oversize allocation. */
  function OversizeIn(p: nat): Thread -> nat {
    (th: Thread) => Flag(th.op.Oversize? && th.op.r.pool == p)
  }

  function ReturningTo(p: nat): Thread -> nat {
    (th: Thread) => Flag(th.op.Return? && th.op.pool == p)
  }

  /** Handles ever made by pool `p`; those returned; those still held, live or extracted. */
  function MadeBy(p: nat): Handle -> nat {
    (h: Handle) => Flag(h.pool == p)
  }

  /** Handles made for oversize requests. */
  function OversizeOf(p: nat): Handle -> nat {
    (h: Handle) => Flag(h.pool == p && h.hint == OVERSIZE_HINT)
  }

  function ReturnedTo(p: nat): Handle -> nat {
    (h: Handle) => Flag(h.pool == p && h.slot.Returned?)
  }

  function HeldOf(p: nat): Handle -> nat {
    (h: Handle) => Flag(h.pool == p && !h.slot.Returned?)
  }

  function Served(ctr: Totals): nat {
    ctr.tlsHits + ctr.sharedHits + ctr.allocations
  }

  /** What the counters of pool `p` say about the state. */
  ghost predicate Balanced(s: State, p: nat) {
    p < |s.pools| ==>
      var ctr := s.pools[p].ctr;
      && ctr.gets == Sum(s.handles, MadeBy(p)) + Sum(s.threads, AllocatingIn(p))
      && Served(ctr) == Sum(s.handles, MadeBy(p))
      && ctr.puts == Sum(s.handles, ReturnedTo(p))
      && ctr.oversize == Sum(s.handles, OversizeOf(p)) + Sum(s.threads, OversizeIn(p))
      && Sum(s.handles, OversizeOf(p)) <= ctr.allocations
      && ctr.discards + Sum(s.threads, ReturningTo(p)) <= ctr.puts
  }

  predicate NobodyResets(s: State, p: nat) {
    forall t :: 0 <= t < |s.threads| ==> !(s.threads[t].op.Resetting? && s.threads[t].op.pool == p)
  }

  // ── One step of one thread ──────────────────────────────────────────

  function MadeOversize(made: Option<Handle>): nat {
    Flag(made.Some? && made.value.hint == OVERSIZE_HINT)
  }

  /** How one step moves the counters of its pool and this thread's own part. */
  ghost predicate Accounts(p: nat, th: Thread, ctr: Totals, o: Out) {
    && o.ctr.gets == ctr.gets && o.ctr.puts == ctr.puts
    && Served(o.ctr) == Served(ctr) + Flag(o.made.Some?)
    && AllocatingIn(p)(th) == AllocatingIn(p)(o.th) + Flag(o.made.Some?)
    && o.ctr.oversize + OversizeIn(p)(th) == ctr.oversize + OversizeIn(p)(o.th) + MadeOversize(o.made)
    && o.ctr.allocations >= ctr.allocations + MadeOversize(o.made)
    && o.ctr.discards + ReturningTo(p)(o.th) <= ctr.discards + ReturningTo(p)(th)
    && (o.made.Some? ==> o.made.value.pool == p && o.made.value.slot.Live?)
    && !o.th.op.Resetting?
    && (!Allocating(th.op) ==> o.ctr.tlsHits == ctr.tlsHits && o.ctr.sharedHits == ctr.sharedHits
                               && o.ctr.allocations == ctr.allocations)
  }

  lemma AllocAccounts(cfg: Settings, th: Thread, sc: SharedClass, ctr: Totals, raw: Vec)
    requires Shaped(th) && cfg.track && (th.op.Start? || th.op.Oversize? || th.op.Hit? || th.op.Cold?)
    ensures Accounts(PoolOf(th.op), th, ctr, AllocStep(cfg, th, sc, ctr, raw))
  {
    hide RouteSize, Attach, Recycle, Cut;
  }

  lemma RefillAccounts(cfg: Settings, th: Thread, sc: SharedClass, ctr: Totals)
    requires Shaped(th) && cfg.track
    requires th.op.RefillPop? || th.op.RefillFirst? || th.op.RefillLoop? || th.op.RefillMore?
    ensures Accounts(PoolOf(th.op), th, ctr, RefillStep(cfg, th, sc, ctr))
  {
    hide Wrap, Recycle;
  }

  lemma DeallocAccounts(cfg: Settings, th: Thread, sc: SharedClass, ctr: Totals, raw: Vec)
    requires Shaped(th) && cfg.track
    requires th.op.Return? || th.op.Spill? || th.op.SpillCount? || th.op.Place? || th.op.OverflowCount?
    ensures Accounts(PoolOf(th.op), th, ctr, Micro(cfg, th, sc, ctr, raw))
  {
    hide Wrap, Decide, Attach;
  }

  lemma UpkeepAccounts(cfg: Settings, th: Thread, sc: SharedClass, ctr: Totals, raw: Vec)
    requires Shaped(th) && (th.op.WarmLoop? || th.op.WarmCount? || th.op.Draining? || th.op.DrainStore?)
    ensures Accounts(PoolOf(th.op), th, ctr, UpkeepStep(cfg, th, sc, ctr, raw))
  {
    hide Wrap, ZeroCounter;
  }

  lemma SnapshotAccounts(cfg: Settings, th: Thread, sc: SharedClass, ctr: Totals, raw: Vec)
    requires Shaped(th) && th.op.Snapshotting?
    ensures Accounts(PoolOf(th.op), th, ctr, Micro(cfg, th, sc, ctr, raw))
  {
    hide LoadCounter;
  }

  lemma MicroAccounts(cfg: Settings, th: Thread, sc: SharedClass, ctr: Totals, raw: Vec)
    requires Shaped(th) && !th.op.Idle? && !th.op.Resetting? && cfg.track
    ensures Accounts(PoolOf(th.op), th, ctr, Micro(cfg, th, sc, ctr, raw))
  {
    hide Accounts, AllocStep, RefillStep, ReturnStep, SpillStep, UpkeepStep, SnapshotStep;
    if th.op.Start? || th.op.Oversize? || th.op.Hit? || th.op.Cold? { AllocAccounts(cfg, th, sc, ctr, raw); }
    else if th.op.RefillPop? || th.op.RefillFirst? || th.op.RefillLoop? || th.op.RefillMore? {
      RefillAccounts(cfg, th, sc, ctr);
    }
    else if th.op.Return? || th.op.Spill? || th.op.SpillCount? || th.op.Place? || th.op.OverflowCount? {
      DeallocAccounts(cfg, th, sc, ctr, raw);
    }
    else if th.op.Snapshotting? { SnapshotAccounts(cfg, th, sc, ctr, raw); }
    else { UpkeepAccounts(cfg, th, sc, ctr, raw); }
  }

  /** Nothing a step does concerns other pools. */
  ghost predicate Elsewhere(p: nat, th: Thread) {
    AllocatingIn(p)(th) == OversizeIn(p)(th) == ReturningTo(p)(th) == 0 && !(th.op.Resetting? && th.op.pool == p)
  }

  lemma MicroElsewhere(cfg: Settings, th: Thread, sc: SharedClass, ctr: Totals, raw: Vec, p: nat)
    requires Shaped(th) && !th.op.Idle? && p != PoolOf(th.op)
    ensures var o := Micro(cfg, th, sc, ctr, raw);
            Elsewhere(p, th) && Elsewhere(p, o.th) && (o.made.Some? ==> o.made.value.pool != p)
  {
    hide Wrap, RouteSize, Attach, Decide, Recycle, Cut, ZeroCounter;
  }

  // ── Steps of the whole system ───────────────────────────────────────

  lemma ThreadSums(ts: seq<Thread>, t: nat, th: Thread, p: nat)
    requires t < |ts|
    ensures Sum(ts[t := th], AllocatingIn(p)) + AllocatingIn(p)(ts[t]) == Sum(ts, AllocatingIn(p)) + AllocatingIn(p)(th)
    ensures Sum(ts[t := th], OversizeIn(p)) + OversizeIn(p)(ts[t]) == Sum(ts, OversizeIn(p)) + OversizeIn(p)(th)
    ensures Sum(ts[t := th], ReturningTo(p)) + ReturningTo(p)(ts[t]) == Sum(ts, ReturningTo(p)) + ReturningTo(p)(th)
  {
    SumUpdate(ts, t, th, AllocatingIn(p));
    SumUpdate(ts, t, th, OversizeIn(p));
    SumUpdate(ts, t, th, ReturningTo(p));
  }

  lemma HandlePush(hs: seq<Handle>, made: Option<Handle>, p: nat)
    requires made.Some? ==> made.value.slot.Live?
    ensures var hs' := if made.Some? then hs + [made.value] else hs;
            && Sum(hs', MadeBy(p)) == Sum(hs, MadeBy(p)) + Flag(made.Some? && made.value.pool == p)
            && Sum(hs', ReturnedTo(p)) == Sum(hs, ReturnedTo(p))
            && Sum(hs', OversizeOf(p)) == Sum(hs, OversizeOf(p))
                + (if made.Some? && made.value.pool == p then MadeOversize(made) else 0)
  {
    if made.Some? {
      SumPush(hs, made.value, MadeBy(p));
      SumPush(hs, made.value, ReturnedTo(p));
      SumPush(hs, made.value, OversizeOf(p));
    }
  }

  lemma GoKeepsBalance(s: State, e: Event, p: nat)
    requires Inv(ANY, s) && Enabled(s, e) && e.a.Go? && p < |s.pools| && s.cfgs[p].track
    requires Balanced(s, p) && NobodyResets(s, p)
    ensures Balanced(Step(s, e), p) && NobodyResets(Step(s, e), p)
  {
    hide Sum, Micro, Supplied, ThreadOk, HandleOk, PoolOk;
    GoKeepsInv(ANY, s, e);
    var th := s.threads[e.t];
    var q, c := PoolOf(th.op), ClassOf(th.op);
    var o := Micro(s.cfgs[q], th, s.pools[q].classes[c], s.pools[q].ctr, e.a.raw);
    ThreadSums(s.threads, e.t, o.th, p);
    if q == p {
      assert !th.op.Resetting?;
      MicroAccounts(s.cfgs[q], th, s.pools[q].classes[c], s.pools[q].ctr, e.a.raw);
    } else {
      MicroElsewhere(s.cfgs[q], th, s.pools[q].classes[c], s.pools[q].ctr, e.a.raw, p);
    }
    HandlePush(s.handles, o.made, p);
  }

  lemma HandleSums(hs: seq<Handle>, k: nat, h: Handle, p: nat)
    requires k < |hs|
    ensures Sum(hs[k := h], MadeBy(p)) + MadeBy(p)(hs[k]) == Sum(hs, MadeBy(p)) + MadeBy(p)(h)
    ensures Sum(hs[k := h], ReturnedTo(p)) + ReturnedTo(p)(hs[k]) == Sum(hs, ReturnedTo(p)) + ReturnedTo(p)(h)
    ensures Sum(hs[k := h], OversizeOf(p)) + OversizeOf(p)(hs[k]) == Sum(hs, OversizeOf(p)) + OversizeOf(p)(h)
  {
    SumUpdate(hs, k, h, OversizeOf(p));
    SumUpdate(hs, k, h, MadeBy(p));
    SumUpdate(hs, k, h, ReturnedTo(p));
  }

  lemma DropKeepsBalance(s: State, t: nat, h: nat, p: nat)
    requires t < |s.threads| && LiveHandle(s, h) && |s.pools| == |s.cfgs| && s.threads[t].op.Idle?
    requires p < |s.pools| && s.cfgs[p].track && Balanced(s, p) && NobodyResets(s, p)
    ensures Balanced(Drop(s, t, h), p) && NobodyResets(Drop(s, t, h), p)
  {
    hide Sum;
    var s' := Drop(s, t, h);
    HandleSums(s.handles, h, s.handles[h].(slot := Returned), p);
    ThreadSums(s.threads, t, s'.threads[t], p);
  }

  lemma BeginKeepsBalance(s: State, e: Event, p: nat)
    requires Enabled(s, e) && (e.a.BeginAlloc? || e.a.BeginWarm? || e.a.BeginDrain? || e.a.BeginReset?
                               || e.a.BeginSnapshot? || e.a.Exit?)
    requires p < |s.pools| && p < |s.cfgs| && s.cfgs[p].track && Balanced(s, p) && NobodyResets(s, p)
    requires e.a != BeginReset(p)
    ensures Balanced(Step(s, e), p) && NobodyResets(Step(s, e), p)
  {
    hide Sum, Micro, RouteSize, Drop, Worked;
    ThreadSums(s.threads, e.t, Step(s, e).threads[e.t], p);
  }

  lemma WorkKeepsBalance(s: State, e: Event, p: nat)
    requires Enabled(s, e) && p < |s.pools| && Balanced(s, p) && NobodyResets(s, p)
    requires e.a.Overwrite? || e.a.Append? || e.a.WriteFromSlice? || e.a.AssumeInit? || e.a.IntoInner?
    requires e.a.WriteFromSlice? ==> |e.a.data| == s.handles[e.a.h].slot.vec.len
    ensures Balanced(Step(s, e), p) && NobodyResets(Step(s, e), p)
  {
    hide Sum, Micro, RouteSize, Drop;
    HandleSums(s.handles, e.a.h, Worked(s.handles[e.a.h], e.a), p);
  }

  lemma NothingOfNextPool(s: State, p: nat)
    requires Inv(ANY, s) && p == |s.pools|
    ensures Sum(s.threads, AllocatingIn(p)) == Sum(s.threads, OversizeIn(p)) == Sum(s.threads, ReturningTo(p)) == 0
    ensures Sum(s.handles, MadeBy(p)) == Sum(s.handles, ReturnedTo(p)) == Sum(s.handles, OversizeOf(p)) == 0
    ensures NobodyResets(s, p)
  {
    hide Sum;
    forall t | 0 <= t < |s.threads| ensures Elsewhere(p, s.threads[t]) {
      assert ThreadOk(ANY, s.cfgs, s.threads[t]);
    }
    forall k | 0 <= k < |s.handles|
      ensures MadeBy(p)(s.handles[k]) == ReturnedTo(p)(s.handles[k]) == OversizeOf(p)(s.handles[k]) == 0 {
      assert HandleOk(ANY, s.cfgs, s.handles[k]);
    }
    SumZero(s.threads, AllocatingIn(p));
    SumZero(s.threads, OversizeIn(p));
    SumZero(s.threads, ReturningTo(p));
    SumZero(s.handles, MadeBy(p));
    SumZero(s.handles, ReturnedTo(p));
    SumZero(s.handles, OversizeOf(p));
  }

  lemma NewPoolKeepsBalance(s: State, e: Event, p: nat)
    requires Inv(ANY, s) && Enabled(s, e) && e.a.NewPool? && (p < |s.pools| ==> Balanced(s, p) && NobodyResets(s, p))
    ensures Balanced(Step(s, e), p) && (p < |Step(s, e).pools| ==> NobodyResets(Step(s, e), p))
  {
    hide Sum, Inv, Step, Enabled, Balanced;
    StepIsNewPool(s, e);
    if p == |s.pools| {
      NothingOfNextPool(s, p);
      EmptyBooks(Step(s, e), p);
    } else {
      SameBooks(s, Step(s, e), p);
    }
  }

  predicate ZeroBooks(ctr: Totals) {
    ctr.gets == Served(ctr) == ctr.puts == ctr.oversize == ctr.discards == 0
  }

  lemma EmptyBooks(s: State, p: nat)
    requires p < |s.pools| && ZeroBooks(s.pools[p].ctr)
    requires Sum(s.threads, AllocatingIn(p)) == Sum(s.threads, OversizeIn(p)) == Sum(s.threads, ReturningTo(p)) == 0
    requires Sum(s.handles, MadeBy(p)) == Sum(s.handles, ReturnedTo(p)) == Sum(s.handles, OversizeOf(p)) == 0
    ensures Balanced(s, p)
  {
  }

  lemma SameBooks(s: State, s': State, p: nat)
    requires p < |s'.pools| ==> p < |s.pools| && s'.pools[p].ctr == s.pools[p].ctr && Balanced(s, p)
    requires s'.threads == s.threads && s'.handles == s.handles
    ensures Balanced(s', p)
  {
  }

  lemma StepIsNewPool(s: State, e: Event)
    requires Enabled(s, e) && e.a.NewPool?
    ensures Step(s, e) == s.(cfgs := s.cfgs + [e.a.cfg], pools := s.pools + [NEW_POOL])
  {
    hide Micro, RouteSize, Drop, Worked;
  }

  /** Once a pool is there, its settings stay. */
  ghost predicate Tracked(s: State, p: nat) {
    p < |s.cfgs| ==> s.cfgs[p].track
  }

  lemma CfgsGrow(s: State, e: Event)
    requires Enabled(s, e)
    ensures Step(s, e).cfgs == if e.a.NewPool? then s.cfgs + [e.a.cfg] else s.cfgs
  {
    hide Micro, RouteSize, Worked;
  }

  ghost predicate Books(s: State, p: nat) {
    p < |s.pools| ==> Balanced(s, p) && NobodyResets(s, p)
  }

  lemma StepKeepsBooks(s: State, e: Event, p: nat)
    requires Inv(ANY, s) && Enabled(s, e) && e.a != BeginReset(p)
    requires Books(s, p) && Tracked(Step(s, e), p)
    ensures Books(Step(s, e), p) && Tracked(s, p)
  {
    hide Step, Balanced, NobodyResets, Worked;
    CfgsGrow(s, e);
    assert p < |s.cfgs| ==> Step(s, e).cfgs[p] == s.cfgs[p];
    if e.a.NewPool? { NewPoolKeepsBalance(s, e, p); }
    else {
      PoolsStay(s, e);
      if p < |s.pools| {
        if e.a.Go? { GoKeepsBalance(s, e, p); }
        else if e.a.BeginAlloc? || e.a.BeginWarm? || e.a.BeginDrain? || e.a.BeginReset? || e.a.BeginSnapshot?
            || e.a.Exit? {
          BeginKeepsBalance(s, e, p);
        }
        else if e.a.BeginDrop? || (e.a.WriteFromSlice? && |e.a.data| != s.handles[e.a.h].slot.vec.len) {
          StepIsDrop(s, e);
          DropKeepsBalance(s, e.t, e.a.h, p);
        } else { WorkKeepsBalance(s, e, p); }
      }
    }
  }

  lemma PoolsStay(s: State, e: Event)
    requires Enabled(s, e) && !e.a.NewPool?
    ensures |Step(s, e).pools| == |s.pools|
  {
    hide Micro, RouteSize, Worked;
  }

  lemma StepIsDrop(s: State, e: Event)
    requires Enabled(s, e)
    requires e.a.BeginDrop? || (e.a.WriteFromSlice? && |e.a.data| != s.handles[e.a.h].slot.vec.len)
    ensures Step(s, e) == Drop(s, e.t, e.a.h)
  {
    hide Micro, RouteSize, Worked, Drop;
  }

  lemma {:induction false} RunKeepsBooks(s: State, es: seq<Event>, p: nat)
    requires Inv(ANY, s) && ValidRun(s, es) && NeverReset(es, p)
    requires Books(s, p) && Tracked(After(s, es), p)
    ensures Books(After(s, es), p) && Tracked(s, p)
    decreases |es|
  {
    hide Step, Enabled, Inv, Books, Tracked;
    if es == [] {
    } else {
      StepKeepsInv(ANY, s, es[0]);
      assert NeverReset(es[1..], p);
      BooksBackwards(s, es, p);
      StepKeepsBooks(s, es[0], p);
      RunKeepsBooks(Step(s, es[0]), es[1..], p);
    }
  }

  /** A pool tracked at the end of a run was tracked all along. */
  lemma {:induction false} BooksBackwards(s: State, es: seq<Event>, p: nat)
    requires ValidRun(s, es) && es != [] && Tracked(After(s, es), p)
    ensures Tracked(Step(s, es[0]), p)
    decreases |es|
  {
    hide Step, Enabled;
    var s1 := Step(s, es[0]);
    if |es| <= 1 {
    } else {
      BooksBackwards(s1, es[1..], p);
      CfgsGrow(s1, es[1]);
    }
  }

  // ── Snapshots ───────────────────────────────────────────────────────

  lemma {:induction false} HeldPlusReturned(hs: seq<Handle>, p: nat)
    ensures Sum(hs, MadeBy(p)) == Sum(hs, ReturnedTo(p)) + Sum(hs, HeldOf(p))
  {
    if hs == [] {
    } else {
      HeldPlusReturned(hs[1..], p);
    }
  }

  /**
   The books of a tracked pool after every step of every run that never resets it. Gets are
   served or in flight; gets less puts are the buffers still held; the oversize counter is the
   oversize handles ever made, plus the oversize requests between their two updates, so it is within
   the allocations exactly when those requests are no more than the other allocations; discards are
   among the puts.
   */
  lemma CountersAddUp(n: nat, es: seq<Event>, p: nat)
    requires ValidRun(Initial(n), es) && NeverReset(es, p)
    requires p < |After(Initial(n), es).pools| && Tracked(After(Initial(n), es), p)
    ensures var s := After(Initial(n), es);
            var ctr := s.pools[p].ctr;
            && ctr.gets == ctr.tlsHits + ctr.sharedHits + ctr.allocations + Sum(s.threads, AllocatingIn(p))
            && ctr.gets == ctr.puts + Sum(s.handles, HeldOf(p)) + Sum(s.threads, AllocatingIn(p))
            && ctr.oversize == Sum(s.handles, OversizeOf(p)) + Sum(s.threads, OversizeIn(p))
            && Sum(s.handles, OversizeOf(p)) <= ctr.allocations
            && (ctr.oversize <= ctr.allocations <==>
                  Sum(s.threads, OversizeIn(p)) <= ctr.allocations - Sum(s.handles, OversizeOf(p)))
            && ctr.discards <= ctr.puts
  {
    hide Step, Enabled, Sum;
    InitialOk(ANY, n);
    RunKeepsBooks(Initial(n), es, p);
    HeldPlusReturned(After(Initial(n), es).handles, p);
  }

  const TRACKED: Settings := Settings(1, 1, 1, 0, true)

  /**
   The condition can fail: the oversize counter moves first, so with no other allocations to
   cover it, it is ahead of the allocation counter for one step.
   */
  lemma OversizeCanLead() returns (s: State)
    ensures Reachable(1, s) && |s.pools| == 1
    ensures s.pools[0].ctr.oversize == 1 && s.pools[0].ctr.allocations == 0
  {
    hide Reachable, RouteSize, Worked, Drop, RefillStep, ReturnStep, SpillStep, UpkeepStep;
    var r := Req(0, 67108865, false);
    RouteSizeExact(r.size, 0);
    var e0, e1, e2 := Event(0, NewPool(TRACKED)), Event(0, BeginAlloc(r)), Event(0, Go(HeapAllocate(0, 0, 0)));
    ReachableInitial(1);
    var s0 := Initial(1);
    var s1 := Step(s0, e0);
    ReachableStep(1, s0, e0);
    var s2 := Step(s1, e1);
    ReachableStep(1, s1, e1);
    s := Step(s2, e2);
    ReachableStep(1, s2, e2);
  }
}
