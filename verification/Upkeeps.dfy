/**
 The operations that keep a pool in order, when they run undisturbed: what a warm parks, what a drain
 and a reset leave, what a thread's exit frees; and what the pool never touches.
 */
module Upkeeps {
  import opened Options
  import opened Sums
  import opened Memory
  import opened Routing
  import opened Config
  import opened Magazine
  import opened Stats
  import opened Machine
  import opened Invariant
  import opened Safety
  import opened Refinement

  lemma CanGoOn(s: State, t: nat, raw: Vec)
    requires Inv(ANY, s) && t < |s.threads| && !s.threads[t].op.Idle? && Supplied(s.threads[t].op, s.created, raw)
    ensures Enabled(s, Event(t, Go(raw)))
  {
    hide Micro, Supplied;
    var p := PoolOf(s.threads[t].op);
    assert ThreadOk(ANY, s.cfgs, s.threads[t]);
    assert PoolOk(ANY, s.cfgs[p], p, s.pools[p]);
  }

  // ── Reset ───────────────────────────────────────────────────────────

  /** One store of a reset. */
  lemma ResetGoes(s: State, t: nat, p: nat, raw: Vec, k: nat)
    requires Inv(ANY, s) && t < |s.threads| && s.threads[t].op == Resetting(p, k) && k <= 6
    ensures Enabled(s, Event(t, Go(raw))) && p < |s.pools|
    ensures var s' := Step(s, Event(t, Go(raw)));
            && s' == s.(pools := s.pools[p := s.pools[p].(ctr := ZeroCounter(s.pools[p].ctr, k))],
                        threads := s.threads[t := s.threads[t].(op := if k < 6 then Resetting(p, k + 1) else Idle)])
  {
    hide Supplied, ZeroCounter, AllocStep, RefillStep, ReturnStep, SpillStep, SnapshotStep, RouteSize;
    NoSupplyNeeded(s.threads[t].op, s.created, raw);
    CanGoOn(s, t, raw);
    hide Enabled, Step, Inv;
    GoParts(s, Event(t, Go(raw)));
    var cs := s.pools[p].classes;
    assert cs[0 := cs[0]] == cs && s.freed + [] == s.freed;
  }

  /**
   A reset that runs alone, from its `k`-th store on, zeroes all seven counters and changes nothing else of
   the pool.
   */
  lemma {:induction false} ResetAlone(s: State, t: nat, p: nat, raw: Vec, k: nat)
    requires Inv(ANY, s) && t < |s.threads| && s.threads[t].op == Resetting(p, k) && k <= 6 && p < |s.pools|
    ensures ValidRun(s, Gos(t, raw, 7 - k))
    ensures var s', ctr := After(s, Gos(t, raw, 7 - k)), s.pools[p].ctr;
            && |s'.pools| == |s.pools| && s'.pools[p].classes == s.pools[p].classes
            && s'.threads == s.threads[t := s.threads[t].(op := Idle)] && s'.handles == s.handles && s'.freed == s.freed
            && var ctr' := s'.pools[p].ctr;
            && ctr'.gets == (if k == 0 then 0 else ctr.gets) && ctr'.tlsHits == (if k <= 1 then 0 else ctr.tlsHits)
            && ctr'.sharedHits == (if k <= 2 then 0 else ctr.sharedHits)
            && ctr'.allocations == (if k <= 3 then 0 else ctr.allocations)
            && ctr'.puts == (if k <= 4 then 0 else ctr.puts) && ctr'.discards == (if k <= 5 then 0 else ctr.discards)
            && ctr'.oversize == 0
    decreases 7 - k
  {
    hide Step, Enabled, Inv;
    var e := Event(t, Go(raw));
    ResetGoes(s, t, p, raw, k);
    StepKeepsInv(ANY, s, e);
    assert Gos(t, raw, 7 - k) == [e] + Gos(t, raw, 6 - k);
    if k == 6 {
      assert Gos(t, raw, 1)[1..] == [];
    } else {
      ResetAlone(Step(s, e), t, p, raw, k + 1);
    }
  }

  // ── Drain ───────────────────────────────────────────────────────────

  lemma DrainGoes(s: State, t: nat, p: nat, raw: Vec, c: nat)
    requires Inv(ANY, s) && t < |s.threads| && (s.threads[t].op.Draining? || s.threads[t].op.DrainStore?)
    requires s.threads[t].op.pool == p && s.threads[t].op.c == c
    ensures Enabled(s, Event(t, Go(raw))) && p < |s.pools| && c < NUM_CLASSES == |s.pools[p].classes|
    ensures var s', th, sc := Step(s, Event(t, Go(raw))), s.threads[t], s.pools[p].classes[c];
            && |s'.pools| == |s.pools| && |s'.threads| == |s.threads| && s'.handles == s.handles
            && s'.threads[t].tls == th.tls
            && if th.op.DrainStore? then
                 && s'.pools[p].classes == s.pools[p].classes[c := SharedClass(sc.queue, 0)] && s'.freed == s.freed
                 && s'.threads[t].op == if c < 7 then Draining(p, c + 1, 0) else Idle
               else if sc.queue == [] then
                 && s'.pools[p].classes == s.pools[p].classes && s'.freed == s.freed
                 && s'.threads[t].op == DrainStore(p, c, th.op.popped)
               else
                 && s'.pools[p].classes == s.pools[p].classes[c := SharedClass(sc.queue[1..], sc.count)]
                 && s'.freed == s.freed + [sc.queue[0]] && s'.threads[t].op == Draining(p, c, th.op.popped + 1)
  {
    hide Supplied, AllocStep, RefillStep, ReturnStep, SpillStep, SnapshotStep, RouteSize;
    assert PoolOk(ANY, s.cfgs[p], p, s.pools[p]) by {
      assert ThreadOk(ANY, s.cfgs, s.threads[t]);
    }
    NoSupplyNeeded(s.threads[t].op, s.created, raw);
    CanGoOn(s, t, raw);
    hide Enabled, Step, Inv;
    GoParts(s, Event(t, Go(raw)));
    var cs := s.pools[p].classes;
    assert cs[c := cs[c]] == cs && s.freed + [] == s.freed;
  }

  /** Everything queued in classes `c` and up, in order. */
  function QueuedFrom(cs: seq<SharedClass>, c: nat): seq<Vec>
    requires c <= |cs|
    decreases |cs| - c
  {
    if c == |cs| then [] else cs[c].queue + QueuedFrom(cs, c + 1)
  }

  lemma {:induction false} QueuedAbove(cs: seq<SharedClass>, c: nat, sc: SharedClass, d: nat)
    requires c < d <= |cs|
    ensures QueuedFrom(cs[c := sc], d) == QueuedFrom(cs, d)
    decreases |cs| - d
  {
    if d == |cs| {
    } else {
      QueuedAbove(cs, c, sc, d + 1);
    }
  }

  /**
   A drain that runs alone frees everything queued, class by class and oldest first, and leaves every class
   empty with its counter at zero; no thread's caches change.
   */
  lemma {:induction false} DrainAlone(s: State, t: nat, p: nat, raw: Vec, c: nat) returns (k: nat)
    requires Inv(ANY, s) && t < |s.threads| && (s.threads[t].op.Draining? || s.threads[t].op.DrainStore?)
    requires s.threads[t].op.pool == p && s.threads[t].op.c == c && p < |s.pools|
    requires c < NUM_CLASSES == |s.pools[p].classes|
    requires s.threads[t].op.DrainStore? ==> s.pools[p].classes[c].queue == []
    ensures ValidRun(s, Gos(t, raw, k))
    ensures var s' := After(s, Gos(t, raw, k));
            && t < |s'.threads| && s'.threads[t].op.Idle? && s'.threads[t].tls == s.threads[t].tls
            && p < |s'.pools| && |s'.pools[p].classes| == NUM_CLASSES
            && (forall d :: c <= d < NUM_CLASSES ==> s'.pools[p].classes[d] == SharedClass([], 0))
            && (forall d :: 0 <= d < c ==> s'.pools[p].classes[d] == s.pools[p].classes[d])
            && s'.freed == s.freed + QueuedFrom(s.pools[p].classes, c) && s'.handles == s.handles
    decreases NUM_CLASSES - c, |s.pools[p].classes[c].queue|, if s.threads[t].op.Draining? then 1 else 0
  {
    hide Step, Enabled, Inv;
    var e := Event(t, Go(raw));
    DrainGoes(s, t, p, raw, c);
    StepKeepsInv(ANY, s, e);
    var s1 := Step(s, e);
    var cs, cs1 := s.pools[p].classes, s1.pools[p].classes;
    if s.threads[t].op.DrainStore? && c == 7 {
      k := 1;
      assert Gos(t, raw, 1) == [e] && [e][1..] == [];
      assert QueuedFrom(cs, 7) == [] + QueuedFrom(cs, 8) == [];
    } else {
      var c1 := if s.threads[t].op.DrainStore? then c + 1 else c;
      var k1 := DrainAlone(s1, t, p, raw, c1);
      k := 1 + k1;
      assert Gos(t, raw, k) == [e] + Gos(t, raw, k1) && Gos(t, raw, k)[1..] == Gos(t, raw, k1);
      QueuedAbove(cs, c, cs1[c], c + 1);
      if c1 == c && cs[c].queue != [] {
        assert [cs[c].queue[0]] + cs[c].queue[1..] == cs[c].queue;
      }
      assert s.freed + QueuedFrom(cs, c) == s1.freed + QueuedFrom(cs1, c1);
    }
  }

  // ── Warm ────────────────────────────────────────────────────────────

  /** An allocator for this class: its answer to each request, by how many buffers there are already. */
  ghost predicate Serves(f: nat -> Vec, p: nat, c: nat) {
    forall i: nat :: Supplied(WarmLoop(p, c, 0), i, f(i))
  }

  function Answers(f: nat -> Vec, from: nat, k: nat): (vs: seq<Vec>)
    ensures |vs| == k && forall i :: 0 <= i < k ==> vs[i] == f(from + i)
  {
    seq(k, i requires 0 <= i < k => f(from + i))
  }

  /** Queue a buffer and count it, undisturbed: two steps. */
  lemma WarmsOne(s: State, t: nat, p: nat, c: nat, rem: nat, f: nat -> Vec) returns (s2: State)
    requires Inv(ANY, s) && t < |s.threads| && s.threads[t].op == WarmLoop(p, c, rem) && Serves(f, p, c) && rem > 0
    requires p < |s.pools| == |s.cfgs| && c < NUM_CLASSES == |s.pools[p].classes|
    requires |s.pools[p].classes[c].queue| < s.cfgs[p].maxBuffers
    ensures var e := Event(t, Go(f(s.created)));
            Enabled(s, e) && Enabled(Step(s, e), e) && s2 == Step(Step(s, e), e) && Inv(ANY, s2)
    ensures var sc := s.pools[p].classes[c];
            && s2.cfgs == s.cfgs && |s2.pools| == |s.pools|
            && s2.pools[p].classes
                == s.pools[p].classes[c := SharedClass(sc.queue + [f(s.created)], Wrap(sc.count + 1))]
            && s2.threads == s.threads[t := s.threads[t].(op := WarmLoop(p, c, rem - 1))]
            && s2.handles == s.handles && s2.freed == s.freed && s2.created == s.created + 1
  {
    hide Supplied, AllocStep, RefillStep, ReturnStep, SpillStep, SnapshotStep, RouteSize, Wrap, Inv;
    var e := Event(t, Go(f(s.created)));
    SupplyAnyRem(p, c, rem, s.created, f(s.created));
    CanGoOn(s, t, f(s.created));
    hide Enabled, Step;
    GoParts(s, e);
    StepKeepsInv(ANY, s, e);
    var s1 := Step(s, e);
    var sc := s.pools[p].classes[c];
    assert s1.pools[p].classes[c] == Enqueue(sc, f(s.created)) && s1.threads[t].op == WarmCount(p, c, rem - 1);
    NoSupplyNeeded(s1.threads[t].op, s1.created, f(s.created));
    CanGoOn(s1, t, f(s.created));
    GoParts(s1, e);
    s2 := Step(s1, e);
    StepKeepsInv(ANY, s1, e);
    assert s.freed + [] + [] == s.freed;
    assert s.pools[p].classes[c := s1.pools[p].classes[c]][c := s2.pools[p].classes[c]]
           == s.pools[p].classes[c := s2.pools[p].classes[c]];
  }

  lemma SupplyAnyRem(p: nat, c: nat, rem: nat, created: nat, raw: Vec)
    requires Supplied(WarmLoop(p, c, 0), created, raw)
    ensures Supplied(WarmLoop(p, c, rem), created, raw)
  {
  }

  /** The last step: nothing left to warm, or no room for the buffer just made. */
  lemma WarmStops(s: State, t: nat, p: nat, c: nat, rem: nat, f: nat -> Vec) returns (s': State)
    requires Inv(ANY, s) && t < |s.threads| && s.threads[t].op == WarmLoop(p, c, rem) && Serves(f, p, c)
    requires p < |s.pools| == |s.cfgs| && c < NUM_CLASSES == |s.pools[p].classes|
    requires rem == 0 || |s.pools[p].classes[c].queue| >= s.cfgs[p].maxBuffers
    ensures var e := Event(t, Go(f(s.created)));
            Enabled(s, e) && s' == Step(s, e)
    ensures && |s'.pools| == |s.pools| && s'.pools[p].classes == s.pools[p].classes
            && s'.threads == s.threads[t := s.threads[t].(op := Idle)] && s'.handles == s.handles
            && s'.freed == (if rem == 0 then s.freed else s.freed + [f(s.created)])
            && s'.created == (if rem == 0 then s.created else s.created + 1)
  {
    hide Supplied, AllocStep, RefillStep, ReturnStep, SpillStep, SnapshotStep, RouteSize, Inv;
    var e := Event(t, Go(f(s.created)));
    SupplyAnyRem(p, c, rem, s.created, f(s.created));
    CanGoOn(s, t, f(s.created));
    hide Enabled, Step;
    GoParts(s, e);
    s' := Step(s, e);
    var cs := s.pools[p].classes;
    assert cs[c := cs[c]] == cs && s.freed + [] == s.freed;
  }

  /**
   A warm of `rem` that runs alone parks as many new buffers as are asked for and fit, at the tail of its
   class and in the order made, counts them, and calls the allocator once more only if the queue is full
   before it is done; that last buffer is freed.
   */
  lemma {:induction false} WarmAlone(s: State, t: nat, p: nat, c: nat, rem: nat, f: nat -> Vec) returns (es: seq<Event>)
    requires Inv(ANY, s) && t < |s.threads| && s.threads[t].op == WarmLoop(p, c, rem) && Serves(f, p, c)
    requires p < |s.pools| == |s.cfgs| && c < NUM_CLASSES == |s.pools[p].classes|
    requires |s.pools[p].classes[c].queue| <= s.cfgs[p].maxBuffers && s.pools[p].classes[c].count < TWO64
    ensures ValidRun(s, es) && forall k :: 0 <= k < |es| ==> es[k].t == t && es[k].a.Go?
    ensures var s', sc := After(s, es), s.pools[p].classes[c];
            var m := Min(rem, s.cfgs[p].maxBuffers - |sc.queue|);
            && |s'.pools| == |s.pools|
            && s'.pools[p].classes
                == s.pools[p].classes[c := SharedClass(sc.queue + Answers(f, s.created, m), Wrap(sc.count + m))]
            && s'.threads == s.threads[t := s.threads[t].(op := Idle)] && s'.handles == s.handles
            && s'.freed == (if m == rem then s.freed else s.freed + [f(s.created + m)])
            && s'.created == s.created + m + (if m == rem then 0 else 1)
    decreases rem
  {
    hide Step, Enabled, Inv, Serves, Wrap;
    var sc := s.pools[p].classes[c];
    var e := Event(t, Go(f(s.created)));
    if rem == 0 || |sc.queue| == s.cfgs[p].maxBuffers {
      var s' := WarmStops(s, t, p, c, rem, f);
      es := [e];
      assert es[1..] == [];
      assert sc.queue + Answers(f, s.created, 0) == sc.queue;
      WrapSmall(sc.count);
      assert s.pools[p].classes[c := sc] == s.pools[p].classes;
    } else {
      var s2 := WarmsOne(s, t, p, c, rem, f);
      WrapSmall(sc.count);
      WrapBound(sc.count + 1);
      var rest := WarmAlone(s2, t, p, c, rem - 1, f);
      es := [e, e] + rest;
      assert es[1..] == [e] + rest && ([e] + rest)[1..] == rest;
      assert ValidRun(Step(s, e), [e] + rest);
      var m := Min(rem - 1, s.cfgs[p].maxBuffers - |sc.queue| - 1);
      assert sc.queue + [f(s.created)] + Answers(f, s.created + 1, m) == sc.queue + Answers(f, s.created, m + 1);
      WrapDown(sc.count + 1, m);
    }
  }

  lemma WrapSmall(x: nat)
    requires x < TWO64
    ensures Wrap(x) == x
  {
  }

  lemma WrapBound(x: int)
    ensures Wrap(x) < TWO64
  {
  }

  // ── What is left alone ──────────────────────────────────────────────

  /** A thread that exits frees every buffer it has cached, and touches no pool and no handle. */
  lemma ExitFreesCaches(s: State, t: nat)
    requires Enabled(s, Event(t, Exit))
    ensures var s' := Step(s, Event(t, Exit));
            && t < |s'.threads| == |s.threads| && |s'.threads[t].tls.caches| == NUM_CLASSES
            && (forall c :: 0 <= c < NUM_CLASSES ==> s'.threads[t].tls.caches[c] == [])
            && s'.freed == s.freed + Flatten(s.threads[t].tls.caches) && s'.pools == s.pools && s'.handles == s.handles
            && forall u :: 0 <= u < |s.threads| && u != t ==> s'.threads[u] == s.threads[u]
  {
    hide Micro, RouteSize, Worked;
    assert forall c :: 0 <= c < NUM_CLASSES ==> EMPTY_CACHES[c] == [];
  }

  /** An oversize request, and the return of a buffer not to be kept. */
  ghost predicate Bypasses(s: State, e: Event)
    requires Enabled(s, e) && e.a.Go?
  {
    var op := s.threads[e.t].op;
    || (op.Start? && RouteSize(op.r.size).None?) || op.Oversize?
    || (op.Return? && (op.hint == OVERSIZE_HINT || op.vec.Capacity() < s.cfgs[op.pool].minSize))
  }

  /** These go past every cache and every queue, and leave the thread bound as it was. */
  lemma BypassTouchesNothing(s: State, e: Event)
    requires Enabled(s, e) && e.a.Go? && Bypasses(s, e)
    ensures var s' := Step(s, e);
            && e.t < |s'.threads| == |s.threads| && s'.threads[e.t].tls == s.threads[e.t].tls && |s'.pools| == |s.pools|
            && (forall p :: 0 <= p < |s.pools| ==> s'.pools[p].classes == s.pools[p].classes)
            && (s.threads[e.t].op.Return? ==> s'.freed == s.freed + [s.threads[e.t].op.vec] && s'.threads[e.t].op.Idle?)
  {
    hide Supplied, RouteCapacity, Attach, RefillStep, SpillStep, UpkeepStep, SnapshotStep;
    var p := PoolOf(s.threads[e.t].op);
    assert s.pools[p].classes[0 := s.pools[p].classes[0]] == s.pools[p].classes;
  }

  /** The vector an allocation is about to hand out. */
  function AboutToHandOut(op: Op, raw: Vec): Vec {
    if op.Hit? || op.RefillLoop? then op.vec else raw
  }

  lemma MadeFrom(cfg: Settings, th: Thread, sc: SharedClass, ctr: Totals, raw: Vec)
    requires Shaped(th) && !th.op.Idle?
    ensures var made := Micro(cfg, th, sc, ctr, raw).made;
            made.Some? ==>
              && (th.op.Hit? || th.op.RefillLoop? || th.op.Oversize? || th.op.Cold?)
              && made.value.uninit == th.op.r.uninit && made.value.size == th.op.r.size
              && made.value.slot == Live(if th.op.Hit? || th.op.RefillLoop? then Recycle(th.op.vec, th.op.r)
                                         else Cut(raw, th.op.r))
  {
    hide Recycle, Cut, RouteSize, Attach, Decide, Wrap;
  }

  /**
   Handing out writes nothing it need not: an uninitialised buffer keeps every byte it had, and a zeroed one
   every byte past the request.
   */
  lemma HandingOutKeepsBytes(s: State, e: Event)
    requires Inv(ANY, s) && Enabled(s, e) && e.a.Go? && |Step(s, e).handles| > |s.handles|
    ensures var h, v := Step(s, e).handles[|s.handles|], AboutToHandOut(s.threads[e.t].op, e.a.raw);
            && h.slot.Live? && h.slot.vec.id == v.id && h.slot.vec.Capacity() == v.Capacity()
            && (h.uninit ==> h.slot.vec.store == v.store)
            && (!h.uninit ==> forall k :: h.size <= k < v.Capacity() ==> h.slot.vec.store[k] == v.store[k])
  {
    hide Step, Enabled, Micro, Supplied, ClassOf, RouteSize;
    GoParts(s, e);
    var th := s.threads[e.t];
    var p, c := PoolOf(th.op), ClassOf(th.op);
    assert ThreadOk(ANY, s.cfgs, th);
    MadeFrom(s.cfgs[p], th, s.pools[p].classes[c], s.pools[p].ctr, e.a.raw);
    if th.op.Hit? || th.op.RefillLoop? { ResizeKeepsRest(th.op.vec, th.op.r.size, Boundary(th.op.c)); }
  }

  lemma ResizeKeepsRest(v: Vec, n: nat, bound: nat)
    requires v.Valid() && n <= bound <= v.Capacity()
    ensures v.ResizeZeroed(n).id == v.id && v.ResizeZeroed(n).Capacity() == v.Capacity()
    ensures forall k :: n <= k < v.Capacity() ==> v.ResizeZeroed(n).store[k] == v.store[k]
  {
  }

  /** Where each of these operations begins: a warm in the smallest class that fits, or nowhere; a drain at class 0. */
  lemma UpkeepBegins(s: State, e: Event)
    requires Enabled(s, e) && (e.a.BeginWarm? || e.a.BeginDrain? || e.a.BeginReset? || e.a.BeginSnapshot?)
    ensures var s', op := Step(s, e), Step(s, e).threads[e.t].op;
            && s' == s.(threads := s.threads[e.t := s.threads[e.t].(op := op)])
            && (e.a.BeginWarm? && e.a.size > 67108864 ==> op.Idle?)
            && (e.a.BeginWarm? && e.a.size <= 67108864 ==>
                  && op.WarmLoop? && op.pool == e.a.pool && op.rem == e.a.count
                  && op.c < NUM_CLASSES && e.a.size <= Boundary(op.c)
                  && forall c :: 0 <= c < op.c ==> Boundary(c) < e.a.size)
            && (e.a.BeginDrain? ==> op == Draining(e.a.pool, 0, 0))
            && (e.a.BeginReset? ==> op == Resetting(e.a.pool, 0))
            && (e.a.BeginSnapshot? ==> op.Snapshotting? && op.pool == e.a.pool && op.k == 0 && op.counts == [])
  {
    hide Micro, Worked, Drop, RouteSize;
    if e.a.BeginWarm? { RouteSizeExact(e.a.size, 0); }
  }
}
