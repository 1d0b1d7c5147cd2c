/**
 When the documented range of the hit rates holds. A snapshot is separate loads, so hits recorded
 between its first load and the others can push a rate above one; a reset is separate stores, so
 allocations that overlap it can leave the counters out of step for good. Both conditions are exact.
 */
module Rates {
  import opened Sums
  import opened Memory
  import opened Routing
  import opened Magazine
  import opened Stats
  import opened Machine
  import opened Invariant
  import opened Safety
  import opened Accounting
  import opened Scripts
  import opened Returns
  import opened Snapshots

  /** How far gets fall short of what was served and what is in flight; what the rates depend on. */
  ghost function Skew(s: State, p: nat): int
    requires p < |s.pools|
  {
    Served(s.pools[p].ctr) + Sum(s.threads, AllocatingIn(p)) - s.pools[p].ctr.gets
  }

  predicate ResetsAt(th: Thread, p: nat) {
    th.op.Resetting? && th.op.pool == p
  }

  /** While a thread resets the counters of pool `p`, no allocation of that pool is in flight. */
  ghost predicate QuietResets(s: State, p: nat) {
    forall t, u :: 0 <= t < |s.threads| && 0 <= u < |s.threads| && ResetsAt(s.threads[t], p)
        ==> !AllocIn(p, s.threads[u].op)
  }

  ghost predicate QuietThroughout(s: State, es: seq<Event>, p: nat)
    requires ValidRun(s, es)
    decreases |es|
  {
    QuietResets(s, p) && (es == [] || QuietThroughout(Step(s, es[0]), es[1..], p))
  }

  /** What a reset has already stored. */
  predicate Progress(ctr: Totals, k: nat) {
    && (k >= 1 ==> ctr.gets == 0) && (k >= 2 ==> ctr.tlsHits == 0)
    && (k >= 3 ==> ctr.sharedHits == 0) && (k >= 4 ==> ctr.allocations == 0)
  }

  predicate HalfWay(th: Thread, p: nat) {
    ResetsAt(th, p) && 1 <= th.op.k <= 3
  }

  /** Gets are what was served plus what is in flight, except in the middle of a reset, when gets are zero. */
  ghost predicate RateBooks(s: State, p: nat) {
    p < |s.pools| ==>
      && (forall t :: 0 <= t < |s.threads| && ResetsAt(s.threads[t], p) ==> Progress(s.pools[p].ctr, s.threads[t].op.k))
      && ((forall t :: 0 <= t < |s.threads| ==> !HalfWay(s.threads[t], p)) ==> BookHolds(s, p))
  }

  ghost predicate BookHolds(s: State, p: nat)
    requires p < |s.pools|
  {
    Skew(s, p) == 0
  }

  lemma NobodyAllocates(s: State, t: nat, p: nat)
    requires t < |s.threads| && QuietResets(s, p) && ResetsAt(s.threads[t], p)
    ensures Sum(s.threads, AllocatingIn(p)) == 0
  {
    forall u | 0 <= u < |s.threads| ensures AllocatingIn(p)(s.threads[u]) == 0 {}
    SumZero(s.threads, AllocatingIn(p));
  }

  lemma AllocSum(ts: seq<Thread>, t: nat, th: Thread, p: nat)
    requires t < |ts|
    ensures Sum(ts[t := th], AllocatingIn(p)) + AllocatingIn(p)(ts[t]) == Sum(ts, AllocatingIn(p)) + AllocatingIn(p)(th)
  {
    SumUpdate(ts, t, th, AllocatingIn(p));
  }

  /** One more store of a reset. */
  lemma StoreKeepsRates(s: State, e: Event, p: nat)
    requires Inv(ANY, s) && Enabled(s, e) && e.a.Go? && ResetsAt(s.threads[e.t], p) && p < |s.pools|
    requires RateBooks(s, p) && QuietResets(s, p)
    ensures RateBooks(Step(s, e), p)
  {
    hide Sum, Inv, Supplied, AllocStep, RefillStep, ReturnStep, SpillStep;
    var th := s.threads[e.t];
    var k := th.op.k;
    var s' := Step(s, e);
    NobodyAllocates(s, e.t, p);
    AllocSum(s.threads, e.t, s'.threads[e.t], p);
    var ctr, ctr' := s.pools[p].ctr, s'.pools[p].ctr;
    assert ctr' == ZeroCounter(ctr, k);
    assert Progress(ctr, k);
    forall u | 0 <= u < |s'.threads| && ResetsAt(s'.threads[u], p) ensures Progress(ctr', s'.threads[u].op.k) {
      if u != e.t { assert Progress(ctr, s.threads[u].op.k); }
    }
    if k == 0 {
      assert HalfWay(s'.threads[e.t], p);
    } else if k <= 2 {
      assert HalfWay(s'.threads[e.t], p);
    } else {
      assert Progress(ctr', 4) && Served(ctr') == 0;
    }
  }

  /** Any other step of a thread in the middle of something. */
  lemma GoKeepsRates(s: State, e: Event, p: nat)
    requires Inv(ANY, s) && Enabled(s, e) && e.a.Go? && !ResetsAt(s.threads[e.t], p) && p < |s.pools| && s.cfgs[p].track
    requires RateBooks(s, p) && QuietResets(s, p)
    ensures RateBooks(Step(s, e), p)
  {
    hide Sum, Micro, Supplied, Inv;
    GoShape(s, e, p);
    var th := s.threads[e.t];
    var s' := Step(s, e);
    AllocSum(s.threads, e.t, s'.threads[e.t], p);
    forall u | 0 <= u < |s'.threads| && ResetsAt(s'.threads[u], p)
      ensures Progress(s'.pools[p].ctr, s'.threads[u].op.k) {
      assert u != e.t && ResetsAt(s.threads[u], p) && !AllocIn(p, th.op);
      assert Progress(s.pools[p].ctr, s.threads[u].op.k);
    }
    if forall u :: 0 <= u < |s'.threads| ==> !HalfWay(s'.threads[u], p) {
      forall u | 0 <= u < |s.threads| ensures !HalfWay(s.threads[u], p) {
        if u != e.t { assert s'.threads[u] == s.threads[u] && !HalfWay(s'.threads[u], p); }
      }
    }
  }

  lemma GoShape(s: State, e: Event, p: nat)
    requires Inv(ANY, s) && Enabled(s, e) && e.a.Go? && !ResetsAt(s.threads[e.t], p) && p < |s.pools| && s.cfgs[p].track
    ensures var s', th, th' := Step(s, e), s.threads[e.t], Step(s, e).threads[e.t];
            var ctr, ctr' := s.pools[p].ctr, s'.pools[p].ctr;
            && s'.threads == s.threads[e.t := th'] && |s'.pools| == |s.pools|
            && !ResetsAt(th', p) && ctr'.gets == ctr.gets
            && Served(ctr') + AllocatingIn(p)(th') == Served(ctr) + AllocatingIn(p)(th)
            && (!AllocIn(p, th.op) ==> ctr'.tlsHits == ctr.tlsHits && ctr'.sharedHits == ctr.sharedHits
                                       && ctr'.allocations == ctr.allocations)
  {
    hide Sum, Micro, Supplied, HandleOk, PoolOk, ThreadOk;
    var th := s.threads[e.t];
    var q, c := PoolOf(th.op), ClassOf(th.op);
    if q == p {
      MicroAccounts(s.cfgs[q], th, s.pools[q].classes[c], s.pools[q].ctr, e.a.raw);
    } else {
      MicroElsewhere(s.cfgs[q], th, s.pools[q].classes[c], s.pools[q].ctr, e.a.raw, p);
    }
  }

  /** What an event that continues no operation does to these counters and to its thread. */
  lemma OtherShape(s: State, e: Event, p: nat)
    requires Enabled(s, e) && !e.a.Go? && p < |s.pools| && p < |s.cfgs| && s.cfgs[p].track
    ensures var s', th' := Step(s, e), Step(s, e).threads[e.t];
            var ctr, ctr' := s.pools[p].ctr, s'.pools[p].ctr;
            && s'.threads == s.threads[e.t := th'] && p < |s'.pools| && !HalfWay(s.threads[e.t], p)
            && ctr'.tlsHits == ctr.tlsHits && ctr'.sharedHits == ctr.sharedHits && ctr'.allocations == ctr.allocations
            && ctr'.gets == ctr.gets + Flag(AllocIn(p, th'.op)) && !AllocIn(p, s.threads[e.t].op)
            && (ResetsAt(th', p) ==> th'.op.k == 0)
  {
    hide Micro, RouteSize, Worked;
    if e.a.BeginDrop? || e.a.WriteFromSlice? { assert LiveHandle(s, e.a.h); }
  }

  lemma OtherKeepsRates(s: State, e: Event, p: nat)
    requires Enabled(s, e) && !e.a.Go? && p < |s.pools| && p < |s.cfgs| && s.cfgs[p].track
    requires RateBooks(s, p) && QuietResets(Step(s, e), p)
    ensures RateBooks(Step(s, e), p)
  {
    hide Sum, Step, Enabled;
    OtherShape(s, e, p);
    OtherInRange(s, e);
    var s' := Step(s, e);
    AllocSum(s.threads, e.t, s'.threads[e.t], p);
    forall u | 0 <= u < |s'.threads| && ResetsAt(s'.threads[u], p)
      ensures Progress(s'.pools[p].ctr, s'.threads[u].op.k) {
      if u != e.t {
        assert !AllocIn(p, s'.threads[e.t].op);
        assert Progress(s.pools[p].ctr, s.threads[u].op.k);
      }
    }
    if forall u :: 0 <= u < |s'.threads| ==> !HalfWay(s'.threads[u], p) {
      forall u | 0 <= u < |s.threads| ensures !HalfWay(s.threads[u], p) {
        if u != e.t { assert s'.threads[u] == s.threads[u] && !HalfWay(s'.threads[u], p); }
      }
    }
  }

  lemma OtherInRange(s: State, e: Event)
    requires Enabled(s, e)
    ensures e.t < |s.threads|
  {
  }

  lemma EvenBooks(s: State, p: nat)
    requires p < |s.pools| && ZeroBooks(s.pools[p].ctr) && Sum(s.threads, AllocatingIn(p)) == 0 && NobodyResets(s, p)
    ensures RateBooks(s, p)
  {
    hide Sum;
  }

  lemma NewPoolParts(s: State, e: Event)
    requires Enabled(s, e) && e.a.NewPool?
    ensures Step(s, e).threads == s.threads && |Step(s, e).pools| == |s.pools| + 1
    ensures ZeroBooks(Step(s, e).pools[|s.pools|].ctr)
  {
    hide Step, Enabled;
    StepIsNewPool(s, e);
  }

  lemma NewPoolStartsEven(s: State, e: Event, p: nat)
    requires Inv(ANY, s) && Enabled(s, e) && e.a.NewPool? && p == |s.pools|
    ensures RateBooks(Step(s, e), p)
  {
    hide Sum, Inv, Step, Enabled, RateBooks, ZeroBooks;
    NewPoolParts(s, e);
    NothingOfNextPool(s, p);
    EvenBooks(Step(s, e), p);
  }

  lemma StepKeepsRates(s: State, e: Event, p: nat)
    requires Inv(ANY, s) && Enabled(s, e) && Tracked(Step(s, e), p)
    requires RateBooks(s, p) && QuietResets(s, p) && QuietResets(Step(s, e), p)
    ensures RateBooks(Step(s, e), p)
  {
    hide Step, RateBooks, QuietResets, Worked;
    CfgsGrow(s, e);
    if p < |s.pools| {
      assert p < |s.cfgs| && Step(s, e).cfgs[p] == s.cfgs[p];
      if !e.a.Go? { OtherKeepsRates(s, e, p); }
      else if ResetsAt(s.threads[e.t], p) { StoreKeepsRates(s, e, p); }
      else { GoKeepsRates(s, e, p); }
    } else if e.a.NewPool? && p == |s.pools| {
      NewPoolStartsEven(s, e, p);
    } else {
      NoPoolNoBooks(s, e, p);
    }
  }

  lemma NoPoolNoBooks(s: State, e: Event, p: nat)
    requires Enabled(s, e) && p >= |s.pools| && !(e.a.NewPool? && p == |s.pools|)
    ensures RateBooks(Step(s, e), p)
  {
    hide Micro, RouteSize, Worked;
  }

  lemma {:induction false} RunKeepsRates(s: State, es: seq<Event>, p: nat)
    requires Inv(ANY, s) && ValidRun(s, es) && QuietThroughout(s, es, p)
    requires RateBooks(s, p) && Tracked(After(s, es), p)
    ensures RateBooks(After(s, es), p)
    decreases |es|
  {
    hide Step, Enabled, Inv, RateBooks, Tracked, QuietResets;
    if es == [] {
    } else {
      StepKeepsInv(ANY, s, es[0]);
      BooksBackwards(s, es, p);
      StepKeepsRates(s, es[0], p);
      RunKeepsRates(Step(s, es[0]), es[1..], p);
    }
  }

  lemma RatesOfBooks(s: State, p: nat)
    requires p < |s.pools| && RateBooks(s, p) && s.pools[p].ctr.gets < TWO64
    ensures 0.0 <= TlsHitRate(s.pools[p].ctr) <= HitRate(s.pools[p].ctr) <= 1.0
  {
    hide Sum;
    var ctr := s.pools[p].ctr;
    if BookHolds(s, p) {
      RatesFromBooks(ctr, Sum(s.threads, AllocatingIn(p)));
    } else {
      var t :| 0 <= t < |s.threads| && HalfWay(s.threads[t], p);
      assert Progress(ctr, s.threads[t].op.k);
    }
  }

  /**
   The rates of a tracked pool's counters, all taken at one instant, are in [0, 1] in every state of
   every run whose resets never overlap an allocation of the pool, in the middle of a reset too. What
   a snapshot reports is another matter: see `SnapshotRatesExact`.
   */
  lemma HitRatesInRange(n: nat, es: seq<Event>, p: nat)
    requires ValidRun(Initial(n), es) && QuietThroughout(Initial(n), es, p)
    requires p < |After(Initial(n), es).pools| && Tracked(After(Initial(n), es), p)
    requires After(Initial(n), es).pools[p].ctr.gets < TWO64
    ensures var ctr := After(Initial(n), es).pools[p].ctr;
            0.0 <= TlsHitRate(ctr) <= HitRate(ctr) <= 1.0
  {
    hide Step, Enabled, Sum, TlsHitRate, HitRate, QuietThroughout;
    InitialOk(ANY, n);
    RunKeepsRates(Initial(n), es, p);
    RatesOfBooks(After(Initial(n), es), p);
  }

  // ── Resets ──────────────────────────────────────────────────────────

  /** This event zeroes one of the four counters the rates depend on. */
  predicate ResetStore(s: State, e: Event, p: nat) {
    e.a.Go? && e.t < |s.threads| && ResetsAt(s.threads[e.t], p) && s.threads[e.t].op.k <= 3
  }

  /** A store of a reset zeroes its counter and nothing else. */
  lemma StoreShape(s: State, e: Event, p: nat)
    requires Enabled(s, e) && e.a.Go? && ResetsAt(s.threads[e.t], p) && p < |s.pools|
    ensures var s', th' := Step(s, e), Step(s, e).threads[e.t];
            && s'.threads == s.threads[e.t := th'] && |s'.pools| == |s.pools|
            && s'.pools[p].ctr == ZeroCounter(s.pools[p].ctr, s.threads[e.t].op.k)
            && th'.op == (if s.threads[e.t].op.k < 6 then Resetting(p, s.threads[e.t].op.k + 1) else Idle)
            && Sum(s'.threads, AllocatingIn(p)) == Sum(s.threads, AllocatingIn(p))
  {
    hide Sum, Supplied, AllocStep, RefillStep, ReturnStep, SpillStep, ZeroCounter, RouteSize;
    AllocSum(s.threads, e.t, Step(s, e).threads[e.t], p);
  }

  /** Nothing but the first four stores of a reset moves the skew of a tracked pool. */
  lemma OnlyResetStoresMoveSkew(s: State, e: Event, p: nat)
    requires Inv(ANY, s) && Enabled(s, e) && p < |s.pools| && p < |s.cfgs| && s.cfgs[p].track && !ResetStore(s, e, p)
    ensures p < |Step(s, e).pools| && Skew(Step(s, e), p) == Skew(s, p)
  {
    hide Sum, Step, Enabled, Inv;
    OtherInRange(s, e);
    if !e.a.Go? {
      OtherShape(s, e, p);
      AllocSum(s.threads, e.t, Step(s, e).threads[e.t], p);
    } else if ResetsAt(s.threads[e.t], p) {
      StoreShape(s, e, p);
    } else {
      GoShape(s, e, p);
      AllocSum(s.threads, e.t, Step(s, e).threads[e.t], p);
    }
  }

  /** Each of those four moves it by exactly the counter it zeroes. */
  lemma ResetStoreMovesSkew(s: State, e: Event, p: nat)
    requires Enabled(s, e) && p < |s.pools| && ResetStore(s, e, p)
    ensures var ctr, k := s.pools[p].ctr, s.threads[e.t].op.k;
            && p < |Step(s, e).pools|
            && Skew(Step(s, e), p) == (if k == 0 then Skew(s, p) + ctr.gets else if k == 1 then Skew(s, p) - ctr.tlsHits
                                       else if k == 2 then Skew(s, p) - ctr.sharedHits
                                           else Skew(s, p) - ctr.allocations)
  {
    hide Sum, Step, Enabled;
    StoreShape(s, e, p);
  }

  /** What one event moves the skew by. */
  ghost function MovedOnce(s: State, e: Event, p: nat): int {
    if p < |s.pools| && ResetStore(s, e, p) then
      var ctr, k := s.pools[p].ctr, s.threads[e.t].op.k;
      if k == 0 then ctr.gets else if k == 1 then 0 - ctr.tlsHits else if k == 2 then 0 - ctr.sharedHits
          else 0 - ctr.allocations
    else 0
  }

  /** What the resets of pool `p` in a run move its skew by, store by store. */
  ghost function Moved(s: State, es: seq<Event>, p: nat): int
    requires ValidRun(s, es)
    decreases |es|
  {
    if es == [] then 0 else MovedOnce(s, es[0], p) + Moved(Step(s, es[0]), es[1..], p)
  }

  /** Over any run of a tracked pool the skew moves by exactly what the stores of its resets move it by. */
  lemma {:induction false} SkewLedger(s: State, es: seq<Event>, p: nat)
    requires Inv(ANY, s) && ValidRun(s, es) && p < |s.pools| && p < |s.cfgs| && s.cfgs[p].track
    ensures p < |After(s, es).pools| && Skew(After(s, es), p) == Skew(s, p) + Moved(s, es, p)
    decreases |es|
  {
    hide Step, Enabled, Skew, Inv, ResetStore;
    if es == [] {
    } else {
      StepKeepsInv(ANY, s, es[0]);
      if ResetStore(s, es[0], p) { ResetStoreMovesSkew(s, es[0], p); } else { OnlyResetStoresMoveSkew(s, es[0], p); }
      CfgsGrow(s, es[0]);
      SkewLedger(Step(s, es[0]), es[1..], p);
    }
  }

  ghost predicate NoResetStores(s: State, es: seq<Event>, p: nat)
    requires ValidRun(s, es)
    decreases |es|
  {
    es == [] || (!ResetStore(s, es[0], p) && NoResetStores(Step(s, es[0]), es[1..], p))
  }

  /** So the skew stays as it is, zero or not, until the next reset. */
  lemma {:induction false} SkewStays(s: State, es: seq<Event>, p: nat)
    requires Inv(ANY, s) && ValidRun(s, es) && p < |s.pools| && p < |s.cfgs| && s.cfgs[p].track
             && NoResetStores(s, es, p)
    ensures p < |After(s, es).pools| && Skew(After(s, es), p) == Skew(s, p)
  {
    hide Step, Enabled, Skew, Inv;
    SkewLedger(s, es, p);
    NothingMoved(s, es, p);
  }

  lemma {:induction false} NothingMoved(s: State, es: seq<Event>, p: nat)
    requires ValidRun(s, es) && NoResetStores(s, es, p)
    ensures Moved(s, es, p) == 0
    decreases |es|
  {
    hide Step, Enabled, ResetStore;
    if es == [] {
    } else {
      NothingMoved(Step(s, es[0]), es[1..], p);
    }
  }

  /** While other threads move, thread `t` stays where it is; only their resets move the skew. */
  lemma Meanwhile(s: State, es: seq<Event>, s': State, t: nat, p: nat)
    requires Inv(ANY, s) && ValidRun(s, es) && s' == After(s, es) && NoneBy(t, es)
    requires t < |s.threads| && p < |s.pools| && p < |s.cfgs| && s.cfgs[p].track
    ensures Inv(ANY, s') && t < |s'.threads| && s'.threads[t] == s.threads[t]
    ensures p < |s'.pools| && p < |s'.cfgs| && s'.cfgs[p].track && Skew(s', p) == Skew(s, p) + Moved(s, es, p)
  {
    hide Step, Enabled, Skew, Inv, After, ValidRun, Moved;
    OthersRun(s, es, t);
    SkewLedger(s, es, p);
    AnyRunAllowed(s, es);
    RunKeepsInv(ANY, s, es);
    RunKeepsCfgs(s, es);
  }

  /** Store `k` of thread `t`'s reset. */
  lemma OneStore(s: State, raw: Vec, s': State, t: nat, p: nat, k: nat)
    requires Inv(ANY, s) && Enabled(s, Event(t, Go(raw))) && s' == Step(s, Event(t, Go(raw))) && k <= 3
    requires t < |s.threads| && s.threads[t].op == Resetting(p, k) && p < |s.pools| && p < |s.cfgs| && s.cfgs[p].track
    ensures Inv(ANY, s') && t < |s'.threads| && s'.threads[t].op == Resetting(p, k + 1)
    ensures p < |s'.pools| && p < |s'.cfgs| && s'.cfgs[p].track
    ensures var ctr := s.pools[p].ctr;
            Skew(s', p) == (if k == 0 then Skew(s, p) + ctr.gets else if k == 1 then Skew(s, p) - ctr.tlsHits
                            else if k == 2 then Skew(s, p) - ctr.sharedHits else Skew(s, p) - ctr.allocations)
  {
    hide Step, Enabled, Skew, Inv;
    var e := Event(t, Go(raw));
    StepKeepsInv(ANY, s, e);
    StoreShape(s, e, p);
    ResetStoreMovesSkew(s, e, p);
    CfgsGrow(s, e);
  }

  /**
   What a reset leaves. It runs from s0, about to zero gets, to s7, with allocations zeroed; between its
   stores other threads do as they like. Whatever the skew was before, afterwards it is the allocations
   in flight at the first store, less what each outcome counter gained from then until its own store,
   and with what the stores of other resets meanwhile moved it by. With no other reset about, the counters
   are left in step exactly when as many outcomes were recorded as allocations were in flight.
   */
  lemma ResetLeavesSkew(t: nat, p: nat, s0: State, r0: Vec, s1: State, es1: seq<Event>, s2: State, r2: Vec, s3: State,
                        es3: seq<Event>, s4: State, r4: Vec, s5: State, es5: seq<Event>, s6: State, r6: Vec, s7: State)
    requires Inv(ANY, s0) && t < |s0.threads| && s0.threads[t].op == Resetting(p, 0)
    requires p < |s0.pools| && p < |s0.cfgs| && s0.cfgs[p].track
    requires Enabled(s0, Event(t, Go(r0))) && s1 == Step(s0, Event(t, Go(r0)))
    requires ValidRun(s1, es1) && NoneBy(t, es1) && s2 == After(s1, es1)
    requires Enabled(s2, Event(t, Go(r2))) && s3 == Step(s2, Event(t, Go(r2)))
    requires ValidRun(s3, es3) && NoneBy(t, es3) && s4 == After(s3, es3)
    requires Enabled(s4, Event(t, Go(r4))) && s5 == Step(s4, Event(t, Go(r4)))
    requires ValidRun(s5, es5) && NoneBy(t, es5) && s6 == After(s5, es5)
    requires Enabled(s6, Event(t, Go(r6))) && s7 == Step(s6, Event(t, Go(r6)))
    ensures p < |s2.pools| && p < |s4.pools| && p < |s6.pools| && p < |s7.pools|
    ensures var ctr := s0.pools[p].ctr;
            Skew(s7, p) == Sum(s0.threads, AllocatingIn(p)) - (s2.pools[p].ctr.tlsHits - ctr.tlsHits)
                           - (s4.pools[p].ctr.sharedHits - ctr.sharedHits)
                               - (s6.pools[p].ctr.allocations - ctr.allocations)
                           + Moved(s1, es1, p) + Moved(s3, es3, p) + Moved(s5, es5, p)
  {
    hide Step, Enabled, Inv, After, ValidRun, Moved, NoneBy, Sum;
    OneStore(s0, r0, s1, t, p, 0);
    Meanwhile(s1, es1, s2, t, p);
    OneStore(s2, r2, s3, t, p, 1);
    Meanwhile(s3, es3, s4, t, p);
    OneStore(s4, r4, s5, t, p, 2);
    Meanwhile(s5, es5, s6, t, p);
    OneStore(s6, r6, s7, t, p, 3);
  }

  // ── Snapshots ───────────────────────────────────────────────────────

  lemma {:induction false} PoolsGrow(s: State, es: seq<Event>)
    requires ValidRun(s, es)
    ensures |After(s, es).pools| >= |s.pools|
    decreases |es|
  {
    hide Step, Enabled;
    if es == [] {
    } else {
      if !es[0].a.NewPool? { PoolsStay(s, es[0]); } else { StepIsNewPool(s, es[0]); }
      PoolsGrow(Step(s, es[0]), es[1..]);
    }
  }

  /**
   What a snapshot reports, and exactly when its rates are at most one. Thread `t` loads gets in s0,
   cache hits in s2 and shared hits in s4, and other threads do as they like in between, resets
   included. The hit rate is at most one exactly when the hits recorded between its loads do not exceed
   the allocations and the requests still in flight at the first load, less the skew of that moment;
   the cache rate likewise, with the shared hits of that moment on the other side.
   */
  lemma SnapshotRatesExact(t: nat, p: nat, s0: State, r0: Vec, s1: State, es1: seq<Event>, s2: State, r2: Vec,
                           s3: State,
                           es3: seq<Event>, s4: State, r4: Vec, s5: State)
    requires t < |s0.threads| && s0.threads[t].op == Snapshotting(p, 0, ZERO_TOTALS, []) && p < |s0.pools|
    requires Enabled(s0, Event(t, Go(r0))) && s1 == Step(s0, Event(t, Go(r0)))
    requires ValidRun(s1, es1) && NoneBy(t, es1) && s2 == After(s1, es1)
    requires Enabled(s2, Event(t, Go(r2))) && s3 == Step(s2, Event(t, Go(r2)))
    requires ValidRun(s3, es3) && NoneBy(t, es3) && s4 == After(s3, es3)
    requires Enabled(s4, Event(t, Go(r4))) && s5 == Step(s4, Event(t, Go(r4)))
    requires s0.pools[p].ctr.gets < TWO64
    requires p < |s2.pools| && p < |s4.pools| ==> s2.pools[p].ctr.tlsHits + s4.pools[p].ctr.sharedHits < TWO64
    ensures p < |s2.pools| && p < |s4.pools|
    ensures t < |s5.threads| && s5.threads[t].op.Snapshotting? && s5.threads[t].op.k == 3
    ensures var seen, ctr := s5.threads[t].op.seen, s0.pools[p].ctr;
            var moreTls, moreShared := s2.pools[p].ctr.tlsHits - ctr.tlsHits,
                s4.pools[p].ctr.sharedHits - ctr.sharedHits;
            var spare := ctr.allocations + Sum(s0.threads, AllocatingIn(p)) - Skew(s0, p);
            && seen.gets == ctr.gets && seen.tlsHits == s2.pools[p].ctr.tlsHits
            && seen.sharedHits == s4.pools[p].ctr.sharedHits
            && 0.0 <= TlsHitRate(seen) <= HitRate(seen)
            && (HitRate(seen) <= 1.0 <==> ctr.gets == 0 || moreTls + moreShared <= spare)
            && (TlsHitRate(seen) <= 1.0 <==> ctr.gets == 0 || moreTls <= ctr.sharedHits + spare)
  {
    hide Step, Enabled, After, ValidRun, NoneBy, Sum, TlsHitRate, HitRate;
    LoadShape(s0, r0, s1, t, p, 0);
    PoolsGrow(s1, es1);
    OthersRun(s1, es1, t);
    LoadShape(s2, r2, s3, t, p, 1);
    PoolsGrow(s3, es3);
    OthersRun(s3, es3, t);
    LoadShape(s4, r4, s5, t, p, 2);
    LoadSmall(s0.pools[p].ctr.gets);
    LoadSmall(s2.pools[p].ctr.tlsHits);
    LoadSmall(s4.pools[p].ctr.sharedHits);
    hide Load;
    RatesAtMostOne(s5.threads[t].op.seen);
  }

  /**
   In a run that never resets them, a tracked pool's counters have no skew: then the condition is about hits
   alone.
   */
  lemma NoResetNoSkew(n: nat, es: seq<Event>, p: nat)
    requires ValidRun(Initial(n), es) && NeverReset(es, p)
    requires p < |After(Initial(n), es).pools| && Tracked(After(Initial(n), es), p)
    ensures Skew(After(Initial(n), es), p) == 0
  {
    hide Step, Enabled, Sum, After, ValidRun, Tracked;
    CountersAddUp(n, es, p);
  }

  /**
   The same for a pool that has not been reset, in terms of what was recorded: each rate is at most one
   exactly when the hits recorded between the loads do not outnumber the allocations recorded, and the
   requests in flight, at the first load (for the cache rate, the shared hits recorded by then as well).
   */
  lemma UnresetSnapshotRates(n: nat, es: seq<Event>, t: nat, p: nat, s0: State, r0: Vec, s1: State, es1: seq<Event>,
                             s2: State, r2: Vec, s3: State, es3: seq<Event>, s4: State, r4: Vec, s5: State)
    requires ValidRun(Initial(n), es) && NeverReset(es, p) && s0 == After(Initial(n), es) && Tracked(s0, p)
    requires t < |s0.threads| && s0.threads[t].op == Snapshotting(p, 0, ZERO_TOTALS, []) && p < |s0.pools|
    requires Enabled(s0, Event(t, Go(r0))) && s1 == Step(s0, Event(t, Go(r0)))
    requires ValidRun(s1, es1) && NoneBy(t, es1) && s2 == After(s1, es1)
    requires Enabled(s2, Event(t, Go(r2))) && s3 == Step(s2, Event(t, Go(r2)))
    requires ValidRun(s3, es3) && NoneBy(t, es3) && s4 == After(s3, es3)
    requires Enabled(s4, Event(t, Go(r4))) && s5 == Step(s4, Event(t, Go(r4)))
    requires s0.pools[p].ctr.gets < TWO64
    requires p < |s2.pools| && p < |s4.pools| ==> s2.pools[p].ctr.tlsHits + s4.pools[p].ctr.sharedHits < TWO64
    ensures p < |s2.pools| && p < |s4.pools|
    ensures t < |s5.threads| && s5.threads[t].op.Snapshotting? && s5.threads[t].op.k == 3
    ensures var seen, ctr := s5.threads[t].op.seen, s0.pools[p].ctr;
            var moreTls, moreShared := s2.pools[p].ctr.tlsHits - ctr.tlsHits,
                s4.pools[p].ctr.sharedHits - ctr.sharedHits;
            var spare := ctr.allocations + Sum(s0.threads, AllocatingIn(p));
            && (HitRate(seen) <= 1.0 <==> ctr.gets == 0 || moreTls + moreShared <= spare)
            && (TlsHitRate(seen) <= 1.0 <==> ctr.gets == 0 || moreTls <= ctr.sharedHits + spare)
  {
    hide Step, Enabled, After, ValidRun, NoneBy, Sum, TlsHitRate, HitRate, Skew, NeverReset;
    NoResetNoSkew(n, es, p);
    SnapshotRatesExact(t, p, s0, r0, s1, es1, s2, r2, s3, es3, s4, r4, s5);
  }

  /** No allocation of pool `p` is in flight anywhere in the run. */
  ghost predicate NoAllocs(s: State, es: seq<Event>, p: nat)
    requires ValidRun(s, es)
    decreases |es|
  {
    (forall u :: 0 <= u < |s.threads| ==> !AllocIn(p, s.threads[u].op))
    && (es == [] || NoAllocs(Step(s, es[0]), es[1..], p))
  }

  lemma HitsFallOnce(s: State, e: Event, p: nat)
    requires Inv(ANY, s) && Enabled(s, e) && p < |s.pools| && p < |s.cfgs| && s.cfgs[p].track
    requires forall u :: 0 <= u < |s.threads| ==> !AllocIn(p, s.threads[u].op)
    ensures p < |Step(s, e).pools|
    ensures Step(s, e).pools[p].ctr.tlsHits <= s.pools[p].ctr.tlsHits
            && Step(s, e).pools[p].ctr.sharedHits <= s.pools[p].ctr.sharedHits
  {
    hide Sum, Step, Enabled, Inv, AllocIn;
    OtherInRange(s, e);
    if !e.a.Go? { OtherShape(s, e, p); }
    else if ResetsAt(s.threads[e.t], p) { StoreShape(s, e, p); }
    else { GoShape(s, e, p); }
  }

  /** While no allocation is in flight no hit is recorded; resets may take some away. */
  lemma {:induction false} HitsOnlyFall(s: State, es: seq<Event>, p: nat)
    requires Inv(ANY, s) && ValidRun(s, es) && NoAllocs(s, es, p) && p < |s.pools| && p < |s.cfgs| && s.cfgs[p].track
    ensures p < |After(s, es).pools| && p < |After(s, es).cfgs| && After(s, es).cfgs[p].track && Inv(ANY, After(s, es))
    ensures After(s, es).pools[p].ctr.tlsHits <= s.pools[p].ctr.tlsHits
    ensures After(s, es).pools[p].ctr.sharedHits <= s.pools[p].ctr.sharedHits
    decreases |es|
  {
    hide Step, Enabled, Inv, AllocIn;
    if es == [] {
    } else {
      HitsFallOnce(s, es[0], p);
      StepKeepsInv(ANY, s, es[0]);
      CfgsGrow(s, es[0]);
      HitsOnlyFall(Step(s, es[0]), es[1..], p);
    }
  }

  /**
   What a caller can rely on: in every run whose resets never overlap an allocation of the pool, a
   snapshot with no allocation of the pool in flight from its first load to its third reports both
   rates in [0, 1], whatever else other threads do meanwhile.
   */
  lemma SnapshotRatesInRange(n: nat, es: seq<Event>, t: nat, p: nat, s0: State, r0: Vec, s1: State, es1: seq<Event>,
                             s2: State, r2: Vec, s3: State, es3: seq<Event>, s4: State, r4: Vec, s5: State)
    requires ValidRun(Initial(n), es) && QuietThroughout(Initial(n), es, p) && s0 == After(Initial(n), es)
             && Tracked(s0, p)
    requires t < |s0.threads| && s0.threads[t].op == Snapshotting(p, 0, ZERO_TOTALS, []) && p < |s0.pools|
    requires Enabled(s0, Event(t, Go(r0))) && s1 == Step(s0, Event(t, Go(r0)))
    requires ValidRun(s1, es1) && NoneBy(t, es1) && NoAllocs(s1, es1, p) && s2 == After(s1, es1)
    requires Enabled(s2, Event(t, Go(r2))) && s3 == Step(s2, Event(t, Go(r2)))
    requires ValidRun(s3, es3) && NoneBy(t, es3) && NoAllocs(s3, es3, p) && s4 == After(s3, es3)
    requires Enabled(s4, Event(t, Go(r4))) && s5 == Step(s4, Event(t, Go(r4)))
    requires s0.pools[p].ctr.gets < TWO64
    ensures t < |s5.threads| && s5.threads[t].op.Snapshotting? && s5.threads[t].op.k == 3
    ensures var seen := s5.threads[t].op.seen; 0.0 <= TlsHitRate(seen) <= HitRate(seen) <= 1.0
  {
    hide Step, Enabled, Inv, After, ValidRun, NoAllocs, NoneBy, Sum, TlsHitRate, HitRate, QuietThroughout, RateBooks,
         Tracked;
    InitialOk(ANY, n);
    InitialRates(n, p);
    ReachableOk(n, es);
    RunKeepsRates(Initial(n), es, p);
    TrackedPool(s0, p);
    LoadShape(s0, r0, s1, t, p, 0);
    StepKeepsInv(ANY, s0, Event(t, Go(r0)));
    HitsOnlyFall(s1, es1, p);
    OthersRun(s1, es1, t);
    LoadShape(s2, r2, s3, t, p, 1);
    StepKeepsInv(ANY, s2, Event(t, Go(r2)));
    HitsOnlyFall(s3, es3, p);
    OthersRun(s3, es3, t);
    LoadShape(s4, r4, s5, t, p, 2);
    HitsWithinGets(s0, p);
    RatesOfLoads(s5.threads[t].op.seen, s0.pools[p].ctr.gets, s2.pools[p].ctr.tlsHits, s4.pools[p].ctr.sharedHits);
  }

  lemma RatesOfLoads(seen: Totals, gets: nat, tlsHits: nat, sharedHits: nat)
    requires seen.gets == Load(gets) && seen.tlsHits == Load(tlsHits) && seen.sharedHits == Load(sharedHits)
    requires gets < TWO64 && (gets == 0 || tlsHits + sharedHits <= gets)
    ensures 0.0 <= TlsHitRate(seen) <= HitRate(seen) <= 1.0
  {
    LoadSmall(gets);
    if gets > 0 {
      LoadSmall(tlsHits);
      LoadSmall(sharedHits);
      RatesAtMostOne(seen);
      hide TlsHitRate, HitRate;
    }
  }

  lemma InitialRates(n: nat, p: nat)
    ensures RateBooks(Initial(n), p)
  {
  }

  lemma TrackedPool(s: State, p: nat)
    requires Inv(ANY, s) && Tracked(s, p) && p < |s.pools|
    ensures p < |s.cfgs| && s.cfgs[p].track
  {
  }

  lemma HitsWithinGets(s: State, p: nat)
    requires p < |s.pools| && RateBooks(s, p)
    ensures s.pools[p].ctr.gets == 0 || s.pools[p].ctr.tlsHits + s.pools[p].ctr.sharedHits <= s.pools[p].ctr.gets
  {
    hide Sum;
    if !BookHolds(s, p) {
      var t :| 0 <= t < |s.threads| && HalfWay(s.threads[t], p);
      assert Progress(s.pools[p].ctr, s.threads[t].op.k);
    }
  }

  // ── Two runs that break the range ───────────────────────────────────

  /** Thread 1 of a stage: bound to pool 0, with the given cache for class 0. */
  predicate Working(th: Thread, cache: seq<Vec>, op: Op) {
    th.op == op && th.tls.poolId == 1 && th.tls.limit == 1 && th.tls.caches == EMPTY_CACHES[0 := cache]
  }

  predicate Reusable(v: Vec) {
    v.Valid() && v.Capacity() >= 4096
  }

  /** Thread 1 is idle and holds a buffer of class 0 in the last handle; so many gets and cache hits are recorded. */
  predicate Holding(g: Stage, a: Thread, gets: nat, hits: nat) {
    && g.a == a && Working(g.b, [], Idle) && g.handles != []
    && var h := g.handles[|g.handles| - 1];
    && h.pool == 0 == h.hint && h.slot.Live? && Reusable(h.slot.vec)
    && g.ctr.gets == gets && g.ctr.tlsHits == hits && g.ctr.sharedHits == 0
  }

  /** One step of thread 1. */
  lemma WorkerGoes(g: Stage, unreset: bool, raw: Vec) returns (g': Stage)
    requires Happens(TRACKED, g, unreset) && CanPlay(g, 1, raw)
    ensures Happens(TRACKED, g', unreset) && g' == Played(g, 1, Micro(TRACKED, g.b, g.sc, g.ctr, raw))
  {
    hide Happens, Micro, Played;
    Goes(TRACKED, g, unreset, 1, raw, Micro(TRACKED, g.b, g.sc, g.ctr, raw));
    g' := Played(g, 1, Micro(TRACKED, g.b, g.sc, g.ctr, raw));
  }

  /** Thread 1's first allocation finds nothing cached. */
  lemma FirstMiss() returns (g': Stage)
    ensures Happens(TRACKED, g', true) && Working(g'.b, [], RefillPop(PAGE_REQ, 0)) && g'.a == NEW_THREAD
            && g'.created == 0
    ensures g'.sc.queue == [] && g'.handles == [] && g'.ctr.gets == 1 && g'.ctr.tlsHits == 0 == g'.ctr.sharedHits
  {
    hide Happens, Page, RouteSize, Flatten;
    Opens(TRACKED);
    RouteSizeExact(0, 0);
    PageOk(0);
    var g := Stage(NEW_THREAD, NEW_THREAD, EMPTY_CLASS, ZERO_TOTALS, [], 0);
    BeginsAlloc(TRACKED, g, true, 1, PAGE_REQ);
    var g1 := Began(g, 1, Start(PAGE_REQ)).(ctr := ZERO_TOTALS.(gets := 1));
    g' := WorkerGoes(g1, true, Page(0));
    assert EMPTY_CACHES[0 := []] == EMPTY_CACHES;
  }

  /** Nothing queued either, so the allocator is asked. */
  lemma FirstAlloc() returns (g': Stage)
    ensures Happens(TRACKED, g', true) && Holding(g', NEW_THREAD, 1, 0)
  {
    hide Happens, Page, RouteSize, Flatten;
    PageOk(0);
    var g2 := FirstMiss();
    var g3 := WorkerGoes(g2, true, Page(0));
    assert Working(g3.b, [], Cold(PAGE_REQ, 0)) && g3.ctr == g2.ctr && g3.handles == [] && g3.created == 0;
    g' := WorkerGoes(g3, true, Page(0));
  }

  /** Thread 1 returns what it holds to its empty cache. */
  lemma GivesBack(g: Stage, unreset: bool, a: Thread, gets: nat, hits: nat) returns (g': Stage, v: Vec)
    requires Happens(TRACKED, g, unreset) && Holding(g, a, gets, hits)
    ensures Happens(TRACKED, g', unreset) && g'.a == a && Reusable(v) && Working(g'.b, [v], Idle)
    ensures g'.ctr.gets == gets && g'.ctr.tlsHits == hits && g'.ctr.sharedHits == 0
  {
    hide Happens, Page, RouteSize, Flatten, RouteCapacity;
    var k := |g.handles| - 1;
    v := g.handles[k].slot.vec.Clear();
    BeginsDrop(TRACKED, g, unreset, 1, k);
    var g1 := Dropped(TRACKED, g, 1, k);
    var g2 := WorkerGoes(g1, unreset, Page(0));
    assert EMPTY_CACHES[0 := []] == EMPTY_CACHES;
    assert Working(g2.b, [], Place(0, 0, v)) && g2.ctr == g1.ctr && g2.a == a;
    g' := WorkerGoes(g2, unreset, Page(0));
    assert EMPTY_CACHES[0 := []][0 := [v]] == EMPTY_CACHES[0 := [v]] && [] + [v] == [v];
  }

  /** Thread 1's next allocation, once begun, is served from its cache. */
  lemma HitEnds(g: Stage, unreset: bool, v: Vec) returns (g': Stage)
    requires Happens(TRACKED, g, unreset) && Reusable(v) && Working(g.b, [v], Start(PAGE_REQ)) && g.ctr.sharedHits == 0
    ensures Happens(TRACKED, g', unreset) && Holding(g', g.a, g.ctr.gets, g.ctr.tlsHits + 1)
  {
    hide Happens, Page, RouteSize, Flatten;
    RouteSizeExact(0, 0);
    var g1 := WorkerGoes(g, unreset, Page(0));
    assert EMPTY_CACHES[0 := [v]][0 := []] == EMPTY_CACHES[0 := []] && [v][..0] == [];
    assert Working(g1.b, [], Hit(PAGE_REQ, 0, v)) && g1.ctr == g.ctr && g1.a == g.a;
    ResizeExposesZeros(v, 0, 0);
    g' := WorkerGoes(g1, unreset, Page(0));
  }

  lemma HitsCache(g: Stage, unreset: bool, v: Vec) returns (g': Stage)
    requires Happens(TRACKED, g, unreset) && Reusable(v) && Working(g.b, [v], Idle) && g.ctr.sharedHits == 0
    ensures Happens(TRACKED, g', unreset) && Holding(g', g.a, g.ctr.gets + 1, g.ctr.tlsHits + 1)
  {
    hide Happens, Reusable, Holding;
    BeginsAlloc(TRACKED, g, unreset, 1, PAGE_REQ);
    var g1 := Began(g, 1, Start(PAGE_REQ)).(ctr := g.ctr.(gets := g.ctr.gets + 1));
    g' := HitEnds(g1, unreset, v);
  }

  /** One more round of thread 1, whatever thread 0 is in the middle of. */
  lemma OneMoreHit(g: Stage, unreset: bool, a: Thread, gets: nat, hits: nat) returns (g': Stage)
    requires Happens(TRACKED, g, unreset) && Holding(g, a, gets, hits)
    ensures Happens(TRACKED, g', unreset) && Holding(g', a, gets + 1, hits + 1)
  {
    hide Happens, Holding, Working, Reusable;
    var g1, v := GivesBack(g, unreset, a, gets, hits);
    g' := HitsCache(g1, unreset, v);
  }

  /** Thread 0's next load, while thread 1 holds a buffer. */
  lemma LoadGoes(g: Stage, k: nat, seen: Totals, gets: nat, hits: nat) returns (g': Stage)
    requires k < 3 && gets < TWO64 && hits < TWO64
    requires Happens(TRACKED, g, true) && Holding(g, Thread(UNBOUND, Snapshotting(0, k, seen, []), 0), gets, hits)
    ensures Happens(TRACKED, g', true)
    ensures Holding(g', Thread(UNBOUND, Snapshotting(0, k + 1, LoadCounter(seen, k, g.ctr), []), 0), gets, hits)
  {
    hide Happens, Page, LoadCounter;
    Goes(TRACKED, g, true, 0, Page(0), SnapshotStep(g.a, g.sc, g.ctr));
    g' := Played(g, 0, SnapshotStep(g.a, g.sc, g.ctr));
  }

  /**
   A torn snapshot, with no reset anywhere: two hits between the first load and the second, and the rate
   reported is 1.5.
   */
  lemma TornSnapshot() returns (es: seq<Event>)
    ensures ValidRun(Initial(2), es) && NeverReset(es, 0) && |After(Initial(2), es).threads| == 2
    ensures var op := After(Initial(2), es).threads[0].op;
            op.Snapshotting? && op.k == 3 && TlsHitRate(op.seen) == HitRate(op.seen) == 1.5
  {
    hide Happens, Holding, Step, Enabled, ValidRun, After;
    var g1 := FirstAlloc();
    var g2 := OneMoreHit(g1, true, NEW_THREAD, 1, 0);
    HoldingParts(g2, NEW_THREAD, 2, 1);
    BeginsUpkeep(TRACKED, g2, true, 0, BeginSnapshot(0), Snapshotting(0, 0, ZERO_TOTALS, []));
    var g3 := Began(g2, 0, Snapshotting(0, 0, ZERO_TOTALS, []));
    HoldingOther(g2, g3, NEW_THREAD, 2, 1);
    var g4 := LoadGoes(g3, 0, ZERO_TOTALS, 2, 1);
    var seen4 := LoadCounter(ZERO_TOTALS, 0, g3.ctr);
    var a := Thread(UNBOUND, Snapshotting(0, 1, seen4, []), 0);
    var g5 := OneMoreHit(g4, true, a, 2, 1);
    var g6 := OneMoreHit(g5, true, a, 3, 2);
    HoldingParts(g3, g3.a, 2, 1);
    HoldingParts(g6, a, 4, 3);
    var g7 := LoadGoes(g6, 1, seen4, 4, 3);
    var seen7 := LoadCounter(seen4, 1, g6.ctr);
    HoldingParts(g7, Thread(UNBOUND, Snapshotting(0, 2, seen7, []), 0), 4, 3);
    var g8 := LoadGoes(g7, 2, seen7, 4, 3);
    var seen8 := LoadCounter(seen7, 2, g7.ctr);
    HoldingParts(g8, Thread(UNBOUND, Snapshotting(0, 3, seen8, []), 0), 4, 3);
    es := Unfold(TRACKED, g8, true);
    assert seen8.gets == 2 && seen8.tlsHits == 3 && seen8.sharedHits == 0;
  }

  lemma HoldingParts(g: Stage, a: Thread, gets: nat, hits: nat)
    requires Holding(g, a, gets, hits)
    ensures g.a == a && g.ctr.gets == gets && g.ctr.tlsHits == hits && g.ctr.sharedHits == 0 && g.b.op.Idle?
  {
  }

  lemma HoldingOther(g: Stage, g': Stage, a: Thread, gets: nat, hits: nat)
    requires Holding(g, a, gets, hits) && g' == g.(a := g'.a)
    ensures Holding(g', g'.a, gets, hits)
  {
  }

  /**
   A reset split by an allocation: thread 0 has zeroed gets but not yet the hits when thread 1 begins
   to allocate, so two hits stand against one get, in a state that a run from nothing reaches.
   */
  lemma SplitResetBreaksRates() returns (s: State)
    ensures Reachable(2, s) && |s.pools| == 1 && s.pools[0].ctr.gets == 1 && TlsHitRate(s.pools[0].ctr) == 2.0
            && Skew(s, 0) != 0
  {
    hide Happens, Holding, Step, Enabled, ValidRun, After;
    var g1 := FirstAlloc();
    var g2 := OneMoreHit(g1, true, NEW_THREAD, 1, 0);
    var g3 := OneMoreHit(g2, true, NEW_THREAD, 2, 1);
    HoldingParts(g3, NEW_THREAD, 3, 2);
    HappensAnyhow(g3);
    BeginsUpkeep(TRACKED, g3, false, 0, BeginReset(0), Resetting(0, 0));
    var g4 := Began(g3, 0, Resetting(0, 0));
    Goes(TRACKED, g4, false, 0, Page(0), UpkeepStep(TRACKED, g4.a, g4.sc, g4.ctr, Page(0)));
    var g5 := Began(g4, 0, Resetting(0, 1)).(ctr := g3.ctr.(gets := 0));
    BeginsAlloc(TRACKED, g5, false, 1, PAGE_REQ);
    var g6 := Began(g5, 1, Start(PAGE_REQ)).(ctr := g3.ctr.(gets := 1));
    var es := Unfold(TRACKED, g6, false);
    s := After(Initial(2), es);
    assert Reachable(2, s);
    assert s.pools[0].ctr == g6.ctr && s.pools[0].ctr.tlsHits == 2;
  }

  lemma HappensAnyhow(g: Stage)
    requires Happens(TRACKED, g, true)
    ensures Happens(TRACKED, g, false)
  {
    hide Shows;
  }

  /** All that a reset stores from its `k`-th store on. */
  function Zeroed(ctr: Totals, k: nat): Totals
    decreases 7 - k
  {
    if k > 6 then ctr else Zeroed(ZeroCounter(ctr, k), k + 1)
  }

  /** Thread 0 completes its reset while thread 1 stands still. */
  lemma {:induction false} ResetEnds(g: Stage, k: nat)
    requires Happens(TRACKED, g, false) && g.a == Thread(UNBOUND, Resetting(0, k), 0) && k <= 6
    ensures Happens(TRACKED, g.(a := NEW_THREAD, ctr := Zeroed(g.ctr, k)), false)
    decreases 7 - k
  {
    hide Happens, Page, ZeroCounter;
    Goes(TRACKED, g, false, 0, Page(0), UpkeepStep(TRACKED, g.a, g.sc, g.ctr, Page(0)));
    if k == 6 {
      assert Zeroed(g.ctr, 6) == ZeroCounter(g.ctr, 6);
    } else {
      ResetEnds(g.(a := Thread(UNBOUND, Resetting(0, k + 1), 0), ctr := ZeroCounter(g.ctr, k)), k + 1);
    }
  }

  lemma ZeroedAll(ctr: Totals)
    ensures Zeroed(ctr, 0) == Totals(0, 0, 0, 0, 0, 0, 0)
  {
    var c3 := ZeroCounter(ZeroCounter(ZeroCounter(ctr, 0), 1), 2);
    var c6 := ZeroCounter(ZeroCounter(ZeroCounter(c3, 3), 4), 5);
    assert Zeroed(ctr, 0) == Zeroed(c3, 3) && Zeroed(c3, 3) == Zeroed(c6, 6);
  }

  /**
   A whole reset while an allocation is in flight, which is then served from the cache and recorded against
   no get.
   */
  lemma ResetMeetsAlloc() returns (g': Stage)
    ensures Happens(TRACKED, g', false) && Holding(g', NEW_THREAD, 0, 1)
  {
    hide Happens, Reusable, Holding, Zeroed;
    var g0 := FirstAlloc();
    var g1, v := GivesBack(g0, true, NEW_THREAD, 1, 0);
    HappensAnyhow(g1);
    BeginsAlloc(TRACKED, g1, false, 1, PAGE_REQ);
    var g2 := Began(g1, 1, Start(PAGE_REQ)).(ctr := g1.ctr.(gets := g1.ctr.gets + 1));
    BeginsUpkeep(TRACKED, g2, false, 0, BeginReset(0), Resetting(0, 0));
    var g3 := Began(g2, 0, Resetting(0, 0));
    ResetEnds(g3, 0);
    ZeroedAll(g3.ctr);
    g' := HitEnds(g3.(a := NEW_THREAD, ctr := Zeroed(g3.ctr, 0)), false, v);
  }

  /**
   What a reset that an allocation overlaps leaves behind: in a state that a run from nothing reaches,
   with the reset long over and both threads at rest, one get stands against two cache hits. The skew
   is positive, and stays so until the next reset, by `SkewStays`.
   */
  lemma OverlappedResetBreaksRates() returns (s: State)
    ensures Reachable(2, s) && |s.pools| == 1 && |s.threads| == 2
    ensures s.threads[0].op.Idle? && s.threads[1].op.Idle?
    ensures s.pools[0].ctr.gets == 1 && TlsHitRate(s.pools[0].ctr) == 2.0 && Skew(s, 0) > 0
  {
    hide Happens, Holding, Step, Enabled, ValidRun, After, Sum;
    var g := ResetMeetsAlloc();
    var g' := OneMoreHit(g, false, NEW_THREAD, 0, 1);
    HoldingParts(g', NEW_THREAD, 1, 2);
    var es := Unfold(TRACKED, g', false);
    s := After(Initial(2), es);
    assert Reachable(2, s);
  }
}
