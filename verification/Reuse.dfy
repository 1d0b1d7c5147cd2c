/**
 A thread's cache for a class is a stack, whatever other threads do. As long as the thread only
 returns buffers of the class and allocates from it, never returns to a full cache and never
 allocates from an empty one, each allocation hands out exactly the buffer on top of the stack.
 */
module Reuse {
  import opened Options
  import opened Sums
  import opened Memory
  import opened Routing
  import opened Config
  import opened Magazine
  import opened Stats
  import opened Machine
  import opened Invariant
  import opened Safety
  import opened Returns

  function Ids(vs: seq<Vec>): (ids: seq<nat>)
    ensures |ids| == |vs| && forall k :: 0 <= k < |vs| ==> ids[k] == vs[k].id
  {
    seq(|vs|, k requires 0 <= k < |vs| => vs[k].id)
  }

  /** The buffers this thread has cached for class `c` of pool `p`, oldest first; none while it is bound elsewhere. */
  function CacheIds(p: nat, c: nat, tls: Tls): seq<nat> {
    if tls.poolId == PoolId(p) && c < |tls.caches| then Ids(tls.caches[c]) else []
  }

  function Top(ids: seq<nat>): nat
    requires ids != []
  {
    ids[|ids| - 1]
  }

  function Rest(ids: seq<nat>): seq<nat>
    requires ids != []
  {
    ids[..|ids| - 1]
  }

  // ── The stack a thread's events describe ────────────────────────────

  /** The event takes handle `h` for a slice of its own length. */
  predicate WritesWhole(s: State, e: Event) {
    && e.a.WriteFromSlice? && e.a.h < |s.handles| && s.handles[e.a.h].slot.Live?
    && |e.a.data| == s.handles[e.a.h].slot.vec.len
  }

  /**
   Thread `e.t` begins to return a pooled buffer of class `c` that is not too small to keep, by dropping
   its handle or because a slice of the wrong length makes it panic.
   */
  ghost predicate Pushes(s: State, e: Event, p: nat, c: nat) {
    && (e.a.BeginDrop? || (e.a.WriteFromSlice? && !WritesWhole(s, e)))
    && e.a.h < |s.handles| && s.handles[e.a.h].slot.Live?
    && s.handles[e.a.h].pool == p < |s.cfgs| && s.handles[e.a.h].hint == c
    && s.handles[e.a.h].slot.vec.Capacity() >= s.cfgs[p].minSize
  }

  /** It begins to allocate, any size of class `c`, zeroed or not. */
  predicate Pops(e: Event, p: nat, c: nat) {
    e.a.BeginAlloc? && e.a.r.pool == p && RouteSize(e.a.r.size) == Some(c)
  }

  /** It carries on, works on a buffer it holds, or begins something that leaves every cache alone. */
  predicate Neutral(s: State, e: Event) {
    || e.a.Go? || e.a.Overwrite? || e.a.Append? || e.a.AssumeInit? || e.a.IntoInner? || WritesWhole(s, e)
    || e.a.NewPool? || e.a.BeginWarm? || e.a.BeginDrain? || e.a.BeginReset? || e.a.BeginSnapshot?
  }

  predicate Upkeep(op: Op) {
    op.WarmLoop? || op.WarmCount? || op.Draining? || op.DrainStore? || op.Resetting? || op.Snapshotting?
  }

  ghost function NextStack(s: State, e: Event, t: nat, p: nat, c: nat, stack: seq<nat>): seq<nat> {
    if e.t == t && Pushes(s, e, p, c) then stack + [s.handles[e.a.h].slot.vec.id]
    else if e.t == t && Pops(e, p, c) && stack != [] then Rest(stack)
    else stack
  }

  /** What one event takes off the stack. */
  ghost function Popped(e: Event, t: nat, p: nat, c: nat, stack: seq<nat>): seq<nat> {
    if e.t == t && Pops(e, p, c) && stack != [] then [Top(stack)] else []
  }

  /** The buffer one event hands out to thread `t`. */
  ghost function HandedOut(s: State, e: Event, t: nat): seq<nat>
    requires Enabled(s, e)
  {
    var hs := Step(s, e).handles;
    if e.t == t && |hs| > |s.handles| && hs[|s.handles|].slot.Live? then [hs[|s.handles|].slot.vec.id] else []
  }

  /** Thread `t` keeps to returns and allocations of class `c`, within the cache's limit. */
  ghost predicate Disciplined(s: State, es: seq<Event>, t: nat, p: nat, c: nat, stack: seq<nat>)
    requires ValidRun(s, es)
    decreases |es|
  {
    es == [] ||
    (&& (es[0].t == t ==>
           || Neutral(s, es[0])
           || (Pushes(s, es[0], p, c) && |stack| < s.cfgs[p].limit)
           || (Pops(es[0], p, c) && stack != []))
     && Disciplined(Step(s, es[0]), es[1..], t, p, c, NextStack(s, es[0], t, p, c, stack)))
  }

  ghost function StackAfter(s: State, es: seq<Event>, t: nat, p: nat, c: nat, stack: seq<nat>): seq<nat>
    requires ValidRun(s, es)
    decreases |es|
  {
    if es == [] then stack else StackAfter(Step(s, es[0]), es[1..], t, p, c, NextStack(s, es[0], t, p, c, stack))
  }

  ghost function AllPopped(s: State, es: seq<Event>, t: nat, p: nat, c: nat, stack: seq<nat>): seq<nat>
    requires ValidRun(s, es)
    decreases |es|
  {
    if es == [] then []
    else Popped(es[0], t, p, c, stack) + AllPopped(Step(s, es[0]), es[1..], t, p, c,
                                                   NextStack(s, es[0], t, p, c, stack))
  }

  ghost function AllHandedOut(s: State, es: seq<Event>, t: nat): seq<nat>
    requires ValidRun(s, es)
    decreases |es|
  {
    if es == [] then [] else HandedOut(s, es[0], t) + AllHandedOut(Step(s, es[0]), es[1..], t)
  }

  // ── The thread follows the stack ────────────────────────────────────

  /** Where a thread may stand while its cache, with what is on its way in or out, is `stack`. */
  ghost predicate Follows(cfg: Settings, p: nat, c: nat, th: Thread, stack: seq<nat>) {
    && c < NUM_CLASSES
    && var ids := CacheIds(p, c, th.tls);
    if th.op.Idle? || Upkeep(th.op) then ids == stack
    else if th.op.Return? then
      && th.op.pool == p && th.op.hint == c && th.op.vec.Capacity() >= cfg.minSize
      && stack == ids + [th.op.vec.id] && |stack| <= cfg.limit
    else if th.op.Place? then
      && th.op.pool == p && th.op.c == c && th.tls.poolId == PoolId(p)
      && stack == ids + [th.op.vec.id] && |stack| <= cfg.limit
    else if th.op.Start? then
      th.op.r.pool == p && RouteSize(th.op.r.size) == Some(c) && ids != [] && stack == Rest(ids)
    else th.op.Hit? && th.op.r.pool == p && th.op.c == c && ids == stack
  }

  /** What the allocation in progress will hand out. */
  function Owed(p: nat, c: nat, th: Thread): seq<nat> {
    var ids := CacheIds(p, c, th.tls);
    if th.op.Start? && ids != [] then [Top(ids)] else if th.op.Hit? then [th.op.vec.id] else []
  }

  lemma IdsEnds(vs: seq<Vec>, v: Vec)
    ensures Ids(vs + [v]) == Ids(vs) + [v.id]
    ensures vs != [] ==> Rest(Ids(vs)) == Ids(vs[..|vs| - 1]) && Top(Ids(vs)) == vs[|vs| - 1].id
  {
  }

  /** What one outcome hands out. */
  function MadeIds(o: Out): seq<nat> {
    if o.made.Some? && o.made.value.slot.Live? then [o.made.value.slot.vec.id] else []
  }

  lemma AllocFollows(cfg: Settings, th: Thread, sc: SharedClass, ctr: Totals, raw: Vec, p: nat, c: nat, stack: seq<nat>)
    requires Shaped(th) && (th.op.Start? || th.op.Hit?) && Follows(cfg, p, c, th, stack)
    ensures var o := AllocStep(cfg, th, sc, ctr, raw);
            Follows(cfg, p, c, o.th, stack) && Owed(p, c, th) == MadeIds(o) + Owed(p, c, o.th)
  {
    hide RouteSize;
    if th.op.Start? { IdsEnds(th.tls.caches[c], raw); }
  }

  lemma ReturnFollows(cfgs: seq<Settings>, th: Thread, sc: SharedClass, ctr: Totals, p: nat, c: nat, stack: seq<nat>)
    requires |cfgs| < TWO64 && ThreadOk(ANY, cfgs, th) && Shaped(th) && p < |cfgs|
    requires th.op.Return? && Follows(cfgs[p], p, c, th, stack)
    ensures var o := ReturnStep(cfgs[p], th, sc, ctr);
            Follows(cfgs[p], p, c, o.th, stack) && o.made.None? && Owed(p, c, o.th) == []
  {
    hide Parked, Decide, Flatten;
    assert PoolId(p) == p + 1;
    DecideByHint(ANY, cfgs[p], p, th.op.hint, th.op.vec);
  }

  lemma PlaceFollows(cfgs: seq<Settings>, th: Thread, sc: SharedClass, ctr: Totals, p: nat, c: nat, stack: seq<nat>)
    requires |cfgs| < TWO64 && ThreadOk(ANY, cfgs, th) && Shaped(th) && p < |cfgs|
    requires th.op.Place? && Follows(cfgs[p], p, c, th, stack)
    ensures var o := SpillStep(cfgs[p], th, sc, ctr);
            Follows(cfgs[p], p, c, o.th, stack) && o.made.None? && Owed(p, c, o.th) == []
  {
    hide Parked;
    assert PoolId(p) == p + 1;
    IdsEnds(th.tls.caches[c], th.op.vec);
  }

  /** Carrying on with an operation leaves the stack alone and hands out what is owed. */
  lemma MicroFollows(cfgs: seq<Settings>, th: Thread, sc: SharedClass, ctr: Totals, raw: Vec, p: nat, c: nat,
                     stack: seq<nat>)
    requires |cfgs| < TWO64 && ThreadOk(ANY, cfgs, th) && Shaped(th) && p < |cfgs|
    requires !th.op.Idle? && !Upkeep(th.op) && Follows(cfgs[p], p, c, th, stack)
    ensures PoolOf(th.op) == p
    ensures var o := Micro(cfgs[p], th, sc, ctr, raw);
            Follows(cfgs[p], p, c, o.th, stack) && Owed(p, c, th) == MadeIds(o) + Owed(p, c, o.th)
  {
    hide ThreadOk, AllocStep, ReturnStep, SpillStep, RouteSize, CacheIds;
    if th.op.Return? { ReturnFollows(cfgs, th, sc, ctr, p, c, stack); }
    else if th.op.Place? { PlaceFollows(cfgs, th, sc, ctr, p, c, stack); }
    else { AllocFollows(cfgs[p], th, sc, ctr, raw, p, c, stack); }
  }

  lemma UpkeepFollows(cfg: Settings, th: Thread, sc: SharedClass, ctr: Totals, raw: Vec)
    requires Shaped(th) && Upkeep(th.op)
    ensures var o := Micro(cfg, th, sc, ctr, raw);
            o.th.tls == th.tls && (o.th.op.Idle? || Upkeep(o.th.op)) && o.made.None?
  {
    hide ZeroCounter, LoadCounter;
  }

  lemma GoFollows(s: State, e: Event, p: nat, c: nat, stack: seq<nat>)
    requires Inv(ANY, s) && Enabled(s, e) && e.a.Go? && p < |s.cfgs| && Follows(s.cfgs[p], p, c, s.threads[e.t], stack)
    ensures e.t < |s.threads| == |Step(s, e).threads|
    ensures Follows(s.cfgs[p], p, c, Step(s, e).threads[e.t], stack)
    ensures Owed(p, c, s.threads[e.t]) == HandedOut(s, e, e.t) + Owed(p, c, Step(s, e).threads[e.t])
  {
    hide Micro, Follows, Owed, Parked, RouteSize;
    var th := s.threads[e.t];
    assert ThreadOk(ANY, s.cfgs, th);
    var q := PoolOf(th.op);
    var sc, ctr := s.pools[q].classes[ClassOf(th.op)], s.pools[q].ctr;
    if Upkeep(th.op) {
      UpkeepFollows(s.cfgs[q], th, sc, ctr, e.a.raw);
      QuietFollows(s.cfgs[p], p, c, th, Step(s, e).threads[e.t], stack);
    } else {
      MicroFollows(s.cfgs, th, sc, ctr, e.a.raw, p, c, stack);
    }
  }

  lemma QuietFollows(cfg: Settings, p: nat, c: nat, th: Thread, th': Thread, stack: seq<nat>)
    requires Follows(cfg, p, c, th, stack) && Upkeep(th.op) && th'.tls == th.tls && (th'.op.Idle? || Upkeep(th'.op))
    ensures Follows(cfg, p, c, th', stack) && Owed(p, c, th) == [] == Owed(p, c, th')
  {
  }

  /**
   Beginning a return pushes; beginning an allocation pops; anything else this thread may do leaves the
   stack alone.
   */
  lemma BeginFollows(s: State, e: Event, p: nat, c: nat, stack: seq<nat>)
    requires Inv(ANY, s) && Enabled(s, e) && !e.a.Go? && p < |s.cfgs| && Follows(s.cfgs[p], p, c, s.threads[e.t], stack)
    requires Neutral(s, e) || (Pushes(s, e, p, c) && |stack| < s.cfgs[p].limit) || (Pops(e, p, c) && stack != [])
    ensures e.t < |s.threads| == |Step(s, e).threads|
    ensures Follows(s.cfgs[p], p, c, Step(s, e).threads[e.t], NextStack(s, e, e.t, p, c, stack))
    ensures Owed(p, c, s.threads[e.t]) + Popped(e, e.t, p, c, stack) == HandedOut(s, e, e.t)
            + Owed(p, c, Step(s, e).threads[e.t])
  {
    hide Micro, RouteSize, Worked, Inv;
    assert Rest(stack + [0]) == stack;
  }

  /** One event of a run. */
  lemma StepFollows(s: State, e: Event, t: nat, p: nat, c: nat, stack: seq<nat>)
    requires Inv(ANY, s) && Enabled(s, e) && t < |s.threads| && p < |s.cfgs|
             && Follows(s.cfgs[p], p, c, s.threads[t], stack)
    requires e.t == t ==>
               || Neutral(s, e)
               || (Pushes(s, e, p, c) && |stack| < s.cfgs[p].limit)
               || (Pops(e, p, c) && stack != [])
    ensures |Step(s, e).threads| == |s.threads|
    ensures Follows(s.cfgs[p], p, c, Step(s, e).threads[t], NextStack(s, e, t, p, c, stack))
    ensures Owed(p, c, s.threads[t]) + Popped(e, t, p, c, stack) == HandedOut(s, e, t)
            + Owed(p, c, Step(s, e).threads[t])
  {
    hide Step, Enabled, Follows, Owed, Inv;
    if e.t != t { OthersLeaveThreadAlone(s, e, t); }
    else if e.a.Go? { GoFollows(s, e, p, c, stack); }
    else { BeginFollows(s, e, p, c, stack); }
  }

  /** A whole run. */
  lemma {:induction false} RunFollows(s: State, es: seq<Event>, t: nat, p: nat, c: nat, stack: seq<nat>)
    requires Inv(ANY, s) && ValidRun(s, es) && t < |s.threads| && p < |s.cfgs|
    requires Follows(s.cfgs[p], p, c, s.threads[t], stack) && Disciplined(s, es, t, p, c, stack)
    ensures |After(s, es).threads| == |s.threads|
    ensures Follows(s.cfgs[p], p, c, After(s, es).threads[t], StackAfter(s, es, t, p, c, stack))
    ensures Owed(p, c, s.threads[t]) + AllPopped(s, es, t, p, c, stack) == AllHandedOut(s, es, t)
            + Owed(p, c, After(s, es).threads[t])
    decreases |es|
  {
    hide Step, Enabled, Follows, Owed, Inv, NextStack, Popped, HandedOut, Pushes, Pops, Neutral;
    if es == [] {
    } else {
      var s1 := Step(s, es[0]);
      StepFollows(s, es[0], t, p, c, stack);
      StepKeepsInv(ANY, s, es[0]);
      CfgsStay(s, es[0]);
      var next := NextStack(s, es[0], t, p, c, stack);
      RunFollows(s1, es[1..], t, p, c, next);
      Chain(Owed(p, c, s.threads[t]), Popped(es[0], t, p, c, stack), HandedOut(s, es[0], t), Owed(p, c, s1.threads[t]),
            AllPopped(s1, es[1..], t, p, c, next), AllHandedOut(s1, es[1..], t), Owed(p, c, After(s, es).threads[t]));
    }
  }

  lemma Chain(a: seq<nat>, x: seq<nat>, y: seq<nat>, b: seq<nat>, xs: seq<nat>, ys: seq<nat>, d: seq<nat>)
    requires a + x == y + b && b + xs == ys + d
    ensures a + (x + xs) == (y + ys) + d
  {
    assert a + (x + xs) == (a + x) + xs == (y + b) + xs == y + (b + xs) == y + (ys + d);
  }

  /**
   The cache is a stack. From any reachable state in which the thread is between operations, over any
   run in which it keeps to its discipline and that leaves it between operations again: the buffers
   handed out are those popped, in order, and the cache ends as the stack does. Returns and allocations
   may alternate in any way, and other threads, as well as this one's work on handles, interleave freely.
   */
  lemma CacheIsAStack(n: nat, es0: seq<Event>, t: nat, p: nat, c: nat, es: seq<Event>)
    requires ValidRun(Initial(n), es0) && c < NUM_CLASSES
    requires var s := After(Initial(n), es0);
             && t < |s.threads| && p < |s.cfgs| && s.threads[t].op.Idle? && ValidRun(s, es)
             && Disciplined(s, es, t, p, c, CacheIds(p, c, s.threads[t].tls))
             && t < |After(s, es).threads| && After(s, es).threads[t].op.Idle?
    ensures var s := After(Initial(n), es0);
            var stack := CacheIds(p, c, s.threads[t].tls);
            && AllHandedOut(s, es, t) == AllPopped(s, es, t, p, c, stack)
            && CacheIds(p, c, After(s, es).threads[t].tls) == StackAfter(s, es, t, p, c, stack)
  {
    hide Step, Enabled, Inv, CacheIds, ValidRun, After, Disciplined, AllPopped, AllHandedOut, StackAfter;
    ReachableOk(n, es0);
    var s := After(Initial(n), es0);
    var stack := CacheIds(p, c, s.threads[t].tls);
    RunFollows(s, es, t, p, c, stack);
    assert [] + AllPopped(s, es, t, p, c, stack) == AllPopped(s, es, t, p, c, stack);
    assert AllHandedOut(s, es, t) + [] == AllHandedOut(s, es, t);
  }

  // ── n returns, then n allocations ───────────────────────────────────

  /** The thread only returns buffers of the class; what it returns, in order. */
  ghost predicate OnlyReturns(s: State, es: seq<Event>, t: nat, p: nat, c: nat)
    requires ValidRun(s, es)
    decreases |es|
  {
    es == [] || ((es[0].t == t ==> Neutral(s, es[0]) || Pushes(s, es[0], p, c))
                 && OnlyReturns(Step(s, es[0]), es[1..], t, p, c))
  }

  ghost function Returned(s: State, es: seq<Event>, t: nat, p: nat, c: nat): seq<nat>
    requires ValidRun(s, es)
    decreases |es|
  {
    if es == [] then []
    else (if es[0].t == t && Pushes(s, es[0], p, c) then [s.handles[es[0].a.h].slot.vec.id] else [])
         + Returned(Step(s, es[0]), es[1..], t, p, c)
  }

  /** The thread only allocates from the class; how often. */
  ghost predicate OnlyAllocs(s: State, es: seq<Event>, t: nat, p: nat, c: nat)
    requires ValidRun(s, es)
    decreases |es|
  {
    es == [] || ((es[0].t == t ==> Neutral(s, es[0]) || Pops(es[0], p, c))
                 && OnlyAllocs(Step(s, es[0]), es[1..], t, p, c))
  }

  function Allocs(es: seq<Event>, t: nat, p: nat, c: nat): nat {
    if es == [] then 0 else (if es[0].t == t && Pops(es[0], p, c) then 1 else 0) + Allocs(es[1..], t, p, c)
  }

  lemma {:induction false} ReturnsStack(s: State, es: seq<Event>, t: nat, p: nat, c: nat, stack: seq<nat>)
    requires ValidRun(s, es) && OnlyReturns(s, es, t, p, c) && p < |s.cfgs|
    requires |stack| + |Returned(s, es, t, p, c)| <= s.cfgs[p].limit
    ensures Disciplined(s, es, t, p, c, stack) && StackAfter(s, es, t, p, c, stack) == stack + Returned(s, es, t, p, c)
    decreases |es|
  {
    hide Step, Enabled;
    if es == [] {
    } else {
      CfgsStay(s, es[0]);
      var next := NextStack(s, es[0], t, p, c, stack);
      ReturnsStack(Step(s, es[0]), es[1..], t, p, c, next);
    }
  }

  /** The top `n` of a stack, top first. */
  predicate TopFirst(out: seq<nat>, stack: seq<nat>, n: nat)
    requires n <= |stack|
  {
    |out| == n && forall k :: 0 <= k < n ==> out[k] == stack[|stack| - 1 - k]
  }

  lemma TopThenRest(out: seq<nat>, stack: seq<nat>, n: nat)
    requires n < |stack| && TopFirst(out, Rest(stack), n)
    ensures TopFirst([Top(stack)] + out, stack, n + 1)
  {
  }

  lemma PopOnce(s: State, e: Event, t: nat, p: nat, c: nat, stack: seq<nat>)
    requires e.t == t && Pops(e, p, c) && stack != []
    ensures NextStack(s, e, t, p, c, stack) == Rest(stack) && Popped(e, t, p, c, stack) == [Top(stack)]
  {
  }

  lemma PopNone(s: State, e: Event, t: nat, p: nat, c: nat, stack: seq<nat>)
    requires e.t == t ==> Neutral(s, e) && !Pops(e, p, c)
    ensures NextStack(s, e, t, p, c, stack) == stack && Popped(e, t, p, c, stack) == []
  {
  }

  lemma {:induction false} AllocsUnstack(s: State, es: seq<Event>, t: nat, p: nat, c: nat, stack: seq<nat>)
    requires ValidRun(s, es) && OnlyAllocs(s, es, t, p, c) && Allocs(es, t, p, c) <= |stack|
    ensures Disciplined(s, es, t, p, c, stack)
    ensures TopFirst(AllPopped(s, es, t, p, c, stack), stack, Allocs(es, t, p, c))
    decreases |es|
  {
    hide Step, Enabled, Neutral, Pushes, Pops, TopFirst, NextStack, Popped;
    if es == [] {
      NothingFirst(stack);
    } else {
      var s1, rest := Step(s, es[0]), es[1..];
      if es[0].t == t && Pops(es[0], p, c) {
        PopOnce(s, es[0], t, p, c, stack);
        AllocsUnstack(s1, rest, t, p, c, Rest(stack));
        TopThenRest(AllPopped(s1, rest, t, p, c, Rest(stack)), stack, Allocs(rest, t, p, c));
      } else {
        PopNone(s, es[0], t, p, c, stack);
        AllocsUnstack(s1, rest, t, p, c, stack);
        assert [] + AllPopped(s1, rest, t, p, c, stack) == AllPopped(s1, rest, t, p, c, stack);
      }
    }
  }

  lemma NothingFirst(stack: seq<nat>)
    ensures TopFirst([], stack, 0)
  {
  }

  /**
   Last in, first out, whatever other threads do: if a thread returns n buffers of a class that fit in
   its cache on top of what is there, and then makes n allocations of that class on that pool, of any
   sizes, it is handed those very buffers in reverse order.
   */
  lemma LastInFirstOut(n: nat, es0: seq<Event>, t: nat, p: nat, c: nat, es1: seq<Event>, es2: seq<Event>)
    requires ValidRun(Initial(n), es0) && c < NUM_CLASSES
    requires var s0 := After(Initial(n), es0);
             && t < |s0.threads| && p < |s0.cfgs| && s0.threads[t].op.Idle?
             && ValidRun(s0, es1) && OnlyReturns(s0, es1, t, p, c)
             && |CacheIds(p, c, s0.threads[t].tls)| + |Returned(s0, es1, t, p, c)| <= s0.cfgs[p].limit
             && var s1 := After(s0, es1);
             && t < |s1.threads| && s1.threads[t].op.Idle?
             && ValidRun(s1, es2) && OnlyAllocs(s1, es2, t, p, c)
             && Allocs(es2, t, p, c) == |Returned(s0, es1, t, p, c)|
             && t < |After(s1, es2).threads| && After(s1, es2).threads[t].op.Idle?
    ensures var s0 := After(Initial(n), es0);
            var back, out := Returned(s0, es1, t, p, c), AllHandedOut(After(s0, es1), es2, t);
            |out| == |back| && forall k :: 0 <= k < |back| ==> out[k] == back[|back| - 1 - k]
  {
    hide Step, Enabled, Inv, CacheIds, Disciplined, AllPopped, AllHandedOut, StackAfter, Returned, OnlyReturns,
         OnlyAllocs, Allocs;
    var s0 := After(Initial(n), es0);
    var s1 := After(s0, es1);
    var base := CacheIds(p, c, s0.threads[t].tls);
    ReturnsStack(s0, es1, t, p, c, base);
    CacheIsAStack(n, es0, t, p, c, es1);
    RunJoin(Initial(n), es0, es1);
    var stack := CacheIds(p, c, s1.threads[t].tls);
    AllocsUnstack(s1, es2, t, p, c, stack);
    RunKeepsCfgs(s0, es1);
    CacheIsAStack(n, es0 + es1, t, p, c, es2);
  }

  lemma {:induction false} RunJoin(s: State, es: seq<Event>, more: seq<Event>)
    requires ValidRun(s, es) && ValidRun(After(s, es), more)
    ensures ValidRun(s, es + more) && After(s, es + more) == After(After(s, es), more)
    decreases |es|
  {
    hide Step, Enabled;
    if es == [] {
      assert es + more == more;
    } else {
      RunJoin(Step(s, es[0]), es[1..], more);
      assert (es + more)[1..] == es[1..] + more;
    }
  }
}
