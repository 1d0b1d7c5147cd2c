/**
 The two descriptions agree: when one thread runs alone, the interleaved steps of an
 allocation or a return, taken one after the other, do exactly what the sequential functions
 say, in a number of steps bounded by the batch size.
 */
module Refinement {
  import opened Options
  import opened Memory
  import opened Routing
  import opened Config
  import opened Magazine
  import opened Stats
  import opened Machine
  import opened Invariant
  import opened Safety

  /** The outcome of a step seen from before the outcome `o`. */
  function Then(o: Out, next: Out): Out {
    Out(next.th, next.sc, next.ctr, o.freed + next.freed, next.made, next.called)
  }

  /** An operation on class `c` of pool `p`; those that touch no queue belong to every class. */
  predicate On(op: Op, p: nat, c: nat) {
    !op.Idle? && PoolOf(op) == p && (ClassOf(op) == c || op.Start? || op.Oversize? || op.Return?)
  }

  /** `n` steps of the thread on class `c` of pool `p`, nobody else moving, lead from `o` to `o'`. */
  ghost predicate Leads(cfg: Settings, p: nat, c: nat, created: nat, raw: Vec, o: Out, o': Out, n: nat)
    decreases n
  {
    if n == 0 then o == o'
    else
      && On(o.th.op, p, c) && Shaped(o.th) && Supplied(o.th.op, created, raw) && o.made.None? && !o.called
      && Leads(cfg, p, c, created, raw, Then(o, Micro(cfg, o.th, o.sc, o.ctr, raw)), o', n - 1)
  }

  lemma {:induction false} LeadsOn(cfg: Settings, p: nat, c: nat, created: nat, raw: Vec, o: Out, o': Out, o'': Out,
                                   n: nat, m: nat)
    requires Leads(cfg, p, c, created, raw, o, o', n) && Leads(cfg, p, c, created, raw, o', o'', m)
    ensures Leads(cfg, p, c, created, raw, o, o'', n + m)
    decreases n
  {
    hide Micro, Then, Shaped, Supplied;
    if n == 0 {
    } else {
      LeadsOn(cfg, p, c, created, raw, Then(o, Micro(cfg, o.th, o.sc, o.ctr, raw)), o', o'', n - 1, m);
    }
  }

  lemma LeadsOne(cfg: Settings, p: nat, c: nat, created: nat, raw: Vec, o: Out, o': Out)
    requires On(o.th.op, p, c) && Shaped(o.th) && Supplied(o.th.op, created, raw) && o.made.None? && !o.called
    requires o' == Then(o, Micro(cfg, o.th, o.sc, o.ctr, raw))
    ensures Leads(cfg, p, c, created, raw, o, o', 1)
  {
    hide Micro, Then, On, Shaped, Supplied;
    assert Leads(cfg, p, c, created, raw, o', o', 0);
  }

  predicate AllVecs(vs: seq<Vec>) {
    forall k :: 0 <= k < |vs| ==> vs[k].Valid()
  }

  function Counted(cfg: Settings, ctr: Totals, k: nat): Totals {
    if !cfg.track then ctr
    else if k == 1 then ctr.(tlsHits := ctr.tlsHits + 1)
    else if k == 2 then ctr.(sharedHits := ctr.sharedHits + 1)
    else ctr.(allocations := ctr.allocations + 1)
  }

  // ── Allocation ──────────────────────────────────────────────────────

  /** The refill loop, from `rem` more to move, up to handing the first buffer out. */
  lemma {:induction false} RefillSolo(cfg: Settings, c: nat, created: nat, raw: Vec, o: Out, r: Req, v: Vec, rem: nat)
      returns (n: nat)
    requires c < NUM_CLASSES == |o.th.tls.caches| && o.th.op == Op.RefillLoop(r, c, v, rem) && o.made.None? && !o.called
    requires v.Valid() && AllVecs(o.sc.queue)
    ensures n <= 2 * rem + 2
    ensures var m := Magazine.RefillLoop(o.sc, o.th.tls.caches[c], rem);
            Leads(cfg, r.pool, c, created, raw, o,
                  Out(Thread(WithCache(o.th.tls, c, m.1), Idle, o.th.lost), m.0, Counted(cfg, o.ctr, 2), o.freed,
                      Hand(r, c, Recycle(v, r)), false), n)
    decreases rem
  {
    hide Leads, Recycle, CountDown, Supplied;
    var cache := o.th.tls.caches[c];
    assert WithCache(o.th.tls, c, cache) == o.th.tls by { assert o.th.tls.caches[c := cache] == o.th.tls.caches; }
    assert o.freed + [] == o.freed;
    assert Supplied(o.th.op, created, raw) by { NoSupplyNeeded(o.th.op, created, raw); }
    var done := Out(Thread(o.th.tls, Idle, o.th.lost), o.sc, Counted(cfg, o.ctr, 2), o.freed, Hand(r, c, Recycle(v, r)),
                    false);
    if rem == 0 {
      LeadsOne(cfg, r.pool, c, created, raw, o, done);
      n := 1;
    } else if o.sc.queue == [] {
      var o1 := o.(th := o.th.(op := Op.RefillLoop(r, c, v, 0)));
      LeadsOne(cfg, r.pool, c, created, raw, o, o1);
      NoSupplyNeeded(o1.th.op, created, raw);
      LeadsOne(cfg, r.pool, c, created, raw, o1, done);
      LeadsOn(cfg, r.pool, c, created, raw, o, o1, done, 1, 1);
      n := 2;
    } else {
      n := RefillSoloMore(cfg, c, created, raw, o, r, v, rem);
    }
  }

  lemma {:induction false} RefillSoloMore(cfg: Settings, c: nat, created: nat, raw: Vec, o: Out, r: Req, v: Vec,
                                          rem: nat) returns (n: nat)
    requires c < NUM_CLASSES == |o.th.tls.caches| && o.th.op == Op.RefillLoop(r, c, v, rem) && o.made.None? && !o.called
    requires v.Valid() && AllVecs(o.sc.queue) && rem > 0 && o.sc.queue != []
    ensures n <= 2 * rem + 2
    ensures var m := Magazine.RefillLoop(o.sc, o.th.tls.caches[c], rem);
            Leads(cfg, r.pool, c, created, raw, o,
                  Out(Thread(WithCache(o.th.tls, c, m.1), Idle, o.th.lost), m.0, Counted(cfg, o.ctr, 2), o.freed,
                      Hand(r, c, Recycle(v, r)), false), n)
    decreases rem, 0
  {
    hide Leads, Recycle, CountDown, Supplied;
    var cache, next := o.th.tls.caches[c], o.sc.queue[0];
    assert o.freed + [] == o.freed;
    var o1 := o.(th := o.th.(op := RefillMore(r, c, v, next, rem - 1)), sc := Dequeue(o.sc));
    NoSupplyNeeded(o.th.op, created, raw);
    LeadsOne(cfg, r.pool, c, created, raw, o, o1);
    var tls2 := WithCache(o.th.tls, c, cache + [next]);
    var o2 := o.(th := Thread(tls2, Op.RefillLoop(r, c, v, rem - 1), o.th.lost), sc := CountDown(Dequeue(o.sc)));
    NoSupplyNeeded(o1.th.op, created, raw);
    LeadsOne(cfg, r.pool, c, created, raw, o1, o2);
    LeadsOn(cfg, r.pool, c, created, raw, o, o1, o2, 1, 1);
    CountKeepsQueue(Dequeue(o.sc));
    var k := RefillSolo(cfg, c, created, raw, o2, r, v, rem - 1);
    var m := Magazine.RefillLoop(o.sc, cache, rem);
    assert WithCache(tls2, c, m.1) == WithCache(o.th.tls, c, m.1) by {
      assert o.th.tls.caches[c := cache + [next]][c := m.1] == o.th.tls.caches[c := m.1];
    }
    LeadsOn(cfg, r.pool, c, created, raw, o, o2,
            Out(Thread(WithCache(o.th.tls, c, m.1), Idle, o.th.lost), m.0, Counted(cfg, o.ctr, 2), o.freed,
                Hand(r, c, Recycle(v, r)), false), 2, k);
    n := 2 + k;
  }

  lemma CountKeepsQueue(sc: SharedClass)
    ensures CountDown(sc).queue == sc.queue && CountUp(sc).queue == sc.queue
  {
  }

  lemma NoSupplyNeeded(op: Op, created: nat, raw: Vec)
    requires !op.Oversize? && !op.Cold? && !op.WarmLoop?
    ensures Supplied(op, created, raw)
  {
  }

  /** What an allocation leaves, read off the sequential `Acquire`. */
  function AllocResult(cfg: Settings, th: Thread, sc: SharedClass, ctr: Totals, r: Req, c: nat, raw: Vec): Out
    requires c < NUM_CLASSES == |th.tls.caches|
    requires AllVecs(th.tls.caches[c]) && AllVecs(sc.queue)
  {
    AttachValid(th.tls, PoolId(r.pool), cfg.limit, c);
    var a := Acquire(th.tls, sc, PoolId(r.pool), cfg, c);
    var th' := Thread(a.tls, Idle, th.lost);
    match a.source
    case FromTls(v) =>
      Out(th', a.sc, Counted(cfg, ctr, 1), a.freed, Hand(r, c, Recycle(v, r)), false)
    case FromShared(v) =>
      Out(th', a.sc, Counted(cfg, ctr, 2), a.freed, Hand(r, c, Recycle(v, r)), false)
    case FromAllocator => Out(th', a.sc, Counted(cfg, ctr, 3), a.freed, Hand(r, c, Cut(raw, r)), true)
  }

  lemma StartSolo(cfg: Settings, c: nat, created: nat, raw: Vec, th: Thread, sc: SharedClass, ctr: Totals, r: Req)
      returns (n: nat)
    requires c < NUM_CLASSES == |th.tls.caches| && th.op == Start(r) && RouteSize(r.size) == Some(c)
    requires AllVecs(th.tls.caches[c]) && AllVecs(sc.queue) && Supplied(Cold(r, c), created, raw)
    ensures n <= 2 * cfg.batch + 5
    ensures Leads(cfg, r.pool, c, created, raw, Plain(th, sc, ctr), AllocResult(cfg, th, sc, ctr, r, c, raw), n)
  {
    hide Leads, Recycle, CountDown, Supplied, RouteSize, Attach, PoolId;
    var o := Plain(th, sc, ctr);
    NoSupplyNeeded(th.op, created, raw);
    var b := Attach(th.tls, PoolId(r.pool), cfg.limit);
    AttachValid(th.tls, PoolId(r.pool), cfg.limit, c);
    var cache := b.tls.caches[c];
    var o1 := Then(o, Micro(cfg, th, sc, ctr, raw));
    LeadsOne(cfg, r.pool, c, created, raw, o, o1);
    assert [] + b.freed == b.freed && b.freed + [] == b.freed;
    if cache != [] {
      NoSupplyNeeded(o1.th.op, created, raw);
      var o2 := AllocResult(cfg, th, sc, ctr, r, c, raw);
      LeadsOne(cfg, r.pool, c, created, raw, o1, o2);
      LeadsOn(cfg, r.pool, c, created, raw, o, o1, o2, 1, 1);
      n := 2;
    } else {
      assert o1 == Out(Thread(b.tls, RefillPop(r, c), th.lost), sc, ctr, b.freed, None, false);
      var k := MissSolo(cfg, c, created, raw, o1, r);
      assert AllocResult(cfg, th, sc, ctr, r, c, raw) == MissResult(cfg, o1, r, c, raw);
      LeadsOn(cfg, r.pool, c, created, raw, o, o1, MissResult(cfg, o1, r, c, raw), 1, k);
      n := 1 + k;
    }
  }

  lemma AttachValid(tls: Tls, id: nat, limit: nat, c: nat)
    requires c < NUM_CLASSES == |tls.caches| && AllVecs(tls.caches[c])
    ensures |Attach(tls, id, limit).tls.caches| == NUM_CLASSES && AllVecs(Attach(tls, id, limit).tls.caches[c])
  {
    assert EMPTY_CACHES[c] == [];
  }

  function MissResult(cfg: Settings, o: Out, r: Req, c: nat, raw: Vec): Out
    requires c < NUM_CLASSES == |o.th.tls.caches| && AllVecs(o.sc.queue)
  {
    var m := Refill(o.sc, o.th.tls.caches[c], cfg.batch);
    var th' := Thread(WithCache(o.th.tls, c, m.cache), Idle, o.th.lost);
    if m.first.Some? then
      var v := m.first.value;
      Out(th', m.sc, Counted(cfg, o.ctr, 2), o.freed, Hand(r, c, Recycle(v, r)), false)
    else Out(th', m.sc, Counted(cfg, o.ctr, 3), o.freed, Hand(r, c, Cut(raw, r)), true)
  }

  /** From the first pop of the shared queue on. */
  lemma MissSolo(cfg: Settings, c: nat, created: nat, raw: Vec, o: Out, r: Req) returns (n: nat)
    requires c < NUM_CLASSES == |o.th.tls.caches| && o.th.op == RefillPop(r, c) && o.made.None? && !o.called
    requires AllVecs(o.sc.queue) && Supplied(Cold(r, c), created, raw)
    ensures n <= 2 * cfg.batch + 4
    ensures Leads(cfg, r.pool, c, created, raw, o, MissResult(cfg, o, r, c, raw), n)
  {
    hide Leads, Recycle, CountDown, Supplied;
    NoSupplyNeeded(o.th.op, created, raw);
    var cache := o.th.tls.caches[c];
    assert o.th.tls.caches[c := cache] == o.th.tls.caches;
    assert o.freed + [] == o.freed;
    if o.sc.queue == [] {
      var o1 := o.(th := o.th.(op := Cold(r, c)));
      LeadsOne(cfg, r.pool, c, created, raw, o, o1);
      LeadsOne(cfg, r.pool, c, created, raw, o1, MissResult(cfg, o, r, c, raw));
      LeadsOn(cfg, r.pool, c, created, raw, o, o1, MissResult(cfg, o, r, c, raw), 1, 1);
      n := 2;
    } else {
      var v := o.sc.queue[0];
      var rem := if cfg.batch == 0 then 0 else cfg.batch - 1;
      var o1 := o.(th := o.th.(op := RefillFirst(r, c, v)), sc := Dequeue(o.sc));
      LeadsOne(cfg, r.pool, c, created, raw, o, o1);
      var o2 := o.(th := o.th.(op := Op.RefillLoop(r, c, v, rem)), sc := CountDown(Dequeue(o.sc)));
      NoSupplyNeeded(o1.th.op, created, raw);
      LeadsOne(cfg, r.pool, c, created, raw, o1, o2);
      LeadsOn(cfg, r.pool, c, created, raw, o, o1, o2, 1, 1);
      CountKeepsQueue(Dequeue(o.sc));
      var k := RefillSolo(cfg, c, created, raw, o2, r, v, rem);
      LeadsOn(cfg, r.pool, c, created, raw, o, o2, MissResult(cfg, o, r, c, raw), 2, k);
      n := 2 + k;
    }
  }

  // ── Return ──────────────────────────────────────────────────────────

  /** The spill loop, from `rem` more to move, up to where the returned buffer is placed. */
  lemma {:induction false} SpillSolo(cfg: Settings, c: nat, created: nat, raw: Vec, o: Out, p: nat, v: Vec, rem: nat)
      returns (n: nat)
    requires c < NUM_CLASSES == |o.th.tls.caches| && o.th.op == Op.Spill(p, c, v, rem) && o.made.None? && !o.called
    requires v.Valid()
    ensures n <= 2 * rem + 1
    ensures var m := Magazine.Spill(o.sc, o.th.tls.caches[c], rem, cfg.maxBuffers);
            Leads(cfg, p, c, created, raw, o,
                  Out(Thread(WithCache(o.th.tls, c, m.cache), Place(p, c, v), o.th.lost + |m.freed|), m.sc, o.ctr,
                      o.freed + m.freed, None, false), n)
    decreases rem
  {
    hide Leads, CountUp, Supplied;
    var cache := o.th.tls.caches[c];
    NoSupplyNeeded(o.th.op, created, raw);
    assert o.freed + [] == o.freed;
    if rem == 0 || cache == [] {
      assert o.th.tls.caches[c := cache] == o.th.tls.caches;
      LeadsOne(cfg, p, c, created, raw, o, o.(th := o.th.(op := Place(p, c, v))));
      n := 1;
    } else {
      var top, rest := cache[|cache| - 1], cache[..|cache| - 1];
      var tls1 := WithCache(o.th.tls, c, rest);
      if |o.sc.queue| < cfg.maxBuffers {
        var o1 := o.(th := Thread(tls1, SpillCount(p, c, v, rem - 1), o.th.lost), sc := Enqueue(o.sc, top));
        LeadsOne(cfg, p, c, created, raw, o, o1);
        var o2 := o.(th := Thread(tls1, Op.Spill(p, c, v, rem - 1), o.th.lost), sc := CountUp(Enqueue(o.sc, top)));
        NoSupplyNeeded(o1.th.op, created, raw);
        LeadsOne(cfg, p, c, created, raw, o1, o2);
        LeadsOn(cfg, p, c, created, raw, o, o1, o2, 1, 1);
        var k := SpillSolo(cfg, c, created, raw, o2, p, v, rem - 1);
        var m := Magazine.Spill(o.sc, cache, rem, cfg.maxBuffers);
        assert o.th.tls.caches[c := rest][c := m.cache] == o.th.tls.caches[c := m.cache];
        LeadsOn(cfg, p, c, created, raw, o, o2,
                Out(Thread(WithCache(o.th.tls, c, m.cache), Place(p, c, v), o.th.lost + |m.freed|), m.sc, o.ctr,
                    o.freed + m.freed, None, false), 2, k);
        n := 2 + k;
      } else {
        LeadsOne(cfg, p, c, created, raw, o,
                 Out(Thread(tls1, Place(p, c, v), o.th.lost + 1), o.sc, o.ctr, o.freed + [top], None, false));
        n := 1;
      }
    }
  }

  /** What placing the buffer leaves, read off the sequential `Settle`. */
  function SettleResult(cfg: Settings, o: Out, c: nat, v: Vec): Out
    requires c < |o.th.tls.caches|
  {
    var g := Settle(o.th.tls, o.sc, cfg, c, v, [], []);
    Out(Thread(g.tls, Idle, o.th.lost + |g.lost|), g.sc, o.ctr, o.freed + g.lost, None, false)
  }

  lemma PlaceSolo(cfg: Settings, c: nat, created: nat, raw: Vec, o: Out, p: nat, v: Vec) returns (n: nat)
    requires c < NUM_CLASSES == |o.th.tls.caches| && o.th.op == Place(p, c, v) && o.made.None? && !o.called
    requires v.Valid()
    ensures n <= 2
    ensures Leads(cfg, p, c, created, raw, o, SettleResult(cfg, o, c, v), n)
  {
    hide Leads, CountUp, Supplied;
    NoSupplyNeeded(o.th.op, created, raw);
    assert o.freed + [] == o.freed && [] + [v] == [v];
    if |o.th.tls.caches[c]| >= o.th.tls.limit && |o.sc.queue| < cfg.maxBuffers {
      var o1 := o.(th := o.th.(op := OverflowCount(p, c)), sc := Enqueue(o.sc, v));
      LeadsOne(cfg, p, c, created, raw, o, o1);
      NoSupplyNeeded(o1.th.op, created, raw);
      LeadsOne(cfg, p, c, created, raw, o1, SettleResult(cfg, o, c, v));
      LeadsOn(cfg, p, c, created, raw, o, o1, SettleResult(cfg, o, c, v), 1, 1);
      n := 2;
    } else {
      LeadsOne(cfg, p, c, created, raw, o, SettleResult(cfg, o, c, v));
      n := 1;
    }
  }

  /** What a pooled return leaves, read off the sequential `GiveBack`. */
  function ReturnResult(cfg: Settings, th: Thread, sc: SharedClass, ctr: Totals, p: nat, c: nat, v: Vec): Out
    requires c < NUM_CLASSES == |th.tls.caches|
  {
    var g := GiveBack(th.tls, sc, PoolId(p), cfg, c, v);
    Out(Thread(g.tls, Idle, th.lost + |g.lost|), g.sc, ctr, g.unbound + g.lost, None, false)
  }

  lemma ReturnSolo(cfg: Settings, c: nat, created: nat, raw: Vec, th: Thread, sc: SharedClass, ctr: Totals, p: nat,
                   hint: nat, v: Vec)
    returns (n: nat)
    requires c < NUM_CLASSES == |th.tls.caches| && th.op == Return(p, hint, v) && v.Valid()
    requires hint < NUM_CLASSES || hint == OVERSIZE_HINT
    requires Decide(v.Capacity(), hint, cfg.minSize) == Pooled(c)
    ensures n <= 2 * cfg.batch + 4
    ensures Leads(cfg, p, c, created, raw, Plain(th, sc, ctr), ReturnResult(cfg, th, sc, ctr, p, c, v), n)
  {
    hide Leads, CountUp, Supplied, Attach, Decide, PoolId, Magazine.Spill;
    var o := Plain(th, sc, ctr);
    NoSupplyNeeded(th.op, created, raw);
    var b := Attach(th.tls, PoolId(p), cfg.limit);
    AttachKeepsShape(th.tls, PoolId(p), cfg.limit);
    var o1 := Then(o, Micro(cfg, th, sc, ctr, raw));
    LeadsOne(cfg, p, c, created, raw, o, o1);
    assert [] + b.freed == b.freed;
    var cache := b.tls.caches[c];
    assert b.tls.caches[c := cache] == b.tls.caches;
    var o2, k := o1, 0;
    var s := Spilled(sc, cache, []);
    if |cache| >= b.tls.limit {
      k := SpillSolo(cfg, c, created, raw, o1, p, v, cfg.batch);
      s := Magazine.Spill(sc, cache, cfg.batch, cfg.maxBuffers);
      o2 := Out(Thread(WithCache(b.tls, c, s.cache), Place(p, c, v), th.lost + |s.freed|), s.sc, ctr,
                b.freed + s.freed, None, false);
      LeadsOn(cfg, p, c, created, raw, o, o1, o2, 1, k);
    }
    var j := PlaceSolo(cfg, c, created, raw, o2, p, v);
    LeadsOn(cfg, p, c, created, raw, o, o2, SettleResult(cfg, o2, c, v), 1 + k, j);
    SettleJoins(o2.th.tls, o2.sc, cfg, c, v, s.freed, b.freed);
    assert b.freed + [] == b.freed;
    n := 1 + k + j;
  }

  lemma AttachKeepsShape(tls: Tls, id: nat, limit: nat)
    requires |tls.caches| == NUM_CLASSES
    ensures |Attach(tls, id, limit).tls.caches| == NUM_CLASSES
  {
  }

  /** Earlier losses only prefix the losses of settling. */
  lemma SettleJoins(tls: Tls, sc: SharedClass, cfg: Settings, c: nat, v: Vec, lost: seq<Vec>, unbound: seq<Vec>)
    requires c < |tls.caches|
    ensures var g, g' := Settle(tls, sc, cfg, c, v, [], []), Settle(tls, sc, cfg, c, v, lost, unbound);
            && g'.tls == g.tls && g'.sc == g.sc && g'.unbound == unbound && g'.lost == lost + g.lost
            && unbound + lost + g.lost == unbound + g'.lost
  {
    assert lost + [] == lost && [] + [v] == [v];
    assert unbound + lost + [v] == unbound + (lost + [v]) && unbound + lost + [] == unbound + (lost + []);
  }

  // ── The whole system, one thread moving ─────────────────────────────

  function Gos(t: nat, raw: Vec, n: nat): (es: seq<Event>)
    ensures |es| == n
  {
    if n == 0 then [] else [Event(t, Go(raw))] + Gos(t, raw, n - 1)
  }

  /** Operations that touch no queue do not look at the class they are given. */
  lemma QuietMicro(cfg: Settings, th: Thread, sc: SharedClass, other: SharedClass, ctr: Totals, raw: Vec)
    requires Shaped(th) && (th.op.Start? || th.op.Oversize? || th.op.Return?)
    ensures Micro(cfg, th, sc, ctr, raw).(sc := other) == Micro(cfg, th, other, ctr, raw)
    ensures Micro(cfg, th, sc, ctr, raw).sc == sc
  {
    hide RouteSize, Attach, Decide, Cut;
  }

  /** One step after a merge is the merge of the joined outcome. */
  lemma MergeThen(s: State, t: nat, p: nat, c: nat, o: Out, raw: Vec)
    requires t < |s.threads| && p < |s.pools| == |s.cfgs| && c < NUM_CLASSES == |s.pools[p].classes|
    requires On(o.th.op, p, c) && Shaped(o.th) && Supplied(o.th.op, s.created, raw) && o.made.None? && !o.called
    ensures Enabled(Merge(s, t, p, c, o), Event(t, Go(raw)))
    ensures Step(Merge(s, t, p, c, o), Event(t, Go(raw)))
            == Merge(s, t, p, c, Then(o, Micro(s.cfgs[p], o.th, o.sc, o.ctr, raw)))
  {
    hide Micro, Supplied, Shaped;
    var s1 := Merge(s, t, p, c, o);
    var d := ClassOf(o.th.op);
    var classes1 := s1.pools[p].classes;
    assert classes1[c] == o.sc;
    assert d < NUM_CLASSES by { ShapedClass(o.th); }
    var step := Micro(s.cfgs[p], o.th, classes1[d], o.ctr, raw);
    var join := Micro(s.cfgs[p], o.th, o.sc, o.ctr, raw);
    if d != c { QuietMicro(s.cfgs[p], o.th, classes1[d], o.sc, o.ctr, raw); }
    if o.th.op.Start? || o.th.op.Oversize? || o.th.op.Return? { QuietMicro(s.cfgs[p], o.th, o.sc, o.sc, o.ctr, raw); }
    assert classes1[d := step.sc] == s.pools[p].classes[c := join.sc];
    assert s.freed + o.freed + step.freed == s.freed + (o.freed + step.freed);
    assert s.threads[t := o.th][t := step.th] == s.threads[t := step.th];
    var pool2 := Pool(s.pools[p].classes[c := join.sc], join.ctr);
    assert s.pools[p := s1.pools[p]][p := pool2] == s.pools[p := pool2];
  }

  lemma ShapedClass(th: Thread)
    requires Shaped(th)
    ensures ClassOf(th.op) < NUM_CLASSES
  {
  }

  lemma {:induction false} LeadsLifts(s: State, t: nat, p: nat, c: nat, raw: Vec, o: Out, o': Out, n: nat)
    requires t < |s.threads| && p < |s.pools| == |s.cfgs| && c < NUM_CLASSES == |s.pools[p].classes|
    requires Leads(s.cfgs[p], p, c, s.created, raw, o, o', n)
    ensures ValidRun(Merge(s, t, p, c, o), Gos(t, raw, n))
    ensures After(Merge(s, t, p, c, o), Gos(t, raw, n)) == Merge(s, t, p, c, o')
    decreases n
  {
    hide Micro, Then, Shaped, Supplied, Step, Enabled, Merge;
    if n == 0 {
    } else {
      MergeThen(s, t, p, c, o, raw);
      assert Gos(t, raw, n)[1..] == Gos(t, raw, n - 1);
      LeadsLifts(s, t, p, c, raw, Then(o, Micro(s.cfgs[p], o.th, o.sc, o.ctr, raw)), o', n - 1);
    }
  }

  lemma MergeSame(s: State, t: nat, p: nat, c: nat)
    requires t < |s.threads| && p < |s.pools| && c < |s.pools[p].classes|
    ensures Merge(s, t, p, c, Plain(s.threads[t], s.pools[p].classes[c], s.pools[p].ctr)) == s
  {
    var pool := s.pools[p];
    assert pool.classes[c := pool.classes[c]] == pool.classes;
    assert s.pools[p := pool] == s.pools && s.threads[t := s.threads[t]] == s.threads && s.freed + [] == s.freed;
  }

  lemma GoodVecs(s: State, t: nat, p: nat, c: nat)
    requires Inv(ANY, s) && t < |s.threads| && p < |s.pools| && c < NUM_CLASSES
    ensures |s.threads[t].tls.caches| == NUM_CLASSES && AllVecs(s.threads[t].tls.caches[c])
    ensures |s.pools[p].classes| == NUM_CLASSES && AllVecs(s.pools[p].classes[c].queue)
  {
    hide OpOk;
    assert PoolOk(ANY, s.cfgs[p], p, s.pools[p]);
    assert ClassOk(ANY, s.cfgs[p], p, c, s.pools[p].classes[c]);
    forall k | 0 <= k < |s.pools[p].classes[c].queue| ensures s.pools[p].classes[c].queue[k].Valid() {
      assert Parked(ANY, s.cfgs[p], p, c, s.pools[p].classes[c].queue[k]);
    }
    var tls := s.threads[t].tls;
    assert TlsOk(ANY, s.cfgs, tls) by { assert ThreadOk(ANY, s.cfgs, s.threads[t]); }
    if tls.poolId == 0 {
      assert tls.caches[c] == [];
    } else {
      var q := tls.poolId - 1;
      assert CacheOk(ANY, s.cfgs[q], q, c, tls.caches[c]);
      forall k | 0 <= k < |tls.caches[c]| ensures tls.caches[c][k].Valid() {
        assert Parked(ANY, s.cfgs[q], q, c, tls.caches[c][k]);
      }
    }
  }

  /**
   From any reachable state in which a thread has begun a pooled allocation, that thread alone
   completes it in at most 2 * batch + 5 steps, with exactly the outcome of `Acquire`.
   */
  lemma AllocAloneIsAcquire(n: nat, s: State, t: nat, c: nat, raw: Vec) returns (k: nat)
    requires Reachable(n, s) && t < |s.threads| && s.threads[t].op.Start?
    requires var r := s.threads[t].op.r; RouteSize(r.size) == Some(c) && Supplied(Cold(r, c), s.created, raw)
    ensures var r := s.threads[t].op.r;
            && r.pool < |s.pools| == |s.cfgs| && c < NUM_CLASSES == |s.pools[r.pool].classes|
                == |s.threads[t].tls.caches|
            && AllVecs(s.threads[t].tls.caches[c]) && AllVecs(s.pools[r.pool].classes[c].queue)
            && k <= 2 * s.cfgs[r.pool].batch + 5
            && ValidRun(s, Gos(t, raw, k))
            && After(s, Gos(t, raw, k)) ==
               Merge(s, t, r.pool, c, AllocResult(s.cfgs[r.pool], s.threads[t], s.pools[r.pool].classes[c],
                                                  s.pools[r.pool].ctr, r, c, raw))
  {
    hide Reachable, Leads, ValidRun, After, Merge, AllocResult, Inv, Supplied, RouteSize;
    ReachableInv(n, s);
    var th := s.threads[t];
    var r := th.op.r;
    OpPoolExists(s, t);
    GoodVecs(s, t, r.pool, c);
    MergeSame(s, t, r.pool, c);
    var cfg, sc, ctr := s.cfgs[r.pool], s.pools[r.pool].classes[c], s.pools[r.pool].ctr;
    k := StartSolo(cfg, c, s.created, raw, th, sc, ctr, r);
    LeadsLifts(s, t, r.pool, c, raw, Plain(th, sc, ctr), AllocResult(cfg, th, sc, ctr, r, c, raw), k);
  }

  lemma OpPoolExists(s: State, t: nat)
    requires Inv(ANY, s) && t < |s.threads| && !s.threads[t].op.Idle?
    ensures PoolOf(s.threads[t].op) < |s.pools| == |s.cfgs| && Shaped(s.threads[t])
  {
    assert ThreadOk(ANY, s.cfgs, s.threads[t]);
  }

  /** Likewise for a return: alone, at most 2 * batch + 4 steps, with exactly the outcome of `GiveBack`. */
  lemma ReturnAloneIsGiveBack(n: nat, s: State, t: nat, raw: Vec) returns (k: nat)
    requires Reachable(n, s) && t < |s.threads| && s.threads[t].op.Return?
    requires var op := s.threads[t].op;
             op.hint < NUM_CLASSES && op.pool < |s.cfgs| && op.vec.Capacity() >= s.cfgs[op.pool].minSize
    ensures var op := s.threads[t].op;
            var c := op.hint;
            && op.pool < |s.pools| && |s.pools[op.pool].classes| == NUM_CLASSES == |s.threads[t].tls.caches|
            && k <= 2 * s.cfgs[op.pool].batch + 4
            && ValidRun(s, Gos(t, raw, k))
            && After(s, Gos(t, raw, k)) ==
               Merge(s, t, op.pool, c, ReturnResult(s.cfgs[op.pool], s.threads[t], s.pools[op.pool].classes[c],
                                                    s.pools[op.pool].ctr, op.pool, c, op.vec))
  {
    hide Reachable, Leads, ValidRun, After, Merge, ReturnResult, Inv, Decide;
    ReachableInv(n, s);
    var th := s.threads[t];
    var p, c, v := th.op.pool, th.op.hint, th.op.vec;
    OpPoolExists(s, t);
    GoodVecs(s, t, p, c);
    MergeSame(s, t, p, c);
    ReturnFits(s, t);
    var cfg, sc, ctr := s.cfgs[p], s.pools[p].classes[c], s.pools[p].ctr;
    DecideByHint(ANY, cfg, p, c, v);
    k := ReturnSolo(cfg, c, s.created, raw, th, sc, ctr, p, c, v);
    LeadsLifts(s, t, p, c, raw, Plain(th, sc, ctr), ReturnResult(cfg, th, sc, ctr, p, c, v), k);
  }

  lemma ReturnFits(s: State, t: nat)
    requires Inv(ANY, s) && t < |s.threads| && s.threads[t].op.Return?
    ensures Fits(ANY, s.threads[t].op.pool, s.threads[t].op.hint, s.threads[t].op.vec)
  {
    assert ThreadOk(ANY, s.cfgs, s.threads[t]);
  }
}
