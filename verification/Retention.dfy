/** How much a pool can hold on to, in buffers and in bytes, and which buffers those are. */
module Retention {
  import opened Sums
  import opened Memory
  import opened Routing
  import opened Config
  import opened Machine
  import opened Invariant
  import opened Safety

  predicate BoundTo(p: nat, th: Thread) {
    th.tls.poolId == PoolId(p)
  }

  function BoundThreads(p: nat): Thread -> nat {
    (th: Thread) => if BoundTo(p, th) then 1 else 0
  }

  /** Buffers of class `c` in this thread's cache, if the cache is pool `p`'s. */
  function CacheOf(p: nat, c: nat, th: Thread): seq<Vec> {
    if BoundTo(p, th) && c < |th.tls.caches| then th.tls.caches[c] else []
  }

  function CachedCount(p: nat, c: nat): Thread -> nat {
    (th: Thread) => |CacheOf(p, c, th)|
  }

  function Room(): Vec -> nat {
    (v: Vec) => v.Capacity()
  }

  function CachedBytes(p: nat, c: nat): Thread -> nat {
    (th: Thread) => Sum(CacheOf(p, c, th), Room())
  }

  /** Parked in class `c` of pool `p`: the shared queue and every bound thread's cache. */
  function ParkedCount(s: State, p: nat, c: nat): nat
    requires HasClass(s, p, c)
  {
    |s.pools[p].classes[c].queue| + Sum(s.threads, CachedCount(p, c))
  }

  function ParkedBytes(s: State, p: nat, c: nat): nat
    requires HasClass(s, p, c)
  {
    Sum(s.pools[p].classes[c].queue, Room()) + Sum(s.threads, CachedBytes(p, c))
  }

  /** The most one class of a pool can park with this many threads bound to the pool. */
  function Ceiling(cfg: Settings, bound: nat): nat {
    cfg.maxBuffers + CacheBound(cfg) * bound
  }

  lemma CacheIsOk(rg: Regime, s: State, p: nat, c: nat, th: Thread)
    requires |s.cfgs| < TWO64 && ThreadOk(rg, s.cfgs, th) && p < |s.cfgs| && c < NUM_CLASSES
    ensures CacheOk(rg, s.cfgs[p], p, c, CacheOf(p, c, th))
  {
    assert PoolId(p) == p + 1;
  }

  lemma CountCeiling(rg: Regime, s: State, p: nat, c: nat)
    requires Inv(rg, s) && HasClass(s, p, c)
    ensures ParkedCount(s, p, c) <= Ceiling(s.cfgs[p], Sum(s.threads, BoundThreads(p)))
  {
    hide Sum, Parked, OpOk;
    var cfg := s.cfgs[p];
    assert PoolOk(rg, cfg, p, s.pools[p]);
    assert ClassOk(rg, cfg, p, c, s.pools[p].classes[c]);
    forall t | 0 <= t < |s.threads|
      ensures CachedCount(p, c)(s.threads[t]) <= CacheBound(cfg) * BoundThreads(p)(s.threads[t])
    {
      CacheIsOk(rg, s, p, c, s.threads[t]);
    }
    SumAtMost(s.threads, CachedCount(p, c), BoundThreads(p), CacheBound(cfg));
  }

  /** In every reachable state a class parks at most its queue's capacity plus the cache bound for each bound thread. */
  lemma RetentionBound(n: nat, es: seq<Event>, p: nat, c: nat)
    requires ValidRun(Initial(n), es) && HasClass(After(Initial(n), es), p, c)
    ensures var s := After(Initial(n), es);
            && p < |s.cfgs|
            && ParkedCount(s, p, c) <= Ceiling(s.cfgs[p], Sum(s.threads, BoundThreads(p)))
            && Sum(s.threads, BoundThreads(p)) <= n
  {
    hide Step, Enabled, Sum, Inv;
    ReachableOk(n, es);
    CountCeiling(ANY, After(Initial(n), es), p, c);
    ThreadCount(Initial(n), es);
    AtMostAll(After(Initial(n), es).threads, p);
    InvCfgs(After(Initial(n), es));
  }

  lemma InvCfgs(s: State)
    requires Inv(ANY, s)
    ensures |s.pools| == |s.cfgs|
  {
  }

  lemma {:induction false} AtMostAll(ts: seq<Thread>, p: nat)
    ensures Sum(ts, BoundThreads(p)) <= |ts|
  {
    if ts == [] {
    } else {
      AtMostAll(ts[1..], p);
    }
  }

  // ── Bytes ───────────────────────────────────────────────────────────

  const EXACT: Regime := Regime(false, true)

  lemma {:induction false} ExactBytes(cfg: Settings, p: nat, c: nat, vs: seq<Vec>)
    requires c < NUM_CLASSES && AllParked(EXACT, cfg, p, c, vs)
    ensures Sum(vs, Room()) == Boundary(c) * |vs|
  {
    if vs == [] {
    } else {
      assert Parked(EXACT, cfg, p, c, vs[0]);
      PopOk(EXACT, cfg, p, c, vs);
      ExactBytes(cfg, p, c, vs[1..]);
      assert Boundary(c) * |vs| == Boundary(c) + Boundary(c) * |vs[1..]|;
    }
  }

  lemma ClassBytes(s: State, p: nat, c: nat)
    requires Inv(EXACT, s) && HasClass(s, p, c)
    ensures ParkedBytes(s, p, c) <= Boundary(c) * ParkedCount(s, p, c)
  {
    hide Sum, Parked, OpOk;
    var cfg := s.cfgs[p];
    assert PoolOk(EXACT, cfg, p, s.pools[p]);
    assert ClassOk(EXACT, cfg, p, c, s.pools[p].classes[c]);
    ExactBytes(cfg, p, c, s.pools[p].classes[c].queue);
    forall t | 0 <= t < |s.threads|
      ensures CachedBytes(p, c)(s.threads[t]) <= Boundary(c) * CachedCount(p, c)(s.threads[t])
    {
      CacheIsOk(EXACT, s, p, c, s.threads[t]);
      ExactBytes(cfg, p, c, CacheOf(p, c, s.threads[t]));
    }
    SumAtMost(s.threads, CachedBytes(p, c), CachedCount(p, c), Boundary(c));
    Distribute(Boundary(c), |s.pools[p].classes[c].queue|, Sum(s.threads, CachedCount(p, c)));
  }

  lemma Distribute(a: nat, b: nat, c: nat)
    ensures a * (b + c) == a * b + a * c
  {
  }

  /** Bytes parked in the classes below `upto`. */
  function BytesBelow(s: State, p: nat, upto: nat): nat
    requires p < |s.pools| && upto <= |s.pools[p].classes|
  {
    if upto == 0 then 0 else BytesBelow(s, p, upto - 1) + ParkedBytes(s, p, upto - 1)
  }

  function BoundariesBelow(upto: nat): nat
    requires upto <= NUM_CLASSES
  {
    if upto == 0 then 0 else BoundariesBelow(upto - 1) + Boundary(upto - 1)
  }

  /** All boundaries together: 4096 * (4^8 - 1) / 3. */
  lemma AllBoundaries()
    ensures BoundariesBelow(NUM_CLASSES) == 89477120 && 89477120 * 3 == 4096 * (Pow4(8) - 1)
  {
    assert BoundariesBelow(4) == 4096 + 16384 + 65536 + 262144 by { assert BoundariesBelow(2) == 20480; }
    assert BoundariesBelow(6) == BoundariesBelow(4) + 1048576 + 4194304;
    assert Pow4(8) == 65536 by { assert Pow4(4) == 256; assert Pow4(6) == 4096; }
  }

  lemma AddOneClass(bytes: nat, more: nat, below: nat, boundary: nat, count: nat, top: nat)
    requires bytes <= below * top && more <= boundary * count && count <= top
    ensures bytes + more <= (below + boundary) * top
  {
    assert boundary * count <= boundary * top;
    assert (below + boundary) * top == below * top + boundary * top;
  }

  lemma {:induction false} BytesCeiling(s: State, p: nat, upto: nat)
    requires Inv(EXACT, s) && p < |s.pools| && p < |s.cfgs| && upto <= NUM_CLASSES == |s.pools[p].classes|
    ensures BytesBelow(s, p, upto) <= BoundariesBelow(upto) * Ceiling(s.cfgs[p], Sum(s.threads, BoundThreads(p)))
  {
    hide Sum, Inv, Boundary, ParkedBytes, ParkedCount, Ceiling;
    if upto == 0 {
    } else {
      BytesCeiling(s, p, upto - 1);
      ClassBytes(s, p, upto - 1);
      CountCeiling(EXACT, s, p, upto - 1);
      AddOneClass(BytesBelow(s, p, upto - 1), ParkedBytes(s, p, upto - 1), BoundariesBelow(upto - 1),
                  Boundary(upto - 1),
                  ParkedCount(s, p, upto - 1), Ceiling(s.cfgs[p], Sum(s.threads, BoundThreads(p))));
    }
  }

  /**
   With an allocator that never over-allocates and no handle growth, everything a pool has
   parked is at most its per-class ceiling times 4096 * (4^8 - 1) / 3 bytes.
   */
  lemma RetainedBytesBound(n: nat, es: seq<Event>, p: nat)
    requires ValidRun(Initial(n), es) && AllowedRun(EXACT, Initial(n), es) && p < |After(Initial(n), es).pools|
    ensures var s := After(Initial(n), es);
            && p < |s.cfgs| && |s.pools[p].classes| == NUM_CLASSES
            && BytesBelow(s, p, NUM_CLASSES) <= 89477120 * Ceiling(s.cfgs[p], Sum(s.threads, BoundThreads(p)))
  {
    hide Step, Enabled, Sum, Allowed, BytesBelow, BoundariesBelow;
    InitialOk(EXACT, n);
    RunKeepsInv(EXACT, Initial(n), es);
    var s := After(Initial(n), es);
    assert PoolOk(EXACT, s.cfgs[p], p, s.pools[p]);
    BytesCeiling(s, p, NUM_CLASSES);
    AllBoundaries();
  }

  // ── Which buffers are retained ──────────────────────────────────────

  const WARM_FREE: Regime := Regime(true, false)

  /** If nothing is ever warmed, every parked buffer is at least `minSize`, as well as big enough for its class. */
  lemma WarmFreeRunsHonourMinimum(n: nat, es: seq<Event>, p: nat, c: nat)
    requires ValidRun(Initial(n), es) && AllowedRun(WARM_FREE, Initial(n), es)
    requires HasClass(After(Initial(n), es), p, c)
    ensures var s := After(Initial(n), es);
            && p < |s.cfgs| && c < NUM_CLASSES
            && forall k :: 0 <= k < |s.pools[p].classes[c].queue| ==>
                 && s.pools[p].classes[c].queue[k].Capacity() >= s.cfgs[p].minSize
                 && s.pools[p].classes[c].queue[k].Capacity() >= Boundary(c)
    ensures var s := After(Initial(n), es);
            forall t, j :: 0 <= t < |s.threads| && 0 <= j < |CacheOf(p, c, s.threads[t])| ==>
              && CacheOf(p, c, s.threads[t])[j].Capacity() >= s.cfgs[p].minSize
              && CacheOf(p, c, s.threads[t])[j].Capacity() >= Boundary(c)
  {
    hide Step, Enabled, Allowed, CacheOf, OpOk;
    InitialOk(WARM_FREE, n);
    RunKeepsInv(WARM_FREE, Initial(n), es);
    var s := After(Initial(n), es);
    assert PoolOk(WARM_FREE, s.cfgs[p], p, s.pools[p]);
    assert ClassOk(WARM_FREE, s.cfgs[p], p, c, s.pools[p].classes[c]);
    forall k | 0 <= k < |s.pools[p].classes[c].queue|
      ensures s.pools[p].classes[c].queue[k].Capacity() >= s.cfgs[p].minSize
              && s.pools[p].classes[c].queue[k].Capacity() >= Boundary(c)
    {
      assert Parked(WARM_FREE, s.cfgs[p], p, c, s.pools[p].classes[c].queue[k]);
    }
    forall t, j | 0 <= t < |s.threads| && 0 <= j < |CacheOf(p, c, s.threads[t])|
      ensures CacheOf(p, c, s.threads[t])[j].Capacity() >= s.cfgs[p].minSize
              && CacheOf(p, c, s.threads[t])[j].Capacity() >= Boundary(c)
    {
      CacheIsOk(WARM_FREE, s, p, c, s.threads[t]);
      assert Parked(WARM_FREE, s.cfgs[p], p, c, CacheOf(p, c, s.threads[t])[j]);
    }
  }

  /** Pool ids are non-zero and pairwise distinct exactly as long as fewer than 2^64 pools have been made. */
  lemma IdsDistinct(n: nat)
    ensures (forall i, j :: 0 <= i < j < n ==> PoolId(i) != PoolId(j)) && (forall i :: 0 <= i < n ==> PoolId(i) != 0)
            <==> n < TWO64
  {
    if n < TWO64 {
      assert forall i :: 0 <= i < n ==> PoolId(i) == i + 1;
    } else {
      assert PoolId(TWO64 - 1) == 0;
    }
  }

  /** However threads alternate between pools, a pool's queues and the caches bound to it hold only its own buffers. */
  lemma PoolsAreIsolated(n: nat, es: seq<Event>, p: nat, c: nat)
    requires ValidRun(Initial(n), es) && HasClass(After(Initial(n), es), p, c)
    ensures var s := After(Initial(n), es);
            && (forall k :: 0 <= k < |s.pools[p].classes[c].queue| ==> s.pools[p].classes[c].queue[k].home == p)
            && (forall t, k :: 0 <= t < |s.threads| && 0 <= k < |CacheOf(p, c, s.threads[t])| ==>
                  CacheOf(p, c, s.threads[t])[k].home == p)
            && (forall h :: 0 <= h < |s.handles| && s.handles[h].pool == p && s.handles[h].slot.Live? ==>
                  s.handles[h].slot.vec.home == p)
            && (forall q :: 0 <= q < |s.pools| && q != p ==> PoolId(q) != PoolId(p))
  {
    hide Step, Enabled, OpOk, CacheOf;
    ReachableOk(n, es);
    var s := After(Initial(n), es);
    assert PoolOk(ANY, s.cfgs[p], p, s.pools[p]);
    assert ClassOk(ANY, s.cfgs[p], p, c, s.pools[p].classes[c]);
    forall k | 0 <= k < |s.pools[p].classes[c].queue| ensures s.pools[p].classes[c].queue[k].home == p {
      assert Parked(ANY, s.cfgs[p], p, c, s.pools[p].classes[c].queue[k]);
    }
    forall t, k | 0 <= t < |s.threads| && 0 <= k < |CacheOf(p, c, s.threads[t])|
      ensures CacheOf(p, c, s.threads[t])[k].home == p
    {
      CacheIsOk(ANY, s, p, c, s.threads[t]);
      assert Parked(ANY, s.cfgs[p], p, c, CacheOf(p, c, s.threads[t])[k]);
    }
    forall h | 0 <= h < |s.handles| && s.handles[h].pool == p && s.handles[h].slot.Live?
      ensures s.handles[h].slot.vec.home == p
    {
      assert HandleOk(ANY, s.cfgs, s.handles[h]);
    }
  }
}
