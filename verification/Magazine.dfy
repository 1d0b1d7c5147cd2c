/**
 The sequential meaning of the allocator: what a bind, a refill, a spill, an acquisition
 and a return do to one thread's caches and one shared class. The classes are proved to
 compute these functions, and so are the interleaved steps when no other thread intervenes.
 */
module Magazine {
  import opened Options
  import opened Sums
  import opened Memory
  import opened Routing
  import opened Config

  /** A bounded FIFO queue (head first) and the counter kept beside it, modulo 2^64. */
  datatype SharedClass = SharedClass(queue: seq<Vec>, count: nat)

  /** One thread's caches (most recent last), the id of the pool they belong to (0 = none), their limit. */
  datatype Tls = Tls(poolId: nat, caches: seq<seq<Vec>>, limit: nat)

  function Wrap(x: int): nat {
    x % 0x1_0000_0000_0000_0000
  }

  function CountUp(sc: SharedClass): SharedClass {
    sc.(count := Wrap(sc.count + 1))
  }

  function CountDown(sc: SharedClass): SharedClass {
    sc.(count := Wrap(sc.count - 1))
  }

  function Enqueue(sc: SharedClass, v: Vec): SharedClass {
    sc.(queue := sc.queue + [v])
  }

  function Dequeue(sc: SharedClass): SharedClass
    requires sc.queue != []
  {
    sc.(queue := sc.queue[1..])
  }

  const EMPTY_CACHES: seq<seq<Vec>> := [[], [], [], [], [], [], [], []]

  const UNBOUND: Tls := Tls(0, EMPTY_CACHES, 0)

  /**
   A buffer fit to be recycled in class `c`: room for every size routed there, and zero wherever
   a request of that class could look. That covers a buffer from `warm`, still at full length,
   and a returned one, at length 0 with stale cells.
   */
  ghost predicate Ready(c: nat, v: Vec)
    requires c < NUM_CLASSES
  {
    v.Valid() && v.Capacity() >= Boundary(c) && v.ZeroUpTo(Boundary(c))
  }

  // ── Bind ────────────────────────────────────────────────────────────

  datatype Bound = Bound(tls: Tls, freed: seq<Vec>)

  /** Rebinding to another pool frees every cached buffer. */
  function Bind(tls: Tls, id: nat, limit: nat): Bound {
    if tls.poolId != id then Bound(Tls(id, EMPTY_CACHES, limit), Flatten(tls.caches))
    else Bound(tls.(limit := limit), [])
  }

  function Attach(tls: Tls, id: nat, limit: nat): Bound {
    if tls.poolId == id then Bound(tls, []) else Bind(tls, id, limit)
  }

  // ── Refill ──────────────────────────────────────────────────────────

  datatype Refilled = Refilled(first: Option<Vec>, sc: SharedClass, cache: seq<Vec>)

  /** Move up to `rem` buffers from the queue to the cache. */
  function RefillLoop(sc: SharedClass, cache: seq<Vec>, rem: nat): (r: (SharedClass, seq<Vec>))
    decreases rem
  {
    if rem == 0 || sc.queue == [] then (sc, cache)
    else RefillLoop(CountDown(Dequeue(sc)), cache + [sc.queue[0]], rem - 1)
  }

  function Refill(sc: SharedClass, cache: seq<Vec>, batch: nat): Refilled {
    if sc.queue == [] then Refilled(None, sc, cache)
    else
      var r := RefillLoop(CountDown(Dequeue(sc)), cache, if batch == 0 then 0 else batch - 1);
      Refilled(Some(sc.queue[0]), r.0, r.1)
  }

  function Min(a: nat, b: nat): nat {
    if a <= b then a else b
  }

  lemma WrapDown(x: int, k: int)
    ensures Wrap(Wrap(x) - k) == Wrap(x - k) && Wrap(Wrap(x) + k) == Wrap(x + k)
  {
  }

  /** The class after its first `n` buffers have been taken and deducted. */
  function Taken(sc: SharedClass, n: nat): SharedClass
    requires n <= |sc.queue|
  {
    SharedClass(sc.queue[n..], if n == 0 then sc.count else Wrap(sc.count - n))
  }

  lemma TakenOne(sc: SharedClass, cache: seq<Vec>, n: nat)
    requires 1 <= n <= |sc.queue|
    ensures var next := CountDown(Dequeue(sc));
            && Taken(next, n - 1) == Taken(sc, n)
            && cache + [sc.queue[0]] + next.queue[..n - 1] == cache + sc.queue[..n]
  {
    WrapDown(sc.count - 1, n - 1);
    hide Wrap;
    assert sc.queue[1..][n - 1..] == sc.queue[n..];
    assert [sc.queue[0]] + sc.queue[1..][..n - 1] == sc.queue[..n];
    assert cache + [sc.queue[0]] + sc.queue[1..][..n - 1] == cache + ([sc.queue[0]] + sc.queue[1..][..n - 1]);
  }

  lemma {:induction false} RefillLoopList(sc: SharedClass, cache: seq<Vec>, rem: nat)
    ensures var n := Min(rem, |sc.queue|);
            RefillLoop(sc, cache, rem) == (Taken(sc, n), cache + sc.queue[..n])
    decreases rem
  {
    hide Wrap, Taken;
    var n := Min(rem, |sc.queue|);
    if n == 0 {
      assert cache + sc.queue[..0] == cache;
      NoneTaken(sc);
    } else {
      RefillLoopList(CountDown(Dequeue(sc)), cache + [sc.queue[0]], rem - 1);
      TakenOne(sc, cache, n);
    }
  }

  lemma NoneTaken(sc: SharedClass)
    ensures Taken(sc, 0) == sc
  {
    assert sc.queue[0..] == sc.queue;
  }

  /** Refill returns the queue head, appends the next ones to the cache in order, and leaves the suffix. */
  lemma RefillList(sc: SharedClass, cache: seq<Vec>, batch: nat)
    ensures sc.queue == [] ==> Refill(sc, cache, batch) == Refilled(None, sc, cache)
    ensures sc.queue != [] ==>
              var n := Min(if batch == 0 then 0 else batch - 1, |sc.queue| - 1);
              var r := Refill(sc, cache, batch);
              && r.first == Some(sc.queue[0])
              && r.cache == cache + sc.queue[1..1 + n]
              && r.sc == Taken(sc, 1 + n)
  {
    if sc.queue != [] {
      var rem := if batch == 0 then 0 else batch - 1;
      RefillLoopList(CountDown(Dequeue(sc)), cache, rem);
      var n := Min(rem, |sc.queue| - 1);
      TakenOne(sc, [], 1 + n);
      assert sc.queue[1..][..n] == sc.queue[1..1 + n];
      hide RefillLoop, Taken;
    }
  }

  // ── Spill ───────────────────────────────────────────────────────────

  datatype Spilled = Spilled(sc: SharedClass, cache: seq<Vec>, freed: seq<Vec>)

  /** Move up to `rem` buffers from the top of the cache to the queue; the first that does not fit is lost. */
  function Spill(sc: SharedClass, cache: seq<Vec>, rem: nat, max: nat): Spilled
    decreases rem
  {
    if rem == 0 || cache == [] then Spilled(sc, cache, [])
    else
      var top := cache[|cache| - 1];
      var rest := cache[..|cache| - 1];
      if |sc.queue| < max then Spill(CountUp(Enqueue(sc, top)), rest, rem - 1, max)
      else Spilled(sc, rest, [top])
  }

  /** The class after `m` buffers have been moved from the top of `cache`. */
  function Moved(sc: SharedClass, cache: seq<Vec>, m: nat): SharedClass
    requires m <= |cache|
  {
    SharedClass(sc.queue + Reverse(cache[|cache| - m..]), if m == 0 then sc.count else Wrap(sc.count + m))
  }

  lemma MovedOne(sc: SharedClass, cache: seq<Vec>, m: nat)
    requires 1 <= m <= |cache|
    ensures var rest := cache[..|cache| - 1];
            && Moved(CountUp(Enqueue(sc, cache[|cache| - 1])), rest, m - 1) == Moved(sc, cache, m)
            && rest[..|rest| - (m - 1)] == cache[..|cache| - m]
  {
    hide Wrap;
    var top := cache[|cache| - 1];
    var tail := cache[|cache| - m..];
    assert cache[..|cache| - 1][|cache| - m..] == tail[..m - 1];
    assert Reverse(tail) == [top] + Reverse(tail[..m - 1]);
    assert sc.queue + [top] + Reverse(tail[..m - 1]) == sc.queue + Reverse(tail);
    WrapDown(sc.count + 1, m - 1);
  }

  lemma {:induction false} SpillMoves(sc: SharedClass, cache: seq<Vec>, rem: nat, max: nat, m: nat)
    requires m <= rem && m <= |cache| && |sc.queue| + m <= max
    ensures Spill(sc, cache, rem, max) == Spill(Moved(sc, cache, m), cache[..|cache| - m], rem - m, max)
    decreases m
  {
    if m == 0 {
      assert Moved(sc, cache, 0) == sc && cache[..|cache|] == cache;
    } else {
      SpillMoves(CountUp(Enqueue(sc, cache[|cache| - 1])), cache[..|cache| - 1], rem - 1, max, m - 1);
      MovedOne(sc, cache, m);
    }
  }

  /**
   Spill moves the top `k` of the cache in pop order; if the queue fills up first, exactly
   the buffer that did not fit is freed and the rest of the cache is left alone.
   */
  lemma SpillList(sc: SharedClass, cache: seq<Vec>, batch: nat, max: nat)
    requires |sc.queue| <= max
    ensures var k := Min(batch, |cache|);
            var room := max - |sc.queue|;
            Spill(sc, cache, batch, max) ==
            if k <= room then Spilled(Moved(sc, cache, k), cache[..|cache| - k], [])
            else Spilled(Moved(sc, cache, room), cache[..|cache| - room - 1], [cache[|cache| - room - 1]])
  {
    var k := Min(batch, |cache|);
    var room := max - |sc.queue|;
    var m := Min(k, room);
    SpillMoves(sc, cache, batch, max, m);
    assert |Moved(sc, cache, m).queue| == |sc.queue| + m;
    var left := cache[..|cache| - m];
    if k > room {
      assert left[..|left| - 1] == cache[..|cache| - room - 1];
    }
  }

  /** Spill a whole cache into an empty queue, refill by the same amount: the top comes back, the rest reversed. */
  lemma SpillThenRefill(cache: seq<Vec>, count: nat, max: nat)
    requires 1 <= |cache| <= max
    ensures var s := Spill(SharedClass([], count), cache, |cache|, max);
            var r := Refill(s.sc, s.cache, |cache|);
            && s.cache == [] && s.freed == []
            && r.first == Some(cache[|cache| - 1])
            && r.cache == Reverse(cache[..|cache| - 1])
            && r.sc.queue == []
  {
    var k := |cache|;
    SpillList(SharedClass([], count), cache, k, max);
    var s := Spill(SharedClass([], count), cache, k, max);
    assert cache[0..] == cache && s.sc.queue == Reverse(cache);
    RefillList(s.sc, s.cache, k);
    assert Reverse(cache)[1..k] == Reverse(cache[..k - 1]);
  }

  // ── Acquire ─────────────────────────────────────────────────────────

  datatype Source = FromTls(vec: Vec) | FromShared(vec: Vec) | FromAllocator

  datatype Acquired = Acquired(source: Source, tls: Tls, sc: SharedClass, freed: seq<Vec>)

  /** Where the next buffer of class `c` comes from: own cache, then the shared queue, then the allocator. */
  function Acquire(tls: Tls, sc: SharedClass, id: nat, cfg: Settings, c: nat): Acquired
    requires c < |tls.caches| == NUM_CLASSES
  {
    var b := Attach(tls, id, cfg.limit);
    var cache := b.tls.caches[c];
    if cache != [] then
      Acquired(FromTls(cache[|cache| - 1]), WithCache(b.tls, c, cache[..|cache| - 1]), sc, b.freed)
    else
      var r := Refill(sc, cache, cfg.batch);
      Acquired(if r.first.Some? then FromShared(r.first.value) else FromAllocator,
               WithCache(b.tls, c, r.cache), r.sc, b.freed)
  }

  /** The cache is asked first, then the queue, and the allocator only when both are empty. */
  lemma SourceExactly(tls: Tls, sc: SharedClass, id: nat, cfg: Settings, c: nat)
    requires c < |tls.caches| == NUM_CLASSES
    ensures var cached := tls.poolId == id && tls.caches[c] != [];
            var source := Acquire(tls, sc, id, cfg, c).source;
            && (cached ==> source == FromTls(tls.caches[c][|tls.caches[c]| - 1]))
            && (!cached && sc.queue != [] ==> source == FromShared(sc.queue[0]))
            && (!cached && sc.queue == [] ==> source == FromAllocator)
  {
    hide RefillLoop, Flatten;
    assert EMPTY_CACHES[c] == [];
  }

  function WithCache(tls: Tls, c: nat, cache: seq<Vec>): Tls
    requires c < |tls.caches|
  {
    tls.(caches := tls.caches[c := cache])
  }

  // ── Give back ───────────────────────────────────────────────────────

  datatype Fate = Discard | Unroutable | Pooled(c: nat)

  /** What `dealloc` decides about a returned buffer before it touches any cache. */
  function Decide(capacity: usize, hint: nat, minSize: nat): (f: Fate)
    requires hint < NUM_CLASSES || hint == OVERSIZE_HINT
    ensures f.Pooled? ==> f.c < NUM_CLASSES && Boundary(f.c) <= capacity
  {
    if hint == OVERSIZE_HINT || capacity < minSize then Discard
    else if capacity >= Boundary(hint) then Pooled(hint)
    else
      var r := RouteCapacity(capacity);
      if r.None? then Unroutable else Pooled(r.value)
  }

  datatype GivenBack = GivenBack(tls: Tls, sc: SharedClass, lost: seq<Vec>, unbound: seq<Vec>)

  /** Put `v` in the cache of class `c`, spilling a full cache first; the queue takes what still does not fit. */
  function GiveBack(tls: Tls, sc: SharedClass, id: nat, cfg: Settings, c: nat, v: Vec): GivenBack
    requires c < |tls.caches| == NUM_CLASSES
  {
    var b := Attach(tls, id, cfg.limit);
    var cache := b.tls.caches[c];
    var s := if |cache| >= b.tls.limit then Spill(sc, cache, cfg.batch, cfg.maxBuffers)
             else Spilled(sc, cache, []);
    Settle(WithCache(b.tls, c, s.cache), s.sc, cfg, c, v, s.freed, b.freed)
  }

  /** After any spill: the cache if it has room, else the queue if it has, else the buffer is lost. */
  function Settle(tls: Tls, sc: SharedClass, cfg: Settings, c: nat, v: Vec, lost: seq<Vec>,
                  unbound: seq<Vec>): GivenBack
    requires c < |tls.caches|
  {
    if |tls.caches[c]| < tls.limit then GivenBack(WithCache(tls, c, tls.caches[c] + [v]), sc, lost, unbound)
    else if |sc.queue| < cfg.maxBuffers then GivenBack(tls, CountUp(Enqueue(sc, v)), lost, unbound)
    else GivenBack(tls, sc, lost + [v], unbound)
  }

  /** What is decided about a returned buffer: thrown away, kept in its own class, or in the largest it still serves. */
  lemma DecideExactly(capacity: usize, hint: nat, minSize: nat, c: nat)
    requires hint < NUM_CLASSES || hint == OVERSIZE_HINT
    ensures Decide(capacity, hint, minSize) == Discard <==> hint == OVERSIZE_HINT || capacity < minSize
    ensures Decide(capacity, hint, minSize) == Pooled(c) && c == hint <==>
            c == hint < NUM_CLASSES && Boundary(hint) <= capacity && minSize <= capacity
    ensures Decide(capacity, hint, minSize) == Pooled(c) && c != hint <==>
            && hint < NUM_CLASSES && minSize <= capacity < Boundary(hint)
            && c < NUM_CLASSES && Boundary(c) <= capacity && forall d :: c < d < NUM_CLASSES ==> capacity < Boundary(d)
    ensures Decide(capacity, hint, minSize) == Unroutable <==>
            hint < NUM_CLASSES && minSize <= capacity < 4096
  {
    if hint < NUM_CLASSES && c < NUM_CLASSES { RouteCapacityExact(capacity, c); }
    RouteCapacityExact(capacity, 0);
    if hint < NUM_CLASSES {
      RouteCapacityExact(capacity, hint);
      BoundaryMonotone(0, hint);
    }
  }

  lemma AttachCount(tls: Tls, id: nat, limit: nat)
    requires |tls.caches| == NUM_CLASSES
    ensures |Attach(tls, id, limit).tls.caches| == NUM_CLASSES
  {
  }

  /** A cache below its limit takes the buffer, and nothing else moves. */
  lemma GiveBackBelow(tls: Tls, sc: SharedClass, id: nat, cfg: Settings, c: nat, v: Vec)
    requires c < |tls.caches| == NUM_CLASSES
    requires var t := Attach(tls, id, cfg.limit).tls; |t.caches[c]| < t.limit
    ensures var b := Attach(tls, id, cfg.limit);
            GiveBack(tls, sc, id, cfg, c, v) == GivenBack(WithCache(b.tls, c, b.tls.caches[c] + [v]), sc, [], b.freed)
  {
    hide Attach, Spill;
    AttachCount(tls, id, cfg.limit);
    var t := Attach(tls, id, cfg.limit).tls;
    assert t.caches[c := t.caches[c]] == t.caches;
  }

  /** A full cache: `m` buffers move, `left` stay, and one may be lost, before the returned one is placed. */
  lemma GiveBackFull(tls: Tls, sc: SharedClass, id: nat, cfg: Settings, c: nat, v: Vec)
    requires c < |tls.caches| == NUM_CLASSES && |sc.queue| <= cfg.maxBuffers
    requires var t := Attach(tls, id, cfg.limit).tls; |t.caches[c]| >= t.limit
    ensures var b := Attach(tls, id, cfg.limit);
            var t, cache := b.tls, b.tls.caches[c];
            var n, k, room := |cache|, Min(cfg.batch, |cache|), cfg.maxBuffers - |sc.queue|;
            var left := if k <= room then cache[..n - k] else cache[..n - room - 1];
            var lost := if k <= room then [] else [cache[n - room - 1]];
            var sc' := Moved(sc, cache, if k <= room then k else room);
            GiveBack(tls, sc, id, cfg, c, v) ==
            if |left| < t.limit then GivenBack(WithCache(t, c, left + [v]), sc', lost, b.freed)
            else if k < room then GivenBack(WithCache(t, c, left), CountUp(Enqueue(sc', v)), lost, b.freed)
            else GivenBack(WithCache(t, c, left), sc', lost + [v], b.freed)
  {
    hide Attach, Spill, Moved, CountUp;
    AttachCount(tls, id, cfg.limit);
    var b := Attach(tls, id, cfg.limit);
    var t, cache := b.tls, b.tls.caches[c];
    var n, k, room := |cache|, Min(cfg.batch, |cache|), cfg.maxBuffers - |sc.queue|;
    SpillList(sc, cache, cfg.batch, cfg.maxBuffers);
    var left := if k <= room then cache[..n - k] else cache[..n - room - 1];
    assert t.caches[c := left][c := left + [v]] == t.caches[c := left + [v]];
    MovedLength(sc, cache, if k <= room then k else room);
  }

  lemma MovedParts(sc: SharedClass, cache: seq<Vec>, m: nat, v: Vec)
    requires m <= |cache|
    ensures Moved(sc, cache, m).queue == sc.queue + Reverse(cache[|cache| - m..])
    ensures m > 0 ==> Moved(sc, cache, m).count == Wrap(sc.count + m)
    ensures CountUp(Enqueue(Moved(sc, cache, m), v))
            == SharedClass(sc.queue + Reverse(cache[|cache| - m..]) + [v], Wrap(sc.count + m + 1))
  {
    WrapDown(sc.count + m, 1);
    hide Wrap, Reverse;
  }

  lemma MovedLength(sc: SharedClass, cache: seq<Vec>, m: nat)
    requires m <= |cache|
    ensures |Moved(sc, cache, m).queue| == |sc.queue| + m
  {
  }

  /** A full cache whose spill fits: the queue takes the top `k`, and the tail after them if the cache is still full. */
  lemma GiveBackSpills(tls: Tls, sc: SharedClass, id: nat, cfg: Settings, c: nat, v: Vec)
    requires c < |tls.caches| == NUM_CLASSES && |sc.queue| <= cfg.maxBuffers
    requires var t := Attach(tls, id, cfg.limit).tls;
             |t.caches[c]| >= t.limit && Min(cfg.batch, |t.caches[c]|) <= cfg.maxBuffers - |sc.queue|
    ensures var t := Attach(tls, id, cfg.limit).tls;
            var cache, n, room := t.caches[c], |t.caches[c]|, cfg.maxBuffers - |sc.queue|;
            var k, g := Min(cfg.batch, n), GiveBack(tls, sc, id, cfg, c, v);
            var queue := sc.queue + Reverse(cache[n - k..]);
            && g.unbound == Attach(tls, id, cfg.limit).freed
            && (n - k < t.limit ==>
                  && g.tls == WithCache(t, c, cache[..n - k] + [v]) && g.lost == []
                  && g.sc.queue == queue && (k > 0 ==> g.sc.count == Wrap(sc.count + k)))
            && (n - k >= t.limit && k < room ==>
                  && g.tls == WithCache(t, c, cache[..n - k]) && g.lost == []
                  && g.sc.queue == queue + [v] && g.sc.count == Wrap(sc.count + k + 1))
            && (n - k >= t.limit && k == room ==>
                  && g.tls == WithCache(t, c, cache[..n - k]) && g.lost == [v]
                  && g.sc.queue == queue && (k > 0 ==> g.sc.count == Wrap(sc.count + k)))
  {
    hide Attach, GiveBack, Moved, CountUp, Wrap, Reverse, Spill, Enqueue;
    AttachCount(tls, id, cfg.limit);
    GiveBackFull(tls, sc, id, cfg, c, v);
    var cache := Attach(tls, id, cfg.limit).tls.caches[c];
    MovedParts(sc, cache, Min(cfg.batch, |cache|), v);
    assert [] + [v] == [v];
  }

  /**
   A full cache whose spill does not fit: the queue fills up, the next buffer is lost, and so is the
   returned one if need be.
   */
  lemma GiveBackOverruns(tls: Tls, sc: SharedClass, id: nat, cfg: Settings, c: nat, v: Vec)
    requires c < |tls.caches| == NUM_CLASSES && |sc.queue| <= cfg.maxBuffers
    requires var t := Attach(tls, id, cfg.limit).tls;
             |t.caches[c]| >= t.limit && Min(cfg.batch, |t.caches[c]|) > cfg.maxBuffers - |sc.queue|
    ensures var t := Attach(tls, id, cfg.limit).tls;
            var cache, n, room := t.caches[c], |t.caches[c]|, cfg.maxBuffers - |sc.queue|;
            var g, left := GiveBack(tls, sc, id, cfg, c, v), cache[..n - room - 1];
            && g.unbound == Attach(tls, id, cfg.limit).freed
            && g.tls == WithCache(t, c, if |left| < t.limit then left + [v] else left)
            && g.lost == (if |left| < t.limit then [cache[n - room - 1]] else [cache[n - room - 1]] + [v])
            && g.sc.queue == sc.queue + Reverse(cache[n - room..]) && (room > 0 ==> g.sc.count == Wrap(sc.count + room))
  {
    hide Attach, GiveBack, Moved, CountUp, Wrap, Reverse, Spill, Enqueue;
    AttachCount(tls, id, cfg.limit);
    GiveBackFull(tls, sc, id, cfg, c, v);
    MovedParts(sc, Attach(tls, id, cfg.limit).tls.caches[c], cfg.maxBuffers - |sc.queue|, v);
  }

  /** Exactly when a return loses nothing, for every batch. */
  lemma NothingLostExactly(tls: Tls, sc: SharedClass, id: nat, cfg: Settings, c: nat, v: Vec)
    requires c < |tls.caches| == NUM_CLASSES && |sc.queue| <= cfg.maxBuffers
    ensures var t := Attach(tls, id, cfg.limit).tls;
            var n, room := |t.caches[c]|, cfg.maxBuffers - |sc.queue|;
            var k := Min(cfg.batch, n);
            GiveBack(tls, sc, id, cfg, c, v).lost == [] <==> n < t.limit || k < room || (k == room && n - k < t.limit)
  {
    hide GiveBack, Attach, Wrap, Reverse, WithCache;
    AttachCount(tls, id, cfg.limit);
    var t := Attach(tls, id, cfg.limit).tls;
    var n := |t.caches[c]|;
    if n < t.limit { GiveBackBelow(tls, sc, id, cfg, c, v); }
    else if Min(cfg.batch, n) <= cfg.maxBuffers - |sc.queue| { GiveBackSpills(tls, sc, id, cfg, c, v); }
    else { GiveBackOverruns(tls, sc, id, cfg, c, v); }
  }

  /** The hot path: giving back to a cache that, after any spill, has room puts the buffer on top. */
  lemma GiveBackOnTop(tls: Tls, sc: SharedClass, id: nat, cfg: Settings, c: nat, v: Vec)
    requires c < |tls.caches| == NUM_CLASSES && |sc.queue| <= cfg.maxBuffers
    requires Accepted(cfg) && Tame(cfg)
    requires tls.poolId == id ==> tls.limit == cfg.limit && |tls.caches[c]| <= cfg.limit
    ensures var g := GiveBack(tls, sc, id, cfg, c, v);
            && g.tls.poolId == id && g.tls.limit == cfg.limit && |g.tls.caches| == NUM_CLASSES
            && 0 < |g.tls.caches[c]| <= cfg.limit
            && g.tls.caches[c][|g.tls.caches[c]| - 1] == v
            && |g.lost| <= 1
            && (tls.poolId == id && |tls.caches[c]| < cfg.limit ==>
                  g.tls == WithCache(tls, c, tls.caches[c] + [v]) && g.sc == sc && g.lost == [])
  {
    hide GiveBack, Wrap, Reverse, Spill, Flatten;
    assert EMPTY_CACHES[c] == [];
    var n := |Attach(tls, id, cfg.limit).tls.caches[c]|;
    if n < cfg.limit { GiveBackBelow(tls, sc, id, cfg, c, v); }
    else if Min(cfg.batch, n) <= cfg.maxBuffers - |sc.queue| { GiveBackSpills(tls, sc, id, cfg, c, v); }
    else { GiveBackOverruns(tls, sc, id, cfg, c, v); }
  }

  /** No batch size makes a single return lose more than two buffers (its own and one spilled). */
  lemma GiveBackLosesAtMostTwo(tls: Tls, sc: SharedClass, id: nat, cfg: Settings, c: nat, v: Vec)
    requires c < |tls.caches| == NUM_CLASSES && |sc.queue| <= cfg.maxBuffers
    ensures |GiveBack(tls, sc, id, cfg, c, v).lost| <= 2
  {
    var cache := Attach(tls, id, cfg.limit).tls.caches[c];
    SpillList(sc, cache, cfg.batch, cfg.maxBuffers);
  }

  /**
   Exactly when one return loses two: the cache holds more than its limit and all the room in the
   queue together, so that it is still full after the queue has filled up, and the batch is large
   enough to run into the full queue.
   */
  lemma TwoLostExactly(tls: Tls, sc: SharedClass, id: nat, cfg: Settings, c: nat, v: Vec)
    requires c < |tls.caches| == NUM_CLASSES && |sc.queue| <= cfg.maxBuffers
    ensures var t := Attach(tls, id, cfg.limit).tls;
            var n, room := |t.caches[c]|, cfg.maxBuffers - |sc.queue|;
            |GiveBack(tls, sc, id, cfg, c, v).lost| == 2 <==> n > t.limit + room && room < Min(cfg.batch, n)
  {
    var cache := Attach(tls, id, cfg.limit).tls.caches[c];
    SpillList(sc, cache, cfg.batch, cfg.maxBuffers);
  }

  /** A cache within its limit, which a batch of at most the limit plus one keeps so, never loses two. */
  lemma ModestLosesAtMostOne(tls: Tls, sc: SharedClass, id: nat, cfg: Settings, c: nat, v: Vec)
    requires c < |tls.caches| == NUM_CLASSES && |sc.queue| <= cfg.maxBuffers
    requires Modest(cfg) && (tls.poolId == id ==> tls.limit == cfg.limit && |tls.caches[c]| <= CacheBound(cfg))
    ensures |GiveBack(tls, sc, id, cfg, c, v).lost| <= 1
  {
    TwoLostExactly(tls, sc, id, cfg, c, v);
    GiveBackLosesAtMostTwo(tls, sc, id, cfg, c, v);
    hide GiveBack;
    assert EMPTY_CACHES[c] == [];
  }

  // ── Last in, first out ──────────────────────────────────────────────

  /** Give back each of `vs` in turn. */
  function GiveBackAll(tls: Tls, sc: SharedClass, id: nat, cfg: Settings, c: nat, vs: seq<Vec>): (r: (Tls, SharedClass))
    requires c < |tls.caches| == NUM_CLASSES
    ensures |r.0.caches| == NUM_CLASSES
    decreases |vs|
  {
    if vs == [] then (tls, sc)
    else
      var g := GiveBack(tls, sc, id, cfg, c, vs[0]);
      GiveBackAll(g.tls, g.sc, id, cfg, c, vs[1..])
  }

  /** Acquire `n` buffers in turn; the sources in order. */
  function AcquireAll(tls: Tls, sc: SharedClass, id: nat, cfg: Settings, c: nat, n: nat): seq<Source>
    requires c < |tls.caches| == NUM_CLASSES
    decreases n
  {
    if n == 0 then []
    else
      var a := Acquire(tls, sc, id, cfg, c);
      [a.source] + AcquireAll(a.tls, a.sc, id, cfg, c, n - 1)
  }

  lemma {:induction false} GiveBackAllStacks(tls: Tls, sc: SharedClass, id: nat, cfg: Settings, c: nat, vs: seq<Vec>)
    requires c < |tls.caches| == NUM_CLASSES && tls.poolId == id
    requires |tls.caches[c]| + |vs| <= tls.limit
    ensures GiveBackAll(tls, sc, id, cfg, c, vs) == (WithCache(tls, c, tls.caches[c] + vs), sc)
    decreases |vs|
  {
    if vs == [] {
      assert tls.caches[c] + [] == tls.caches[c] && tls.caches[c := tls.caches[c]] == tls.caches;
    } else {
      var g := GiveBack(tls, sc, id, cfg, c, vs[0]);
      assert tls.caches[c := tls.caches[c]] == tls.caches;
      assert g.tls == WithCache(tls, c, tls.caches[c] + [vs[0]]) && g.sc == sc;
      GiveBackAllStacks(g.tls, g.sc, id, cfg, c, vs[1..]);
      assert tls.caches[c] + [vs[0]] + vs[1..] == tls.caches[c] + vs;
      assert g.tls.caches[c := tls.caches[c] + vs] == tls.caches[c := tls.caches[c] + vs];
    }
  }

  lemma {:induction false} AcquireAllPops(tls: Tls, sc: SharedClass, id: nat, cfg: Settings, c: nat, n: nat)
    requires c < |tls.caches| == NUM_CLASSES && tls.poolId == id && n <= |tls.caches[c]|
    ensures |AcquireAll(tls, sc, id, cfg, c, n)| == n
    ensures forall k :: 0 <= k < n ==>
              AcquireAll(tls, sc, id, cfg, c, n)[k] == FromTls(tls.caches[c][|tls.caches[c]| - 1 - k])
    decreases n
  {
    if n == 0 {
    } else {
      var a := Acquire(tls, sc, id, cfg, c);
      AcquireAllPops(a.tls, a.sc, id, cfg, c, n - 1);
    }
  }

  /** `n` returns that fit in the cache, then `n` allocations: the same buffers, in reverse order. */
  lemma LastInFirstOut(tls: Tls, sc: SharedClass, id: nat, cfg: Settings, c: nat, vs: seq<Vec>)
    requires c < |tls.caches| == NUM_CLASSES && tls.poolId == id
    requires |tls.caches[c]| + |vs| <= tls.limit
    ensures var (tls', sc') := GiveBackAll(tls, sc, id, cfg, c, vs);
            var got := AcquireAll(tls', sc', id, cfg, c, |vs|);
            |got| == |vs| && forall k :: 0 <= k < |vs| ==> got[k] == FromTls(vs[|vs| - 1 - k])
  {
    GiveBackAllStacks(tls, sc, id, cfg, c, vs);
    var tls' := WithCache(tls, c, tls.caches[c] + vs);
    AcquireAllPops(tls', sc, id, cfg, c, |vs|);
  }
}
