/**
 The pool and its handles as objects, used by one thread at a time. Each method is proved
 against the sequential functions of `Magazine`. A thread's caches are passed in as `tls`.
 */
module Pools {
  import opened Options
  import opened Sums
  import opened Memory
  import opened Routing
  import opened Config
  import opened Magazine
  import opened Stats
  import opened SizeClasses
  import opened TlsStates
  import opened CounterObjects

  /** Where new memory comes from: the answer to the `serial`-th request, for a capacity. */
  type Supplier = (nat, nat) -> Vec

  /** The answers to `k` requests for capacity `n` in a row. */
  function Answers(f: Supplier, from: nat, n: nat, k: nat): (vs: seq<Vec>)
    ensures |vs| == k && forall i :: 0 <= i < k ==> vs[i] == f(from + i, n)
  {
    seq(k, i requires 0 <= i < k => f(from + i, n))
  }

  lemma AnswersMore(f: Supplier, from: nat, n: nat, k: nat, before: seq<Vec>)
    ensures before + Answers(f, from, n, k + 1) == before + Answers(f, from, n, k) + [f(from + k, n)]
  {
  }

  ghost predicate LawfulAllocator(f: Supplier) {
    forall serial, n :: 0 <= n <= ISIZE_MAX ==> AllocatorContract(f(serial, n), n)
  }

  /** `Vec::with_capacity` */
  ghost predicate LawfulReserve(f: Supplier) {
    forall serial, n :: 0 <= n <= ISIZE_MAX ==> f(serial, n).Valid() && WithCapacity(f(serial, n), n)
  }

  ghost predicate AllReady(c: nat, vs: seq<Vec>)
    requires c < NUM_CLASSES
  {
    forall k :: 0 <= k < |vs| ==> Ready(c, vs[k])
  }

  ghost predicate CachesReady(caches: seq<seq<Vec>>)
    requires |caches| == NUM_CLASSES
  {
    forall c :: 0 <= c < NUM_CLASSES ==> AllReady(c, caches[c])
  }

  lemma SliceReady(c: nat, vs: seq<Vec>, i: nat, j: nat)
    requires c < NUM_CLASSES && i <= j <= |vs| && AllReady(c, vs)
    ensures AllReady(c, vs[i..j])
  {
    forall k | 0 <= k < j - i ensures Ready(c, vs[i..j][k]) { assert vs[i..j][k] == vs[i + k]; }
  }

  lemma JoinReady(c: nat, vs: seq<Vec>, us: seq<Vec>)
    requires c < NUM_CLASSES && AllReady(c, vs) && AllReady(c, us)
    ensures AllReady(c, vs + us)
  {
    forall k | 0 <= k < |vs + us| ensures Ready(c, (vs + us)[k]) {}
  }

  /** A thread's caches as pool `id` may find them: its own and fit for use, or some other pool's. */
  ghost predicate TlsFits(tls: Tls, id: nat, limit: nat) {
    |tls.caches| == NUM_CLASSES && (tls.poolId == id ==> tls.limit == limit && CachesReady(tls.caches))
  }

  lemma CachesCount(tls: Tls, id: nat, limit: nat)
    requires TlsFits(tls, id, limit)
    ensures |tls.caches| == NUM_CLASSES
  {
  }

  lemma AttachFits(tls: Tls, id: nat, limit: nat)
    requires TlsFits(tls, id, limit)
    ensures var t := Attach(tls, id, limit).tls;
            t.poolId == id && TlsFits(t, id, limit)
  {
    forall c | 0 <= c < NUM_CLASSES ensures AllReady(c, EMPTY_CACHES[c]) { assert EMPTY_CACHES[c] == []; }
  }

  lemma CacheFits(tls: Tls, id: nat, limit: nat, c: nat, cache: seq<Vec>)
    requires TlsFits(tls, id, limit) && c < NUM_CLASSES && AllReady(c, cache)
    ensures TlsFits(WithCache(tls, c, cache), id, limit)
  {
  }

  /** Acquiring hands out a buffer fit for its class and keeps the rest fit. */
  lemma AcquireFits(tls: Tls, sc: SharedClass, id: nat, cfg: Settings, c: nat)
    requires c < NUM_CLASSES && TlsFits(tls, id, cfg.limit) && AllReady(c, sc.queue)
    ensures var a := Acquire(tls, sc, id, cfg, c);
            && TlsFits(a.tls, id, cfg.limit) && AllReady(c, a.sc.queue)
            && (!a.source.FromAllocator? ==> Ready(c, a.source.vec))
            && (a.source.FromAllocator? <==> Attach(tls, id, cfg.limit).tls.caches[c] == [] && sc.queue == [])
  {
    hide Ready, Attach;
    AttachFits(tls, id, cfg.limit);
    var t := Attach(tls, id, cfg.limit).tls;
    var cache := t.caches[c];
    if cache != [] {
      SliceReady(c, cache, 0, |cache| - 1);
      assert cache[0..|cache| - 1] == cache[..|cache| - 1];
      CacheFits(t, id, cfg.limit, c, cache[..|cache| - 1]);
    } else {
      RefillFits(sc, cache, cfg.batch, c);
      CacheFits(t, id, cfg.limit, c, Refill(sc, cache, cfg.batch).cache);
    }
  }

  lemma RefillFits(sc: SharedClass, cache: seq<Vec>, batch: nat, c: nat)
    requires c < NUM_CLASSES && AllReady(c, sc.queue) && AllReady(c, cache)
    ensures var r := Refill(sc, cache, batch);
            && AllReady(c, r.sc.queue) && AllReady(c, r.cache)
            && (r.first.None? <==> sc.queue == []) && (r.first.Some? ==> Ready(c, r.first.value))
  {
    RefillList(sc, cache, batch);
    hide Ready, Refill;
    if sc.queue != [] {
      var n := Min(if batch == 0 then 0 else batch - 1, |sc.queue| - 1);
      SliceReady(c, sc.queue, 1, 1 + n);
      SliceReady(c, sc.queue, 1 + n, |sc.queue|);
      assert sc.queue[1 + n..|sc.queue|] == sc.queue[1 + n..];
      JoinReady(c, cache, sc.queue[1..1 + n]);
    }
  }

  lemma MovedFits(sc: SharedClass, cache: seq<Vec>, m: nat, c: nat)
    requires c < NUM_CLASSES && m <= |cache| && AllReady(c, sc.queue) && AllReady(c, cache)
    ensures AllReady(c, Moved(sc, cache, m).queue)
  {
    hide Ready;
    var tail := cache[|cache| - m..];
    var top := Reverse(tail);
    forall j | 0 <= j < m ensures Ready(c, top[j]) { assert top[j] == tail[m - 1 - j] == cache[|cache| - 1 - j]; }
    JoinReady(c, sc.queue, top);
  }

  lemma SpillFits(sc: SharedClass, cache: seq<Vec>, rem: nat, max: nat, c: nat)
    requires c < NUM_CLASSES && AllReady(c, sc.queue) && AllReady(c, cache) && |sc.queue| <= max
    ensures var r := Spill(sc, cache, rem, max);
            AllReady(c, r.sc.queue) && AllReady(c, r.cache)
  {
    hide Ready, Spill, Moved, AllReady;
    SpillList(sc, cache, rem, max);
    var k, room := Min(rem, |cache|), max - |sc.queue|;
    MovedFits(sc, cache, Min(k, room), c);
    var kept := if k <= room then |cache| - k else |cache| - room - 1;
    SliceReady(c, cache, 0, kept);
    assert cache[0..kept] == cache[..kept];
  }

  /** Giving back a buffer fit for class `c` keeps everything fit. */
  lemma GiveBackFits(tls: Tls, sc: SharedClass, id: nat, cfg: Settings, c: nat, v: Vec)
    requires c < NUM_CLASSES && TlsFits(tls, id, cfg.limit) && AllReady(c, sc.queue) && Ready(c, v)
    requires |sc.queue| <= cfg.maxBuffers
    ensures var g := GiveBack(tls, sc, id, cfg, c, v);
            TlsFits(g.tls, id, cfg.limit) && AllReady(c, g.sc.queue)
  {
    hide Ready, Attach, Spill;
    AttachFits(tls, id, cfg.limit);
    var t := Attach(tls, id, cfg.limit).tls;
    var cache := t.caches[c];
    SpillFits(sc, cache, cfg.batch, cfg.maxBuffers, c);
    var s := if |cache| >= t.limit then Spill(sc, cache, cfg.batch, cfg.maxBuffers) else Spilled(sc, cache, []);
    var t1 := WithCache(t, c, s.cache);
    CacheFits(t, id, cfg.limit, c, s.cache);
    assert AllReady(c, [v]);
    JoinReady(c, s.cache, [v]);
    JoinReady(c, s.sc.queue, [v]);
    CacheFits(t1, id, cfg.limit, c, s.cache + [v]);
  }

  // ── The pool ────────────────────────────────────────────────────────

  class ZeroPool {
    const id: nat
    const cfg: Settings
    const table: ClassTable
    const counters: Counters
    const allocate: Supplier
    const reserve: Supplier
    var calls: nat

    ghost predicate Valid()
      reads this, table, table.classes
    {
      && Accepted(cfg) && id != 0 && table.Valid()
      && LawfulAllocator(allocate) && LawfulReserve(reserve)
      && forall i :: 0 <= i < NUM_CLASSES ==>
           table.classes[i].capacity == cfg.maxBuffers && AllReady(i, table.classes[i].queue)
    }

    ghost predicate Admits(tls: TlsState)
      reads tls
    {
      TlsFits(tls.State(), id, cfg.limit)
    }

    constructor (id: nat, cfg: Settings, allocate: Supplier, reserve: Supplier)
      requires id != 0 && Accepted(cfg) && LawfulAllocator(allocate) && LawfulReserve(reserve)
      ensures Valid() && fresh(table) && fresh(table.classes) && fresh(counters)
      ensures this.id == id && this.cfg == cfg && counters.State() == ZERO_TOTALS && calls == 0
      ensures forall i :: 0 <= i < NUM_CLASSES ==> table.classes[i].State() == SharedClass([], 0)
    {
      this.id := id;
      this.cfg := cfg;
      this.allocate := allocate;
      this.reserve := reserve;
      this.calls := 0;
      table := new ClassTable(cfg.maxBuffers);
      counters := new Counters();
      new;
      forall i | 0 <= i < NUM_CLASSES ensures AllReady(i, table.classes[i].queue) {
        assert table.classes[i].State().queue == [];
      }
    }

    /** The thread-local part of an allocation: bind if need be, pop the cache, else refill from the queue. */
    method TakePooled(tls: TlsState, c: nat) returns (src: Source, ghost freed: seq<Vec>)
      requires Valid() && Admits(tls) && c < NUM_CLASSES
      modifies tls, table.classes[c]
      ensures Valid() && Admits(tls)
      ensures var a := Acquire(old(tls.State()), old(table.classes[c].State()), id, cfg, c);
              && src == a.source && tls.State() == a.tls && table.classes[c].State() == a.sc && freed == a.freed
      ensures !src.FromAllocator? ==> Ready(c, src.vec)
    {
      hide Ready, Refill, Bind, AllReady;
      AcquireFits(tls.State(), table.classes[c].State(), id, cfg, c);
      var cls := table.classes[c];
      freed := [];
      if !tls.Owns(id) { freed := tls.BindTo(id, cfg.limit); }
      assert tls.State() == Attach(old(tls.State()), id, cfg.limit).tls;
      if tls.caches[c] != [] {
        var v := tls.PopCache(c);
        src := FromTls(v);
      } else {
        var first := tls.RefillFrom(c, cls, cfg.batch);
        src := if first.Some? then FromShared(first.value) else FromAllocator;
      }
    }

    /**
     What an allocation counts, by where its buffer came from: nothing unless the pool is tracked; a get, and
     then exactly one of a cache hit, a hit on the shared queue, and an allocation; an oversize request is
     counted besides.
     */
    twostate predicate CountsSource(tls: TlsState, route: Option<nat>)
      requires |old(tls.caches)| == NUM_CLASSES == |table.classes| && (route.Some? ==> route.value < NUM_CLASSES)
      reads tls, counters, table, table.classes
    {
      var t, t' := old(counters.State()), counters.State();
      var cached := route.Some? && old(tls.poolId) == id && old(tls.caches)[route.value] != [];
      var queued := route.Some? && !cached && old(table.classes[route.value].queue) != [];
      if !cfg.track then t' == t
      else
        && t'.gets == t.gets + 1 && t'.puts == t.puts && t'.discards == t.discards
        && t'.tlsHits == t.tlsHits + (if cached then 1 else 0)
        && t'.sharedHits == t.sharedHits + (if queued then 1 else 0)
        && t'.allocations == t.allocations + (if cached || queued then 0 else 1)
        && t'.oversize == t.oversize + (if route.None? then 1 else 0)
    }

    /** The answer to the next request for memory, cut to size. */
    twostate function NextAnswer(n: nat, size: nat, uninit: bool): Vec
      reads this
    {
      if uninit then reserve(old(calls), n).SetLen(size) else allocate(old(calls), n).Truncate(size)
    }

    /** What an oversize allocation does to everything but the handle: it counts, and calls the allocator. */
    twostate predicate AllocatedOversize(tls: TlsState, classIdx: nat, freed: seq<Vec>)
      reads this, tls, counters, table, table.classes
    {
      var t := old(counters.State());
      && classIdx == OVERSIZE_HINT && freed == [] && calls == old(calls) + 1
      && tls.State() == old(tls.State()) && table.State() == old(table.State())
      && counters.State()
          == (if cfg.track then t.(gets := t.gets + 1, oversize := t.oversize + 1, allocations := t.allocations + 1)
                              else t)
    }

    /** What an allocation of class `c` does: what `Acquire` says to the thread's caches and to that class alone. */
    twostate predicate AllocatedPooled(tls: TlsState, c: nat, size: nat, uninit: bool, classIdx: nat, v: Vec,
                                       freed: seq<Vec>)
      requires c < NUM_CLASSES == |old(tls.caches)| && |table.classes| == NUM_CLASSES
      reads this, tls, counters, table, table.classes
    {
      var t := old(counters.State());
      var a := Acquire(old(tls.State()), old(table.classes[c].State()), id, cfg, c);
      && classIdx == c && freed == a.freed
      && tls.State() == a.tls && table.State() == old(table.State())[c := a.sc]
      && counters.State() == Served(if cfg.track then t.(gets := t.gets + 1) else t, cfg.track, a.source)
      && calls == old(calls) + (if a.source.FromAllocator? then 1 else 0)
      && if a.source.FromAllocator? then v == NextAnswer(Boundary(c), size, uninit)
         else
           && a.source.vec.Valid()
           && v == if uninit then a.source.vec.SetLen(size) else a.source.vec.ResizeZeroed(size)
    }

    twostate predicate Allocated(tls: TlsState, size: usize, uninit: bool, classIdx: nat, v: Vec, freed: seq<Vec>)
      requires |old(tls.caches)| == NUM_CLASSES == |table.classes|
      reads this, tls, counters, table, table.classes
    {
      var route := RouteSize(size);
      if route.None? then AllocatedOversize(tls, classIdx, freed) && v == NextAnswer(size, size, uninit)
      else AllocatedPooled(tls, route.value, size, uninit, classIdx, v, freed)
    }

    /** Find a buffer for class `c`, and count the get and where it was served from. */
    method TakeCounted(tls: TlsState, c: nat) returns (src: Source, ghost freed: seq<Vec>)
      requires Valid() && Admits(tls) && c < NUM_CLASSES
      modifies counters, tls, table.classes[c]
      ensures Valid() && Admits(tls) && |old(tls.caches)| == NUM_CLASSES == |table.classes|
      ensures var a := Acquire(old(tls.State()), old(table.classes[c].State()), id, cfg, c);
              && src == a.source && tls.State() == a.tls && freed == a.freed
              && table.State() == old(table.State())[c := a.sc]
      ensures var t := old(counters.State());
              counters.State() == Served(if cfg.track then t.(gets := t.gets + 1) else t, cfg.track, src)
      ensures CountsSource(tls, Some(c))
      ensures !src.FromAllocator? ==> Ready(c, src.vec)
    {
      hide Ready, Acquire, AllReady, TlsFits, CachesReady;
      CachesCount(tls.State(), id, cfg.limit);
      SourceExactly(tls.State(), table.classes[c].State(), id, cfg, c);
      counters.CountGet(cfg.track);
      src, freed := TakePooled(tls, c);
      counters.CountServed(cfg.track, src);
      assert table.State() == old(table.State())[c := table.classes[c].State()];
    }

    /** A vector for a request of class `c`, zeroed or not, wherever it comes from. */
    method PooledVec(tls: TlsState, c: nat, size: nat, uninit: bool) returns (v: Vec, ghost freed: seq<Vec>)
      requires Valid() && Admits(tls) && c < NUM_CLASSES && size <= Boundary(c)
      modifies this`calls, counters, tls, table.classes[c]
      ensures Valid() && Admits(tls) && |old(tls.caches)| == NUM_CLASSES
      ensures Holds(v, c) && v.len == size && (!uninit ==> v.Visible() == Zeros(size))
      ensures AllocatedPooled(tls, c, size, uninit, c, v, freed) && CountsSource(tls, Some(c))
    {
      hide Ready, Acquire, AllReady, TlsFits, CachesReady, Served, CountsSource, Admits;
      var src;
      src, freed := TakeCounted(tls, c);
      if !src.FromAllocator? { ResizeReady(c, src.vec, size); }
      v := Supply(src, c, size, uninit);
    }

    /** The vector itself: a recycled one resized, or a new one cut to size. */
    method Supply(src: Source, c: nat, size: nat, uninit: bool) returns (v: Vec)
      requires Valid() && c < NUM_CLASSES && size <= Boundary(c) && (!src.FromAllocator? ==> Ready(c, src.vec))
      modifies this`calls
      ensures Valid() && calls == old(calls) + if src.FromAllocator? then 1 else 0
      ensures Holds(v, c) && v.len == size && (!uninit ==> v.Visible() == Zeros(size))
      ensures !src.FromAllocator? ==>
                v.id == src.vec.id && v == if uninit then src.vec.SetLen(size) else src.vec.ResizeZeroed(size)
      ensures src.FromAllocator? ==> v == NextAnswer(Boundary(c), size, uninit)
    {
      hide Ready, AllReady;
      if src.FromAllocator? {
        var n := table.classes[c].classSize;
        var raw := if uninit then reserve(calls, n) else allocate(calls, n);
        calls := calls + 1;
        if !uninit { TruncateExposesZeros(raw, Boundary(c), size); }
        v := if uninit then raw.SetLen(size) else raw.Truncate(size);
      } else {
        ResizeReady(c, src.vec, size);
        v := if uninit then src.vec.SetLen(size) else src.vec.ResizeZeroed(size);
      }
    }

    /** A vector for a request above the largest class: never pooled. */
    method OversizeVec(tls: TlsState, size: nat, uninit: bool) returns (v: Vec)
      requires Valid() && size <= ISIZE_MAX
      modifies this`calls, counters
      ensures Valid() && AllocatedOversize(tls, OVERSIZE_HINT, []) && |table.classes| == NUM_CLASSES
      ensures v == NextAnswer(size, size, uninit) && (|old(tls.caches)| == NUM_CLASSES ==> CountsSource(tls, None))
      ensures v.Valid() && v.len == size && (!uninit ==> v.Visible() == Zeros(size))
    {
      hide Ready, AllReady;
      counters.CountGet(cfg.track);
      counters.CountOversize(cfg.track);
      var raw := if uninit then reserve(calls, size) else allocate(calls, size);
      calls := calls + 1;
      if !uninit { TruncateExposesZeros(raw, size, size); }
      v := if uninit then raw.SetLen(size) else raw.Truncate(size);
      assert table.State() == old(table.State());
    }

    method AllocVec(tls: TlsState, size: usize, uninit: bool) returns (v: Vec, classIdx: nat, ghost freed: seq<Vec>)
      requires Valid() && Admits(tls) && size <= ISIZE_MAX
      modifies this`calls, counters, tls, table.classes
      ensures Valid() && Admits(tls) && |old(tls.caches)| == NUM_CLASSES
      ensures Holds(v, classIdx) && v.len == size && (!uninit ==> v.Visible() == Zeros(size))
      ensures Allocated(tls, size, uninit, classIdx, v, freed) && CountsSource(tls, RouteSize(size))
    {
      hide AllocatedOversize, AllocatedPooled, CountsSource, NextAnswer, TlsFits;
      CachesCount(tls.State(), id, cfg.limit);
      var route := RouteSize(size);
      if route.None? {
        v := OversizeVec(tls, size, uninit);
        classIdx, freed := OVERSIZE_HINT, [];
      } else {
        classIdx := route.value;
        v, freed := PooledVec(tls, classIdx, size, uninit);
      }
    }

    /** A zeroed buffer of `size` bytes, from the cache, the shared queue or the allocator. */
    method Alloc(tls: TlsState, size: usize) returns (buf: Buf, ghost freed: seq<Vec>)
      requires Valid() && Admits(tls) && size <= ISIZE_MAX
      modifies this`calls, counters, tls, table.classes
      ensures Valid() && Admits(tls) && |old(tls.caches)| == NUM_CLASSES
      ensures fresh(buf) && buf.pool == this && buf.Valid() && buf.buffer.Some?
      ensures buf.buffer.value.Visible() == Zeros(size)
      ensures Allocated(tls, size, false, buf.classIdx, buf.buffer.value, freed) && CountsSource(tls, RouteSize(size))
    {
      hide Allocated, CountsSource, Valid, Admits;
      var v, classIdx;
      v, classIdx, freed := AllocVec(tls, size, false);
      buf := new Buf(v, this, classIdx);
    }

    /** An unzeroed buffer of `size` cells; `set_len` is only ever called within the capacity. */
    method AllocUninit(tls: TlsState, size: usize) returns (buf: BufUninit, ghost freed: seq<Vec>)
      requires Valid() && Admits(tls) && size <= ISIZE_MAX
      modifies this`calls, counters, tls, table.classes
      ensures Valid() && Admits(tls) && |old(tls.caches)| == NUM_CLASSES
      ensures fresh(buf) && buf.pool == this && buf.Valid() && buf.buffer.Some?
      ensures buf.buffer.value.len == size <= buf.buffer.value.Capacity()
      ensures Allocated(tls, size, true, buf.classIdx, buf.buffer.value, freed) && CountsSource(tls, RouteSize(size))
    {
      hide Allocated, CountsSource, Valid, Admits;
      var v, classIdx;
      v, classIdx, freed := AllocVec(tls, size, true);
      buf := new BufUninit(v, this, classIdx);
    }

    /** The thread-local part of a return, and the overflow push after it. */
    method PutPooled(tls: TlsState, c: nat, v: Vec) returns (ghost lost: seq<Vec>, ghost unbound: seq<Vec>)
      requires Valid() && Admits(tls) && c < NUM_CLASSES && Ready(c, v)
      modifies tls, table.classes[c]
      ensures Valid() && Admits(tls) && |old(tls.caches)| == NUM_CLASSES
      ensures var g := GiveBack(old(tls.State()), old(table.classes[c].State()), id, cfg, c, v);
              && tls.State() == g.tls && table.classes[c].State() == g.sc && lost == g.lost && unbound == g.unbound
    {
      hide Ready, Spill, Bind, AllReady, CachesReady;
      GiveBackFits(tls.State(), table.classes[c].State(), id, cfg, c, v);
      var cls := table.classes[c];
      lost, unbound := [], [];
      if !tls.Owns(id) { unbound := tls.BindTo(id, cfg.limit); }
      ghost var b := Attach(old(tls.State()), id, cfg.limit);
      assert tls.State() == b.tls && unbound == b.freed;
      if |tls.caches[c]| >= tls.limit { lost := tls.SpillTo(c, cls, cfg.batch); }
      else { assert b.tls.caches[c := b.tls.caches[c]] == b.tls.caches; }
      ghost var mid := tls.State();
      if |tls.caches[c]| < tls.limit {
        tls.PushCache(c, v);
      } else {
        var r := cls.Push(v);
        if r.Err? { lost := lost + [v]; }
      }
    }

    /** What a return does: discard and count, or what `GiveBack` says to the thread's caches and to one class alone. */
    twostate predicate Deallocated(tls: TlsState, buffer: Vec, hint: nat, lost: seq<Vec>, unbound: seq<Vec>)
      requires |old(tls.caches)| == NUM_CLASSES == |table.classes|
      requires buffer.Valid() && (hint < NUM_CLASSES || hint == OVERSIZE_HINT)
      reads this, tls, counters, table, table.classes
    {
      var fate := Decide(buffer.Capacity(), hint, cfg.minSize);
      && counters.State() == PutTotals(old(counters.State()), cfg.track, fate.Discard?)
      && if fate.Pooled? then ReturnedTo(tls, buffer.Clear(), fate.c, lost, unbound)
         else
           && tls.State() == old(tls.State()) && table.State() == old(table.State())
           && lost == [buffer.Clear()] && unbound == []
    }

    /**
     What a return counts: nothing unless the pool is tracked; a put, and a discard if the buffer is not to
     be kept.
     */
    twostate predicate CountsReturn(buffer: Vec, hint: nat)
      reads counters
    {
      var t, t' := old(counters.State()), counters.State();
      if !cfg.track then t' == t
      else
        && t'.gets == t.gets && t'.tlsHits == t.tlsHits && t'.sharedHits == t.sharedHits
        && t'.allocations == t.allocations && t'.oversize == t.oversize && t'.puts == t.puts + 1
        && t'.discards == t.discards + (if hint == OVERSIZE_HINT || buffer.Capacity() < cfg.minSize then 1 else 0)
    }

    twostate predicate ReturnedTo(tls: TlsState, v: Vec, c: nat, lost: seq<Vec>, unbound: seq<Vec>)
      requires c < NUM_CLASSES == |old(tls.caches)| && |table.classes| == NUM_CLASSES
      reads this, tls, table, table.classes
    {
      var g := GiveBack(old(tls.State()), old(table.classes[c].State()), id, cfg, c, v);
      && tls.State() == g.tls && table.State() == old(table.State())[c := g.sc]
      && lost == g.lost && unbound == g.unbound
    }

    /** Return a buffer: emptied but not erased, then discarded or pooled by its hint and its capacity. */
    method Dealloc(tls: TlsState, buffer: Vec, hint: nat) returns (ghost lost: seq<Vec>, ghost unbound: seq<Vec>)
      requires Valid() && Admits(tls) && buffer.Valid() && (hint < NUM_CLASSES || hint == OVERSIZE_HINT)
      modifies counters, tls, table.classes
      ensures Valid() && Admits(tls) && |old(tls.caches)| == NUM_CLASSES
      ensures Deallocated(tls, buffer, hint, lost, unbound) && CountsReturn(buffer, hint)
    {
      hide AllReady, TlsFits, CachesReady, GiveBack;
      CachesCount(tls.State(), id, cfg.limit);
      var v := buffer.Clear();
      lost, unbound := [v], [];
      if hint == OVERSIZE_HINT || v.Capacity() < cfg.minSize {
        counters.CountPut(cfg.track, true);
        assert table.State() == old(table.State());
      } else {
        counters.CountPut(cfg.track, false);
        var c := hint;
        if v.Capacity() < Boundary(hint) {
          var r := RouteCapacity(v.Capacity());
          if r.None? {
            assert table.State() == old(table.State());
            return;
          }
          c := r.value;
        }
        assert Ready(c, v);
        lost, unbound := PutPooled(tls, c, v);
        assert table.State() == old(table.State())[c := table.classes[c].State()];
      }
    }

    /** Fill a class's queue with new buffers until it is full or `count` have been added. */
    method Warm(count: nat, size: usize) returns (ghost lost: seq<Vec>)
      requires Valid()
      modifies this`calls, table.classes
      ensures Valid()
      ensures RouteSize(size).None? ==> calls == old(calls) && lost == [] && table.State() == old(table.State())
      ensures RouteSize(size).Some? ==>
                var c := RouteSize(size).value;
                var queue, before := table.classes[c].queue, old(table.classes[c].queue);
                && |queue| == Min(cfg.maxBuffers, |before| + count)
                && queue == before + Answers(allocate, old(calls), Boundary(c), |queue| - |before|)
                && lost == (if |before| + count <= cfg.maxBuffers then []
                            else [allocate(old(calls) + |queue| - |before|, Boundary(c))])
                && table.classes[c].count == Wrap(old(table.classes[c].count) + |queue| - |before|)
                && calls == old(calls) + (|queue| - |before|) + |lost|
                && forall i :: 0 <= i < NUM_CLASSES && i != c
                    ==> table.classes[i].State() == old(table.classes[i].State())
    {
      hide Ready, Wrap;
      lost := [];
      var route := RouteSize(size);
      if route.None? {
        assert table.State() == old(table.State());
        return;
      }
      var c := route.value;
      lost := WarmClass(c, count);
    }

    method WarmClass(c: nat, count: nat) returns (ghost lost: seq<Vec>)
      requires Valid() && c < NUM_CLASSES
      modifies this`calls, table.classes[c]
      ensures Valid()
      ensures var queue, before := table.classes[c].queue, old(table.classes[c].queue);
              && |queue| == Min(cfg.maxBuffers, |before| + count)
              && queue == before + Answers(allocate, old(calls), Boundary(c), |queue| - |before|)
              && lost == (if |before| + count <= cfg.maxBuffers then []
                          else [allocate(old(calls) + |queue| - |before|, Boundary(c))])
              && table.classes[c].count == Wrap(old(table.classes[c].count) + |queue| - |before|)
              && calls == old(calls) + (|queue| - |before|) + |lost|
    {
      hide Ready, Wrap;
      var cls := table.classes[c];
      lost := [];
      ghost var before, counted, asked := cls.queue, cls.count, calls;
      WrapSmall(counted);
      assert before + Answers(allocate, asked, Boundary(c), 0) == before;
      var i := 0;
      while i < count
        invariant 0 <= i <= count && Valid() && lost == []
        invariant |cls.queue| == |before| + i <= cfg.maxBuffers
        invariant cls.queue == before + Answers(allocate, asked, Boundary(c), i)
        invariant cls.count == Wrap(counted + i) && calls == asked + i
      {
        AnswersMore(allocate, asked, Boundary(c), i, before);
        var raw := allocate(calls, cls.classSize);
        calls := calls + 1;
        assert Ready(c, raw) by { FreshReady(c, raw); }
        var r := cls.Push(raw);
        WrapDown(counted + i, 1);
        if r.Err? {
          lost := [raw];
          break;
        }
        i := i + 1;
      }
    }

    /** Empty every shared queue; no thread's caches are touched. */
    method Drain() returns (ghost freed: seq<Vec>)
      requires Valid()
      modifies table.classes
      ensures Valid()
      ensures forall i :: 0 <= i < NUM_CLASSES ==> table.classes[i].State() == SharedClass([], 0)
      ensures freed == Flatten(old(Queues(table.State())))
    {
      hide Ready;
      freed := table.ClearAll();
      forall i | 0 <= i < NUM_CLASSES ensures AllReady(i, table.classes[i].queue) {
        assert table.classes[i].State().queue == [];
      }
    }

    method Stats() returns (s: Snapshot)
      requires Valid()
      ensures var t := counters.State();
              && s.gets == Load(t.gets) && s.tlsHits == Load(t.tlsHits) && s.sharedHits == Load(t.sharedHits)
              && s.allocations == Load(t.allocations) && s.puts == Load(t.puts)
              && s.discards == Load(t.discards) && s.oversize == Load(t.oversize)
              && s.tlsHitRate == TlsHitRate(t) && s.hitRate == HitRate(t)
              && (s.gets == 0 ==> s.tlsHitRate == 0.0 == s.hitRate)
              && (s.gets > 0 ==> s.tlsHitRate * s.gets as real == s.tlsHits as real)
              && (s.gets > 0 ==> s.hitRate * s.gets as real == Load(s.tlsHits + s.sharedHits) as real)
      ensures |s.classes| == NUM_CLASSES
      ensures forall i :: 0 <= i < NUM_CLASSES ==> s.classes[i] == ClassInfo(Boundary(i), table.classes[i].count)
    {
      s := TakeSnapshot(counters, table);
    }
  }

  lemma FreshReady(c: nat, raw: Vec)
    requires c < NUM_CLASSES && AllocatorContract(raw, Boundary(c))
    ensures Ready(c, raw)
  {
  }

  lemma WrapSmall(x: nat)
    requires x < TWO64
    ensures Wrap(x) == x
  {
  }

  lemma ResizeReady(c: nat, v: Vec, size: nat)
    requires c < NUM_CLASSES && Ready(c, v) && size <= Boundary(c)
    ensures v.Valid() && size <= v.Capacity() && v.Capacity() >= Boundary(c)
    ensures v.ResizeZeroed(size).Valid() && v.ResizeZeroed(size).Visible() == Zeros(size)
    ensures v.ResizeZeroed(size).Capacity() >= Boundary(c)
  {
    ResizeExposesZeros(v, size, Boundary(c));
  }

  // ── Handles ─────────────────────────────────────────────────────────

  /** A buffer a handle may hold: intact, and big enough for the class it was handed out from. */
  ghost predicate Holds(v: Vec, classIdx: nat) {
    v.Valid() && (classIdx < NUM_CLASSES || classIdx == OVERSIZE_HINT)
    && (classIdx < NUM_CLASSES ==> v.Capacity() >= Boundary(classIdx))
  }

  class Buf {
    var buffer: Option<Vec>
    const pool: ZeroPool
    const classIdx: nat

    ghost predicate Valid()
      reads this
    {
      (classIdx < NUM_CLASSES || classIdx == OVERSIZE_HINT) && (buffer.Some? ==> Holds(buffer.value, classIdx))
    }

    constructor (v: Vec, pool: ZeroPool, classIdx: nat)
      requires Holds(v, classIdx)
      ensures Valid() && buffer == Some(v) && this.pool == pool && this.classIdx == classIdx
    {
      this.buffer := Some(v);
      this.pool := pool;
      this.classIdx := classIdx;
    }

    /** Take the vector out; the handle is spent and will return nothing. */
    method IntoInner() returns (v: Vec)
      requires Valid() && buffer.Some?
      modifies this
      ensures Valid() && buffer == None && Some(v) == old(buffer)
    {
      v := buffer.value;
      buffer := None;
    }

    /** Write one visible byte through `DerefMut`. */
    method SetByte(i: nat, b: u8)
      requires Valid() && buffer.Some? && i < buffer.value.len
      modifies this
      ensures Valid() && buffer == Some(old(buffer.value).(store := old(buffer.value.store)[i := Byte(b)]))
    {
      buffer := Some(buffer.value.(store := buffer.value.store[i := Byte(b)]));
    }

    /** `io::Write`: append, growing if need be; the room for the handle's class is never lost. */
    method Write(data: seq<u8>, spare: seq<Cell>) returns (written: nat)
      requires Valid() && buffer.Some? && buffer.value.Append(data, spare).Capacity() <= ISIZE_MAX
      modifies this
      ensures Valid() && buffer.Some? && written == |data|
      ensures buffer.value == old(buffer.value).Append(data, spare)
      ensures buffer.value.Visible() == old(buffer.value.Visible()) + Cells(data)
    {
      AppendKeeps(buffer.value, data, spare);
      buffer := Some(buffer.value.Append(data, spare));
      written := |data|;
    }

    /** Give the vector back, with the class it was handed out from; a spent handle gives nothing back. */
    method Drop(tls: TlsState) returns (ghost lost: seq<Vec>, ghost unbound: seq<Vec>)
      requires Valid() && pool.Valid() && pool.Admits(tls)
      modifies this, pool.counters, tls, pool.table.classes
      ensures buffer == None && pool.Valid() && pool.Admits(tls)
      ensures old(buffer) == None ==>
                && lost == [] && unbound == [] && tls.State() == old(tls.State())
                && pool.counters.State() == old(pool.counters.State()) && pool.table.State() == old(pool.table.State())
      ensures old(buffer).Some? ==>
                |old(tls.caches)| == NUM_CLASSES && pool.Deallocated(tls, old(buffer.value), classIdx, lost, unbound)
    {
      lost, unbound := [], [];
      hide ZeroPool.Admits, GiveBack, Decide, Ready;
      if buffer.Some? {
        var v := buffer.value;
        buffer := None;
        lost, unbound := pool.Dealloc(tls, v, classIdx);
      } else {
        assert pool.table.State() == old(pool.table.State());
      }
    }
  }

  class BufUninit {
    var buffer: Option<Vec>
    const pool: ZeroPool
    const classIdx: nat

    ghost predicate Valid()
      reads this
    {
      (classIdx < NUM_CLASSES || classIdx == OVERSIZE_HINT) && (buffer.Some? ==> Holds(buffer.value, classIdx))
    }

    constructor (v: Vec, pool: ZeroPool, classIdx: nat)
      requires Holds(v, classIdx)
      ensures Valid() && buffer == Some(v) && this.pool == pool && this.classIdx == classIdx
    {
      this.buffer := Some(v);
      this.pool := pool;
      this.classIdx := classIdx;
    }

    /** Write any visible cell. */
    method SetCell(i: nat, cell: Cell)
      requires Valid() && buffer.Some? && i < buffer.value.len
      modifies this
      ensures Valid() && buffer == Some(old(buffer.value).(store := old(buffer.value.store)[i := cell]))
    {
      buffer := Some(buffer.value.(store := buffer.value.store[i := cell]));
    }

    /** Hand the vector over to a readable handle of the same pool and class, once every visible cell is written. */
    method AssumeInit() returns (b: Buf)
      requires Valid() && buffer.Some? && AllInit(buffer.value.Visible())
      modifies this
      ensures buffer == None && fresh(b) && b.Valid()
      ensures b.buffer == old(buffer) && b.pool == pool && b.classIdx == classIdx
    {
      b := new Buf(buffer.value, pool, classIdx);
      buffer := None;
    }

    /** Copy a slice over all visible cells; with the wrong length it panics, and unwinding returns the buffer. */
    method WriteFromSlice(tls: TlsState, data: seq<u8>)
        returns (b: Result<Buf, ()>, ghost lost: seq<Vec>, ghost unbound: seq<Vec>)
      requires Valid() && buffer.Some? && pool.Valid() && pool.Admits(tls)
      modifies this, pool.counters, tls, pool.table.classes
      ensures buffer == None && pool.Valid() && pool.Admits(tls)
      ensures |data| == old(buffer.value.len) ==>
                && b.Ok? && fresh(b.value) && b.value.Valid() && b.value.pool == pool && b.value.classIdx == classIdx
                && b.value.buffer == Some(old(buffer.value).Overwrite(Cells(data)))
                && b.value.buffer.value.Visible() == Cells(data)
                && lost == [] && unbound == [] && tls.State() == old(tls.State())
                && pool.counters.State() == old(pool.counters.State()) && pool.table.State() == old(pool.table.State())
      ensures |data| != old(buffer.value.len) ==>
                && b.Err? && |old(tls.caches)| == NUM_CLASSES
                && pool.Deallocated(tls, old(buffer.value), classIdx, lost, unbound)
    {
      hide ZeroPool.Admits, GiveBack, Decide, Ready;
      lost, unbound := [], [];
      var v := buffer.value;
      if |data| != v.len {
        buffer := None;
        lost, unbound := pool.Dealloc(tls, v, classIdx);
        b := Err(());
      } else {
        buffer := Some(v.Overwrite(Cells(data)));
        assert buffer.value.Visible() == Cells(data);
        var init := AssumeInit();
        assert pool.table.State() == old(pool.table.State());
        b := Ok(init);
      }
    }

    method Drop(tls: TlsState) returns (ghost lost: seq<Vec>, ghost unbound: seq<Vec>)
      requires Valid() && pool.Valid() && pool.Admits(tls)
      modifies this, pool.counters, tls, pool.table.classes
      ensures buffer == None && pool.Valid() && pool.Admits(tls)
      ensures old(buffer) == None ==>
                && lost == [] && unbound == [] && tls.State() == old(tls.State())
                && pool.counters.State() == old(pool.counters.State()) && pool.table.State() == old(pool.table.State())
      ensures old(buffer).Some? ==>
                |old(tls.caches)| == NUM_CLASSES && pool.Deallocated(tls, old(buffer.value), classIdx, lost, unbound)
    {
      hide ZeroPool.Admits, GiveBack, Decide, Ready;
      lost, unbound := [], [];
      if buffer.Some? {
        var v := buffer.value;
        buffer := None;
        lost, unbound := pool.Dealloc(tls, v, classIdx);
      } else {
        assert pool.table.State() == old(pool.table.State());
      }
    }
  }

  /** `alloc_uninit(|d|).write_from_slice(d).into_inner()` is exactly `d`, whatever the pool held before. */
  method UninitRoundTrip(pool: ZeroPool, tls: TlsState, data: seq<u8>) returns (v: Vec)
    requires pool.Valid() && pool.Admits(tls) && |data| <= ISIZE_MAX
    modifies pool, pool.counters, tls, pool.table.classes
    ensures pool.Valid() && pool.Admits(tls)
    ensures v.Valid() && v.Visible() == Cells(data)
  {
    hide ZeroPool.Admits, ZeroPool.Allocated, ZeroPool.Valid;
    var u, _ := pool.AllocUninit(tls, |data|);
    var b, _, _ := u.WriteFromSlice(tls, data);
    v := b.value.IntoInner();
  }

  /** A buffer that has been dirtied and dropped comes back zeroed from the next allocation of its class. */
  method DirtyThenRealloc(pool: ZeroPool, tls: TlsState, size: usize, dirt: u8, again: usize) returns (b: Buf)
    requires pool.Valid() && pool.Admits(tls) && 0 < size <= ISIZE_MAX && again <= ISIZE_MAX
    modifies pool, pool.counters, tls, pool.table.classes
    ensures pool.Valid() && pool.Admits(tls)
    ensures b.buffer.Some? && b.buffer.value.Valid() && b.buffer.value.Visible() == Zeros(again)
  {
    hide ZeroPool.Admits, ZeroPool.Allocated, ZeroPool.Valid;
    var first, _ := pool.Alloc(tls, size);
    first.SetByte(0, dirt);
    var _, _ := first.Drop(tls);
    var second, _ := pool.Alloc(tls, again);
    b := second;
  }
}
