/**
 The allocator as a step machine: any number of threads and pools, with a step at every
 shared access, so that the steps of different threads interleave freely. A queue operation
 and the update of the counter beside it are two steps; so is every statistics update.
 */
module Machine {
  import opened Options
  import opened Sums
  import opened Memory
  import opened Routing
  import opened Config
  import opened Magazine
  import opened Stats

  // ── State ───────────────────────────────────────────────────────────

  datatype Req = Req(pool: nat, size: usize, uninit: bool)

  /** Where a thread stands inside an operation, with what it holds in its hands. */
  datatype Op =
    | Idle
    // alloc and alloc_uninit
    | Start(r: Req)
    | Oversize(r: Req)
    | Hit(r: Req, c: nat, vec: Vec)
    | RefillPop(r: Req, c: nat)
    | RefillFirst(r: Req, c: nat, vec: Vec)
    | RefillLoop(r: Req, c: nat, vec: Vec, rem: nat)
    | RefillMore(r: Req, c: nat, vec: Vec, next: Vec, rem: nat)
    | Cold(r: Req, c: nat)
    // dealloc
    | Return(pool: nat, hint: nat, vec: Vec)
    | Spill(pool: nat, c: nat, vec: Vec, rem: nat)
    | SpillCount(pool: nat, c: nat, vec: Vec, rem: nat)
    | Place(pool: nat, c: nat, vec: Vec)
    | OverflowCount(pool: nat, c: nat)
    // warm
    | WarmLoop(pool: nat, c: nat, rem: nat)
    | WarmCount(pool: nat, c: nat, rem: nat)
    // drain
    | Draining(pool: nat, c: nat, popped: nat)
    | DrainStore(pool: nat, c: nat, popped: nat)
    // reset_stats
    | Resetting(pool: nat, k: nat)
    // stats: loads done so far, and what they read
    | Snapshotting(pool: nat, k: nat, seen: Totals, counts: seq<nat>)

  /** `lost` counts the buffers the current (or last) return has freed by discarding, spilling or overflowing. */
  datatype Thread = Thread(tls: Tls, op: Op, lost: nat)

  datatype Pool = Pool(classes: seq<SharedClass>, ctr: Totals)

  datatype Slot = Live(vec: Vec) | Returned | Extracted(vec: Vec)

  /** A `Buf` (or, while `uninit`, a `BufUninit`); `size` remembers what was asked for. */
  datatype Handle = Handle(pool: nat, hint: nat, size: nat, uninit: bool, slot: Slot)

  datatype State = State(cfgs: seq<Settings>, pools: seq<Pool>, threads: seq<Thread>,
                         handles: seq<Handle>, freed: seq<Vec>, created: nat)

  const NEW_THREAD: Thread := Thread(UNBOUND, Idle, 0)

  const EMPTY_CLASS: SharedClass := SharedClass([], 0)

  const NEW_POOL: Pool :=
    Pool([EMPTY_CLASS, EMPTY_CLASS, EMPTY_CLASS, EMPTY_CLASS,
          EMPTY_CLASS, EMPTY_CLASS, EMPTY_CLASS, EMPTY_CLASS], ZERO_TOTALS)

  function Threads(n: nat): (ts: seq<Thread>)
    ensures |ts| == n && forall k :: 0 <= k < n ==> ts[k] == NEW_THREAD
  {
    seq(n, _ => NEW_THREAD)
  }

  /** `n` threads, no pools yet. */
  function Initial(n: nat): State {
    State([], [], Threads(n), [], [], 0)
  }

  /** The `k`-th value handed out by the global 64-bit counter that starts at 1. */
  function PoolId(k: nat): nat {
    (1 + k) % 0x1_0000_0000_0000_0000
  }

  ghost predicate HasClass(s: State, p: nat, c: nat) {
    p < |s.pools| && c < |s.pools[p].classes|
  }

  // ── Reading an operation ────────────────────────────────────────────

  predicate Allocating(op: Op) {
    op.Start? || op.Oversize? || op.Hit? || op.RefillPop? || op.RefillFirst? || op.RefillLoop? || op.RefillMore?
    || op.Cold?
  }

  function PoolOf(op: Op): nat
    requires !op.Idle?
  {
    if Allocating(op) then op.r.pool else op.pool
  }

  /** The class an operation works on; operations that touch no queue answer 0 and leave class 0 as it is. */
  function ClassOf(op: Op): nat {
    match op
    case Idle => 0
    case Start(_) => 0
    case Oversize(_) => 0
    case Return(_, _, _) => 0
    case Resetting(_, _) => 0
    case Snapshotting(_, k, _, _) => if 3 <= k < 11 then k - 3 else 0
    case _ => op.c
  }

  predicate HasVec(op: Op) {
    op.Hit? || op.RefillFirst? || op.RefillLoop? || op.RefillMore? || op.Return? || op.Spill? || op.SpillCount?
    || op.Place?
  }

  /** The buffers an operation holds. */
  function OpVecs(op: Op): seq<Vec> {
    if op.RefillMore? then [op.vec, op.next] else if HasVec(op) then [op.vec] else []
  }

  /** What Rust's types already guarantee of a thread: eight caches, classes in range, vectors intact. */
  predicate Shaped(th: Thread) {
    && |th.tls.caches| == NUM_CLASSES
    && ClassOf(th.op) < NUM_CLASSES
    && (HasVec(th.op) ==> th.op.vec.Valid()) && (th.op.RefillMore? ==> th.op.next.Valid())
    && (th.op.Return? ==> th.op.hint < NUM_CLASSES || th.op.hint == OVERSIZE_HINT)
  }

  // ── One step of one thread ──────────────────────────────────────────

  /**
   The effect of a step: the thread, the class and the counters afterwards, the buffers
   freed, the handle made, and whether the allocator was called.
   */
  datatype Out = Out(th: Thread, sc: SharedClass, ctr: Totals, freed: seq<Vec>, made: Option<Handle>, called: bool)

  function Plain(th: Thread, sc: SharedClass, ctr: Totals): Out {
    Out(th, sc, ctr, [], None, false)
  }

  /** A pooled buffer on its way out: `resize_zeroed` or `resize_uninit`. */
  function Recycle(v: Vec, r: Req): Vec
    requires v.Valid()
  {
    if r.uninit then v.SetLen(r.size) else v.ResizeZeroed(r.size)
  }

  /** A new buffer on its way out. */
  function Cut(raw: Vec, r: Req): Vec {
    if r.uninit then raw.SetLen(r.size) else raw.Truncate(r.size)
  }

  function Hand(r: Req, hint: nat, v: Vec): Option<Handle> {
    Some(Handle(r.pool, hint, r.size, r.uninit, Live(v)))
  }

  function AllocStep(cfg: Settings, th: Thread, sc: SharedClass, ctr: Totals, raw: Vec): Out
    requires Shaped(th) && (th.op.Start? || th.op.Oversize? || th.op.Hit? || th.op.Cold?)
  {
    match th.op
    case Start(r) =>
      (match RouteSize(r.size)
       case None =>
         Plain(th.(op := Oversize(r)), sc, if cfg.track then ctr.(oversize := ctr.oversize + 1) else ctr)
       case Some(c) =>
         var b := Attach(th.tls, PoolId(r.pool), cfg.limit);
         var cache := b.tls.caches[c];
         if cache != [] then
           Out(th.(tls := WithCache(b.tls, c, cache[..|cache| - 1]), op := Hit(r, c, cache[|cache| - 1])),
               sc, ctr, b.freed, None, false)
         else Out(th.(tls := b.tls, op := RefillPop(r, c)), sc, ctr, b.freed, None, false))
    case Oversize(r) =>
      Out(th.(op := Idle), sc, if cfg.track then ctr.(allocations := ctr.allocations + 1) else ctr,
          [], Hand(r, OVERSIZE_HINT, Cut(raw, r)), true)
    case Hit(r, c, v) =>
      Out(th.(op := Idle), sc, if cfg.track then ctr.(tlsHits := ctr.tlsHits + 1) else ctr,
          [], Hand(r, c, Recycle(v, r)), false)
    case Cold(r, c) =>
      Out(th.(op := Idle), sc, if cfg.track then ctr.(allocations := ctr.allocations + 1) else ctr,
          [], Hand(r, c, Cut(raw, r)), true)
  }

  function RefillStep(cfg: Settings, th: Thread, sc: SharedClass, ctr: Totals): Out
    requires Shaped(th) && (th.op.RefillPop? || th.op.RefillFirst? || th.op.RefillLoop? || th.op.RefillMore?)
  {
    match th.op
    case RefillPop(r, c) =>
      if sc.queue == [] then Plain(th.(op := Cold(r, c)), sc, ctr)
      else Plain(th.(op := RefillFirst(r, c, sc.queue[0])), Dequeue(sc), ctr)
    case RefillFirst(r, c, v) =>
      Plain(th.(op := RefillLoop(r, c, v, if cfg.batch == 0 then 0 else cfg.batch - 1)), CountDown(sc), ctr)
    case RefillLoop(r, c, v, rem) =>
      if rem == 0 then
        Out(th.(op := Idle), sc, if cfg.track then ctr.(sharedHits := ctr.sharedHits + 1) else ctr,
            [], Hand(r, c, Recycle(v, r)), false)
      else if sc.queue == [] then Plain(th.(op := RefillLoop(r, c, v, 0)), sc, ctr)
      else Plain(th.(op := RefillMore(r, c, v, sc.queue[0], rem - 1)), Dequeue(sc), ctr)
    case RefillMore(r, c, v, next, rem) =>
      Plain(th.(tls := WithCache(th.tls, c, th.tls.caches[c] + [next]), op := RefillLoop(r, c, v, rem)),
            CountDown(sc), ctr)
  }

  function ReturnStep(cfg: Settings, th: Thread, sc: SharedClass, ctr: Totals): Out
    requires Shaped(th) && th.op.Return?
  {
    var v := th.op.vec;
    match Decide(v.Capacity(), th.op.hint, cfg.minSize)
    case Discard =>
      Out(th.(op := Idle, lost := th.lost + 1), sc,
          if cfg.track then ctr.(discards := ctr.discards + 1) else ctr, [v], None, false)
    case Unroutable => Out(th.(op := Idle, lost := th.lost + 1), sc, ctr, [v], None, false)
    case Pooled(c) =>
      var b := Attach(th.tls, PoolId(th.op.pool), cfg.limit);
      var op := if |b.tls.caches[c]| >= b.tls.limit then Spill(th.op.pool, c, v, cfg.batch)
          else Place(th.op.pool, c, v);
      Out(th.(tls := b.tls, op := op), sc, ctr, b.freed, None, false)
  }

  function SpillStep(cfg: Settings, th: Thread, sc: SharedClass, ctr: Totals): Out
    requires Shaped(th) && (th.op.Spill? || th.op.SpillCount? || th.op.Place? || th.op.OverflowCount?)
  {
    match th.op
    case Spill(p, c, v, rem) =>
      var cache := th.tls.caches[c];
      if rem == 0 || cache == [] then Plain(th.(op := Place(p, c, v)), sc, ctr)
      else
        var top := cache[|cache| - 1];
        var tls := WithCache(th.tls, c, cache[..|cache| - 1]);
        if |sc.queue| < cfg.maxBuffers then
          Plain(th.(tls := tls, op := SpillCount(p, c, v, rem - 1)), Enqueue(sc, top), ctr)
        else Out(th.(tls := tls, op := Place(p, c, v), lost := th.lost + 1), sc, ctr, [top], None, false)
    case SpillCount(p, c, v, rem) =>
      Plain(th.(op := Spill(p, c, v, rem)), CountUp(sc), ctr)
    case Place(p, c, v) =>
      if |th.tls.caches[c]| < th.tls.limit then
        Plain(th.(tls := WithCache(th.tls, c, th.tls.caches[c] + [v]), op := Idle), sc, ctr)
      else if |sc.queue| < cfg.maxBuffers then Plain(th.(op := OverflowCount(p, c)), Enqueue(sc, v), ctr)
      else Out(th.(op := Idle, lost := th.lost + 1), sc, ctr, [v], None, false)
    case OverflowCount(_, _) => Plain(th.(op := Idle), CountUp(sc), ctr)
  }

  /** Store zero in the `k`-th counter. */
  function ZeroCounter(ctr: Totals, k: nat): Totals {
    if k == 0 then ctr.(gets := 0)
    else if k == 1 then ctr.(tlsHits := 0)
    else if k == 2 then ctr.(sharedHits := 0)
    else if k == 3 then ctr.(allocations := 0)
    else if k == 4 then ctr.(puts := 0)
    else if k == 5 then ctr.(discards := 0)
    else ctr.(oversize := 0)
  }

  function UpkeepStep(cfg: Settings, th: Thread, sc: SharedClass, ctr: Totals, raw: Vec): Out
    requires Shaped(th)
    requires th.op.WarmLoop? || th.op.WarmCount? || th.op.Draining? || th.op.DrainStore? || th.op.Resetting?
  {
    match th.op
    case WarmLoop(p, c, rem) =>
      if rem == 0 then Plain(th.(op := Idle), sc, ctr)
      else if |sc.queue| < cfg.maxBuffers then
        Out(th.(op := WarmCount(p, c, rem - 1)), Enqueue(sc, raw), ctr, [], None, true)
      else Out(th.(op := Idle), sc, ctr, [raw], None, true)
    case WarmCount(p, c, rem) => Plain(th.(op := WarmLoop(p, c, rem)), CountUp(sc), ctr)
    case Draining(p, c, popped) =>
      if sc.queue == [] then Plain(th.(op := DrainStore(p, c, popped)), sc, ctr)
      else Out(th.(op := Draining(p, c, popped + 1)), Dequeue(sc), ctr, [sc.queue[0]], None, false)
    case DrainStore(p, c, _) =>
      Plain(th.(op := if c + 1 < NUM_CLASSES then Draining(p, c + 1, 0) else Idle), sc.(count := 0), ctr)
    case Resetting(p, k) =>
      Plain(th.(op := if k < 6 then Resetting(p, k + 1) else Idle), sc, ZeroCounter(ctr, k))
  }

  /** Load the counter a snapshot reads at its `k`-th load; the loads between the third and the twelfth read classes. */
  function LoadCounter(seen: Totals, k: nat, ctr: Totals): Totals {
    if k == 0 then seen.(gets := Load(ctr.gets))
    else if k == 1 then seen.(tlsHits := Load(ctr.tlsHits))
    else if k == 2 then seen.(sharedHits := Load(ctr.sharedHits))
    else if k == 11 then seen.(allocations := Load(ctr.allocations))
    else if k == 12 then seen.(puts := Load(ctr.puts))
    else if k == 13 then seen.(discards := Load(ctr.discards))
    else if k == 14 then seen.(oversize := Load(ctr.oversize))
    else seen
  }

  const SNAPSHOT_LOADS: nat := 15

  function SnapshotStep(th: Thread, sc: SharedClass, ctr: Totals): Out
    requires th.op.Snapshotting?
  {
    var op := th.op;
    Plain(th.(op := if op.k < SNAPSHOT_LOADS then
                      Snapshotting(op.pool, op.k + 1, LoadCounter(op.seen, op.k, ctr),
                                   if 3 <= op.k < 11 then op.counts + [sc.count] else op.counts)
                    else Idle),
          sc, ctr)
  }

  function Micro(cfg: Settings, th: Thread, sc: SharedClass, ctr: Totals, raw: Vec): Out
    requires Shaped(th) && !th.op.Idle?
  {
    if th.op.Start? || th.op.Oversize? || th.op.Hit? || th.op.Cold? then AllocStep(cfg, th, sc, ctr, raw)
    else if th.op.Return? then ReturnStep(cfg, th, sc, ctr)
    else if th.op.RefillPop? || th.op.RefillFirst? || th.op.RefillLoop? || th.op.RefillMore? then
      RefillStep(cfg, th, sc, ctr)
    else if th.op.Spill? || th.op.SpillCount? || th.op.Place? || th.op.OverflowCount? then
      SpillStep(cfg, th, sc, ctr)
    else if th.op.Snapshotting? then SnapshotStep(th, sc, ctr)
    else UpkeepStep(cfg, th, sc, ctr, raw)
  }

  // ── Steps of the whole system ───────────────────────────────────────

  datatype Action =
    | NewPool(cfg: Settings)
    | BeginAlloc(r: Req)
    | BeginDrop(h: nat)
    | BeginWarm(pool: nat, count: nat, size: usize)
    | BeginDrain(pool: nat)
    | BeginReset(pool: nat)
    | BeginSnapshot(pool: nat)
    | Exit
    // what a program does to a handle it holds
    | Overwrite(h: nat, cells: seq<Cell>)
    | Append(h: nat, data: seq<u8>, spare: seq<Cell>)
    | WriteFromSlice(h: nat, data: seq<u8>)
    | AssumeInit(h: nat)
    | IntoInner(h: nat)
    // the next step of the operation in progress; `raw` is what the allocator returns if asked
    | Go(raw: Vec)

  /** Thread `t` does `a`. */
  datatype Event = Event(t: nat, a: Action)

  predicate LiveHandle(s: State, h: nat) {
    h < |s.handles| && s.handles[h].slot.Live? && s.handles[h].slot.vec.Valid()
    && s.handles[h].pool < |s.pools|
    && (s.handles[h].hint < NUM_CLASSES || s.handles[h].hint == OVERSIZE_HINT)
  }

  /** What the allocator (or `Vec::with_capacity`) promises about a new buffer at this point of the operation. */
  ghost predicate Supplied(op: Op, created: nat, raw: Vec) {
    match op
    case Oversize(r) => NewFor(raw, created, r.pool) && Meets(raw, r.size, r.uninit)
    case Cold(r, c) => c < NUM_CLASSES && NewFor(raw, created, r.pool) && Meets(raw, Boundary(c), r.uninit)
    case WarmLoop(p, c, _) => c < NUM_CLASSES && NewFor(raw, created, p) && AllocatorContract(raw, Boundary(c))
    case _ => true
  }

  predicate NewFor(raw: Vec, created: nat, p: nat) {
    raw.Valid() && raw.id == created && raw.home == p
  }

  ghost predicate Meets(raw: Vec, n: nat, uninit: bool)
    requires raw.Valid()
  {
    if uninit then WithCapacity(raw, n) else AllocatorContract(raw, n)
  }

  ghost predicate CanGo(s: State, th: Thread, raw: Vec) {
    && !th.op.Idle? && Shaped(th)
    && PoolOf(th.op) < |s.pools| == |s.cfgs| && |s.pools[PoolOf(th.op)].classes| == NUM_CLASSES
    && Supplied(th.op, s.created, raw)
  }

  ghost predicate Enabled(s: State, e: Event) {
    e.t < |s.threads| &&
    var th := s.threads[e.t];
    match e.a
    case Go(raw) => CanGo(s, th, raw)
    case NewPool(cfg) => th.op.Idle? && Accepted(cfg) && |s.cfgs| + 1 < TWO64
    case BeginAlloc(r) => th.op.Idle? && r.pool < |s.pools| == |s.cfgs| && r.size <= ISIZE_MAX
    case BeginDrop(h) => th.op.Idle? && LiveHandle(s, h) && |s.pools| == |s.cfgs|
    case BeginWarm(p, _, _) => th.op.Idle? && p < |s.pools|
    case BeginDrain(p) => th.op.Idle? && p < |s.pools|
    case BeginReset(p) => th.op.Idle? && p < |s.pools|
    case BeginSnapshot(p) => th.op.Idle? && p < |s.pools|
    case Exit => th.op.Idle?
    case Overwrite(h, cells) =>
      th.op.Idle? && LiveHandle(s, h) && |cells| == s.handles[h].slot.vec.len
      && (!s.handles[h].uninit ==> AllInit(cells))
    case Append(h, data, spare) =>
      th.op.Idle? && LiveHandle(s, h) && !s.handles[h].uninit
      && s.handles[h].slot.vec.Append(data, spare).Capacity() <= ISIZE_MAX
    case WriteFromSlice(h, _) => th.op.Idle? && LiveHandle(s, h) && s.handles[h].uninit && |s.pools| == |s.cfgs|
    case AssumeInit(h) =>
      th.op.Idle? && LiveHandle(s, h) && s.handles[h].uninit && AllInit(s.handles[h].slot.vec.Visible())
    case IntoInner(h) => th.op.Idle? && LiveHandle(s, h) && !s.handles[h].uninit
  }

  /** Put the outcome of a step of thread `t` back into the state. */
  function Merge(s: State, t: nat, p: nat, c: nat, o: Out): State
    requires t < |s.threads| && p < |s.pools| && c < |s.pools[p].classes|
  {
    State(s.cfgs, s.pools[p := Pool(s.pools[p].classes[c := o.sc], o.ctr)], s.threads[t := o.th],
          if o.made.Some? then s.handles + [o.made.value] else s.handles,
          s.freed + o.freed, if o.called then s.created + 1 else s.created)
  }

  function SetOp(s: State, t: nat, op: Op): State
    requires t < |s.threads|
  {
    s.(threads := s.threads[t := s.threads[t].(op := op)])
  }

  function SetHandle(s: State, h: nat, handle: Handle): State
    requires h < |s.handles|
  {
    s.(handles := s.handles[h := handle])
  }

  function SetTotals(s: State, p: nat, ctr: Totals): State
    requires p < |s.pools|
  {
    s.(pools := s.pools[p := s.pools[p].(ctr := ctr)])
  }

  /** `drop` takes the vector out of the handle; `dealloc` counts it and clears it. */
  function Drop(s: State, t: nat, h: nat): State
    requires t < |s.threads| && LiveHandle(s, h) && |s.pools| == |s.cfgs|
  {
    var b := s.handles[h];
    var ctr := s.pools[b.pool].ctr;
    var s1 := SetHandle(s, h, b.(slot := Returned));
    var s2 := SetTotals(s1, b.pool, if s.cfgs[b.pool].track then ctr.(puts := ctr.puts + 1) else ctr);
    s2.(threads := s.threads[t := s.threads[t].(op := Return(b.pool, b.hint, b.slot.vec.Clear()), lost := 0)])
  }

  /** A handle after a program has worked on it in place. */
  function Worked(b: Handle, a: Action): Handle
    requires b.slot.Live? && b.slot.vec.Valid()
    requires a.Overwrite? || a.Append? || a.WriteFromSlice? || a.AssumeInit? || a.IntoInner?
    requires a.Overwrite? ==> |a.cells| == b.slot.vec.len
    requires a.WriteFromSlice? ==> |a.data| == b.slot.vec.len
  {
    match a
    case Overwrite(_, cells) => b.(slot := Live(b.slot.vec.Overwrite(cells)))
    case Append(_, data, spare) => b.(slot := Live(b.slot.vec.Append(data, spare)))
    case WriteFromSlice(_, data) => b.(slot := Live(b.slot.vec.Overwrite(Cells(data))), uninit := false)
    case AssumeInit(_) => b.(uninit := false)
    case IntoInner(_) => b.(slot := Extracted(b.slot.vec))
  }

  function Step(s: State, e: Event): State
    requires Enabled(s, e)
  {
    var th := s.threads[e.t];
    match e.a
    case Go(raw) =>
      var p := PoolOf(th.op);
      var c := ClassOf(th.op);
      Merge(s, e.t, p, c, Micro(s.cfgs[p], th, s.pools[p].classes[c], s.pools[p].ctr, raw))
    case NewPool(cfg) => s.(cfgs := s.cfgs + [cfg], pools := s.pools + [NEW_POOL])
    case BeginAlloc(r) =>
      var ctr := s.pools[r.pool].ctr;
      SetOp(SetTotals(s, r.pool, if s.cfgs[r.pool].track then ctr.(gets := ctr.gets + 1) else ctr), e.t, Start(r))
    case BeginDrop(h) => Drop(s, e.t, h)
    case BeginWarm(p, count, size) =>
      var r := RouteSize(size);
      SetOp(s, e.t, if r.None? then Idle else WarmLoop(p, r.value, count))
    case BeginDrain(p) => SetOp(s, e.t, Draining(p, 0, 0))
    case BeginReset(p) => SetOp(s, e.t, Resetting(p, 0))
    case BeginSnapshot(p) => SetOp(s, e.t, Snapshotting(p, 0, ZERO_TOTALS, []))
    case Exit => s.(threads := s.threads[e.t := NEW_THREAD], freed := s.freed + Flatten(th.tls.caches))
    case WriteFromSlice(h, data) =>
      // a length mismatch panics, and unwinding drops the handle
      if |data| != s.handles[h].slot.vec.len then Drop(s, e.t, h)
      else SetHandle(s, h, Worked(s.handles[h], e.a))
    case _ => SetHandle(s, e.a.h, Worked(s.handles[e.a.h], e.a))
  }

  /** A step of an operation in progress, taken apart. */
  lemma GoParts(s: State, e: Event)
    requires Enabled(s, e) && e.a.Go?
    ensures e.t < |s.threads| && !s.threads[e.t].op.Idle? && Shaped(s.threads[e.t])
    ensures var th := s.threads[e.t];
            var p, d := PoolOf(th.op), ClassOf(th.op);
            && p < |s.pools| == |s.cfgs| && d < |s.pools[p].classes|
            && Step(s, e) == Merge(s, e.t, p, d, Micro(s.cfgs[p], th, s.pools[p].classes[d], s.pools[p].ctr, e.a.raw))
  {
    hide Micro, Merge, Supplied;
  }

  // ── Runs ────────────────────────────────────────────────────────────

  ghost predicate ValidRun(s: State, es: seq<Event>)
    decreases |es|
  {
    es == [] || (Enabled(s, es[0]) && ValidRun(Step(s, es[0]), es[1..]))
  }

  ghost function After(s: State, es: seq<Event>): State
    requires ValidRun(s, es)
    decreases |es|
  {
    if es == [] then s else After(Step(s, es[0]), es[1..])
  }

  lemma {:induction false} RunSnoc(s: State, es: seq<Event>, e: Event)
    requires ValidRun(s, es) && Enabled(After(s, es), e)
    ensures ValidRun(s, es + [e]) && After(s, es + [e]) == Step(After(s, es), e)
    decreases |es|
  {
    hide Step, Enabled;
    if es == [] {
      assert [e][1..] == [] && [] + [e] == [e];
    } else {
      RunSnoc(Step(s, es[0]), es[1..], e);
      assert (es + [e])[1..] == es[1..] + [e];
    }
  }

  /** No event of the run begins to reset the counters of pool `p`. */
  predicate NeverReset(es: seq<Event>, p: nat) {
    forall k :: 0 <= k < |es| ==> es[k].a != BeginReset(p)
  }

  /** Some run of `n` threads ends in `s`. */
  ghost predicate Reachable(n: nat, s: State) {
    exists es :: ValidRun(Initial(n), es) && After(Initial(n), es) == s
  }

  lemma ReachableStep(n: nat, s: State, e: Event)
    requires Reachable(n, s) && Enabled(s, e)
    ensures Reachable(n, Step(s, e))
  {
    hide Step, Enabled;
    var es :| ValidRun(Initial(n), es) && After(Initial(n), es) == s;
    RunSnoc(Initial(n), es, e);
  }

  lemma ReachableInitial(n: nat)
    ensures Reachable(n, Initial(n))
  {
    assert ValidRun(Initial(n), []) && After(Initial(n), []) == Initial(n);
  }
}
