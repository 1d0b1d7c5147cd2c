/**
 A single thread working on one class of one pool: acquisitions and pooled returns in any
 order, without warming, draining, extracting or discarding. The pool never holds more
 buffers than were ever in use at once.
 */
module NoGrowth {
  import opened Sums
  import opened Memory
  import opened Routing
  import opened Config
  import opened Magazine

  /** The thread's caches, the shared class, the buffers in use, how many were allocated, and what was freed. */
  datatype World = World(tls: Tls, sc: SharedClass, live: seq<Vec>, made: nat, freed: seq<Vec>)

  /** Acquire a buffer (`raw` is what the allocator returns if asked), or give back the `k`-th in use. */
  datatype Act = Take(raw: Vec) | Give(k: nat)

  const START: World := World(UNBOUND, SharedClass([], 0), [], 0, [])

  predicate Can(w: World, a: Act) {
    |w.tls.caches| == NUM_CLASSES && (a.Give? ==> a.k < |w.live|)
  }

  function Do(cfg: Settings, id: nat, c: nat, w: World, a: Act): World
    requires c < NUM_CLASSES && Can(w, a)
  {
    match a
    case Take(raw) =>
      var q := Acquire(w.tls, w.sc, id, cfg, c);
      var v := if q.source.FromAllocator? then raw else q.source.vec;
      World(q.tls, q.sc, w.live + [v], if q.source.FromAllocator? then w.made + 1 else w.made, w.freed + q.freed)
    case Give(k) =>
      var g := GiveBack(w.tls, w.sc, id, cfg, c, w.live[k]);
      World(g.tls, g.sc, w.live[..k] + w.live[k + 1..], w.made, w.freed + g.lost + g.unbound)
  }

  ghost predicate CanAll(cfg: Settings, id: nat, c: nat, w: World, acts: seq<Act>)
    requires c < NUM_CLASSES
    decreases |acts|
  {
    acts == [] || (Can(w, acts[0]) && CanAll(cfg, id, c, Do(cfg, id, c, w, acts[0]), acts[1..]))
  }

  ghost function DoAll(cfg: Settings, id: nat, c: nat, w: World, acts: seq<Act>): World
    requires c < NUM_CLASSES && CanAll(cfg, id, c, w, acts)
    decreases |acts|
  {
    if acts == [] then w else DoAll(cfg, id, c, Do(cfg, id, c, w, acts[0]), acts[1..])
  }

  /** At no point of the run are more than `peak` buffers in use. */
  ghost predicate InUseAtMost(cfg: Settings, id: nat, c: nat, w: World, acts: seq<Act>, peak: nat)
    requires c < NUM_CLASSES && CanAll(cfg, id, c, w, acts)
    decreases |acts|
  {
    |w.live| <= peak && (acts == [] || InUseAtMost(cfg, id, c, Do(cfg, id, c, w, acts[0]), acts[1..], peak))
  }

  /** The thread's cache for the class, once it is bound. */
  function CacheIn(w: World, id: nat, c: nat): seq<Vec> {
    if w.tls.poolId == id && c < |w.tls.caches| then w.tls.caches[c] else []
  }

  /** Everything in existence: in use, cached, queued. */
  function Existing(w: World, id: nat, c: nat): nat {
    |w.live| + |CacheIn(w, id, c)| + |w.sc.queue|
  }

  ghost predicate Sane(cfg: Settings, id: nat, c: nat, w: World) {
    && |w.tls.caches| == NUM_CLASSES && |w.sc.queue| <= cfg.maxBuffers
    && (w.tls.poolId == id ==> w.tls.limit == cfg.limit)
    && (w.tls.poolId != id ==> w.tls == UNBOUND)
    && w.made == Existing(w, id, c) + |w.freed|
  }

  lemma NothingToUnbind(id: nat, limit: nat)
    requires id != 0
    ensures Attach(UNBOUND, id, limit) == Bound(Tls(id, EMPTY_CACHES, limit), [])
  {
    FlattenEmpty(EMPTY_CACHES);
  }

  lemma {:induction false} FlattenEmpty(xss: seq<seq<Vec>>)
    requires forall k :: 0 <= k < |xss| ==> xss[k] == []
    ensures Flatten(xss) == []
  {
    if xss == [] {
    } else {
      assert forall k :: 0 <= k < |xss[1..]| ==> xss[1..][k] == xss[k + 1];
      FlattenEmpty(xss[1..]);
    }
  }

  /** An acquisition creates a buffer only when nothing is cached or queued, and then everything is in use. */
  lemma TakeKeeps(cfg: Settings, id: nat, c: nat, w: World, raw: Vec)
    requires c < NUM_CLASSES && id != 0 && Sane(cfg, id, c, w)
    ensures var w' := Do(cfg, id, c, w, Take(raw));
            var k, q := |CacheIn(w, id, c)|, |w.sc.queue|;
            && Sane(cfg, id, c, w') && w'.freed == w.freed && |w'.live| == |w.live| + 1
            && (Existing(w', id, c) == Existing(w, id, c) || Existing(w', id, c) == |w'.live|)
            && |CacheIn(w', id, c)| == (if k > 0 then k - 1
                                        else if q == 0 || cfg.batch == 0 then 0 else Min(cfg.batch, q) - 1)
            && |w'.sc.queue| == (if k > 0 || q == 0 then q else q - Min(if cfg.batch == 0 then 1 else cfg.batch, q))
  {
    if w.tls.poolId != id { NothingToUnbind(id, cfg.limit); }
    var b := Attach(w.tls, id, cfg.limit);
    assert b.tls.caches[c] == CacheIn(w, id, c);
    RefillList(w.sc, b.tls.caches[c], cfg.batch);
    assert w.freed + [] == w.freed;
    hide Attach, RefillLoop, Refill;
  }

  /** What spilling moves and loses. */
  lemma SpillCounts(sc: SharedClass, cache: seq<Vec>, batch: nat, max: nat)
    requires |sc.queue| <= max
    ensures var r := Spill(sc, cache, batch, max);
            && |r.sc.queue| + |r.cache| + |r.freed| == |sc.queue| + |cache| && |r.sc.queue| <= max
            && (|sc.queue| + Min(batch, |cache|) <= max <==> r.freed == [])
            && (r.freed == [] ==> |r.cache| == |cache| - Min(batch, |cache|))
  {
    SpillList(sc, cache, batch, max);
  }

  lemma GiveKeeps(cfg: Settings, id: nat, c: nat, w: World, i: nat)
    requires c < NUM_CLASSES && id != 0 && Sane(cfg, id, c, w) && i < |w.live|
    ensures var w' := Do(cfg, id, c, w, Give(i));
            && Sane(cfg, id, c, w') && |w'.live| == |w.live| - 1
            && Existing(w', id, c) + |w'.freed| == Existing(w, id, c) + |w.freed| && |w.freed| <= |w'.freed|
  {
    GiveParts(cfg, id, c, w, i);
  }

  /** Where a returned buffer goes, in numbers, when the cache is within its limit and the batch is tame. */
  lemma GiveParts(cfg: Settings, id: nat, c: nat, w: World, i: nat)
    requires c < NUM_CLASSES && id != 0 && Sane(cfg, id, c, w) && i < |w.live|
    ensures var w' := Do(cfg, id, c, w, Give(i));
            var k, q, b := |CacheIn(w, id, c)|, |w.sc.queue|, Min(cfg.batch, cfg.limit);
            && Sane(cfg, id, c, w') && |w'.live| == |w.live| - 1
            && Existing(w', id, c) + |w'.freed| == Existing(w, id, c) + |w.freed| && |w.freed| <= |w'.freed|
            && (k < cfg.limit ==> |CacheIn(w', id, c)| == k + 1 && |w'.sc.queue| == q && w'.freed == w.freed)
            && (k == cfg.limit && Accepted(cfg) && Tame(cfg) ==>
                  if q + b <= cfg.maxBuffers then
                    |CacheIn(w', id, c)| == k - b + 1 && |w'.sc.queue| == q + b && w'.freed == w.freed
                  else w'.freed != [])
  {
    if w.tls.poolId != id { NothingToUnbind(id, cfg.limit); }
    var cache := Attach(w.tls, id, cfg.limit).tls.caches[c];
    assert cache == CacheIn(w, id, c);
    SpillCounts(w.sc, cache, cfg.batch, cfg.maxBuffers);
    assert w.freed + [] + [] == w.freed;
    hide Attach, Spill, CountUp;
  }

  lemma {:induction false} RunKeeps(cfg: Settings, id: nat, c: nat, w: World, acts: seq<Act>, peak: nat)
    requires c < NUM_CLASSES && id != 0 && Sane(cfg, id, c, w) && CanAll(cfg, id, c, w, acts)
    requires InUseAtMost(cfg, id, c, w, acts, peak) && Existing(w, id, c) <= peak
    ensures Sane(cfg, id, c, DoAll(cfg, id, c, w, acts)) && Existing(DoAll(cfg, id, c, w, acts), id, c) <= peak
    decreases |acts|
  {
    hide Do, Existing, Sane;
    if acts == [] {
    } else {
      KeepsBelow(cfg, id, c, w, acts, peak);
      RunKeeps(cfg, id, c, Do(cfg, id, c, w, acts[0]), acts[1..], peak);
    }
  }

  lemma KeepsBelow(cfg: Settings, id: nat, c: nat, w: World, acts: seq<Act>, peak: nat)
    requires c < NUM_CLASSES && id != 0 && Sane(cfg, id, c, w) && acts != [] && CanAll(cfg, id, c, w, acts)
    requires InUseAtMost(cfg, id, c, w, acts, peak) && Existing(w, id, c) <= peak
    ensures Sane(cfg, id, c, Do(cfg, id, c, w, acts[0])) && Existing(Do(cfg, id, c, w, acts[0]), id, c) <= peak
  {
    hide Do;
    if acts[0].Take? { TakeKeeps(cfg, id, c, w, acts[0].raw); } else { GiveKeeps(cfg, id, c, w, acts[0].k); }
  }

  lemma StartSane(cfg: Settings, id: nat, c: nat)
    requires id != 0
    ensures Sane(cfg, id, c, START) && Existing(START, id, c) == 0
  {
  }

  /** For every batch size: what is retained, in use or not, never exceeds the peak number in use. */
  lemma RetainedAtMostPeak(cfg: Settings, id: nat, c: nat, acts: seq<Act>, peak: nat)
    requires c < NUM_CLASSES && id != 0 && CanAll(cfg, id, c, START, acts)
    requires InUseAtMost(cfg, id, c, START, acts, peak)
    ensures var w := DoAll(cfg, id, c, START, acts);
            |w.live| + |CacheIn(w, id, c)| + |w.sc.queue| <= peak
  {
    StartSane(cfg, id, c);
    RunKeeps(cfg, id, c, START, acts, peak);
  }

  // ── The exact threshold ─────────────────────────────────────────────

  /** How many a spill of a full cache moves. */
  function Share(cfg: Settings): nat {
    Min(cfg.batch, cfg.limit)
  }

  /**
   Spills and refills move the same number of buffers, so the queue holds a multiple of it: always so
   with a batch within the limit, and with a batch of one more when the queue has no room for two spills.
   */
  predicate Even(cfg: Settings) {
    cfg.batch <= cfg.limit || cfg.maxBuffers < 2 * cfg.limit
  }

  /** The most buffers that can be in use at once without ever losing one. */
  function Threshold(cfg: Settings): nat
    requires Accepted(cfg) && Tame(cfg)
  {
    if Even(cfg) then cfg.limit + Share(cfg) * (cfg.maxBuffers / Share(cfg)) else cfg.maxBuffers + 1
  }

  lemma MulLess(b: nat, x: int, y: int)
    requires b > 0
    ensures b * x < b * y <==> x < y
  {
  }

  lemma DivUnique(a: nat, b: nat, j: nat)
    requires b > 0 && b * j <= a < b * (j + 1)
    ensures a / b == j
  {
    assert a == b * (a / b) + a % b;
    MulLess(b, j, a / b + 1);
    MulLess(b, a / b, j + 1);
  }

  lemma Multiple(b: nat, j: nat)
    requires b > 0
    ensures (b * j) % b == 0
  {
    DivUnique(b * j, b, j);
  }

  /** A queue of whole shares with no room for another holds as many as fit. */
  lemma FullQueue(q: nat, b: nat, max: nat)
    requires b > 0 && q % b == 0 && q <= max < q + b
    ensures q == b * (max / b)
  {
    assert q == b * (q / b);
    assert b * (q / b + 1) == b * (q / b) + b;
    DivUnique(max, b, q / b);
  }

  lemma WholeShares(q: nat, b: nat)
    requires b > 0 && q % b == 0
    ensures (q + b) % b == 0 && (q >= b ==> (q - b) % b == 0) && (0 < q ==> q >= b) && (q < 2 * b ==> q == 0 || q == b)
  {
    var j := q / b;
    assert q == b * j;
    Multiple(b, j + 1);
    assert b * (j + 1) == q + b;
    if q > 0 {
      MulLess(b, 0, j);
      Multiple(b, j - 1);
      assert b * (j - 1) == q - b;
    }
    MulLess(b, j, 2);
  }

  /** Nothing lost so far, the cache within its limit, and the queue in whole shares where it matters. */
  ghost predicate Tidy(cfg: Settings, id: nat, c: nat, w: World) {
    && Sane(cfg, id, c, w) && |CacheIn(w, id, c)| <= cfg.limit && w.freed == []
    && (Share(cfg) > 0 && Even(cfg) ==> |w.sc.queue| % Share(cfg) == 0)
  }

  lemma TakeTidy(cfg: Settings, id: nat, c: nat, w: World, raw: Vec)
    requires c < NUM_CLASSES && id != 0 && Tidy(cfg, id, c, w) && Accepted(cfg) && Tame(cfg)
    ensures Tidy(cfg, id, c, Do(cfg, id, c, w, Take(raw)))
  {
    hide Do;
    TakeKeeps(cfg, id, c, w, raw);
    if Even(cfg) { WholeShares(|w.sc.queue|, Share(cfg)); }
  }

  lemma GiveTidy(cfg: Settings, id: nat, c: nat, w: World, i: nat)
    requires c < NUM_CLASSES && id != 0 && Tidy(cfg, id, c, w) && Accepted(cfg) && Tame(cfg) && i < |w.live|
    requires Existing(w, id, c) <= Threshold(cfg)
    ensures Tidy(cfg, id, c, Do(cfg, id, c, w, Give(i)))
  {
    hide Do;
    GiveParts(cfg, id, c, w, i);
    if Even(cfg) {
      var q, b := |w.sc.queue|, Share(cfg);
      WholeShares(q, b);
      if q + b > cfg.maxBuffers { FullQueue(q, b, cfg.maxBuffers); }
    }
  }

  lemma {:induction false} RunTidy(cfg: Settings, id: nat, c: nat, w: World, acts: seq<Act>, peak: nat)
    requires c < NUM_CLASSES && id != 0 && Tidy(cfg, id, c, w) && CanAll(cfg, id, c, w, acts)
    requires Accepted(cfg) && Tame(cfg) && peak <= Threshold(cfg)
    requires InUseAtMost(cfg, id, c, w, acts, peak) && Existing(w, id, c) <= peak
    ensures Tidy(cfg, id, c, DoAll(cfg, id, c, w, acts)) && Existing(DoAll(cfg, id, c, w, acts), id, c) <= peak
    decreases |acts|
  {
    hide Do, Existing, Sane, CacheIn, Threshold, Share, Even;
    if acts == [] {
    } else {
      KeepsBelow(cfg, id, c, w, acts, peak);
      if acts[0].Take? { TakeTidy(cfg, id, c, w, acts[0].raw); } else { GiveTidy(cfg, id, c, w, acts[0].k); }
      RunTidy(cfg, id, c, Do(cfg, id, c, w, acts[0]), acts[1..], peak);
    }
  }

  /**
   With a tame batch, as long as no more buffers are in use at once than the threshold, no buffer is
   ever freed, and the allocator is called at most once per buffer of the peak.
   */
  lemma NoGrowthNoLoss(cfg: Settings, id: nat, c: nat, acts: seq<Act>, peak: nat)
    requires c < NUM_CLASSES && id != 0 && CanAll(cfg, id, c, START, acts)
    requires Accepted(cfg) && Tame(cfg) && peak <= Threshold(cfg)
    requires InUseAtMost(cfg, id, c, START, acts, peak)
    ensures var w := DoAll(cfg, id, c, START, acts);
            w.freed == [] && w.made <= peak
  {
    hide Threshold;
    StartSane(cfg, id, c);
    assert Tidy(cfg, id, c, START);
    RunTidy(cfg, id, c, START, acts, peak);
  }

  /** A cache, and what a spill always finds room for, is always within the threshold. */
  lemma ThresholdAtLeast(cfg: Settings)
    requires Accepted(cfg) && Tame(cfg)
    ensures cfg.limit + cfg.maxBuffers - Share(cfg) + 1 <= Threshold(cfg) <= cfg.limit + cfg.maxBuffers
  {
    var b, max := Share(cfg), cfg.maxBuffers;
    assert max == b * (max / b) + max % b;
  }

  // ── One more can always be lost ─────────────────────────────────────

  /** Some run from `w`, with at most `peak` in use at once, ends with a buffer freed. */
  ghost predicate CanLose(cfg: Settings, id: nat, c: nat, w: World, peak: nat)
    requires c < NUM_CLASSES
  {
    exists acts :: CanAll(cfg, id, c, w, acts) && InUseAtMost(cfg, id, c, w, acts, peak)
           && DoAll(cfg, id, c, w, acts).freed != []
  }

  lemma LoseBy(cfg: Settings, id: nat, c: nat, w: World, a: Act, peak: nat)
    requires c < NUM_CLASSES && Can(w, a) && |w.live| <= peak && CanLose(cfg, id, c, Do(cfg, id, c, w, a), peak)
    ensures CanLose(cfg, id, c, w, peak)
  {
    hide Do;
    var w' := Do(cfg, id, c, w, a);
    var acts :| CanAll(cfg, id, c, w', acts) && InUseAtMost(cfg, id, c, w', acts, peak)
        && DoAll(cfg, id, c, w', acts).freed != [];
    assert ([a] + acts)[1..] == acts;
    assert CanAll(cfg, id, c, w, [a] + acts) && InUseAtMost(cfg, id, c, w, [a] + acts, peak);
  }

  lemma LostNow(cfg: Settings, id: nat, c: nat, w: World, peak: nat)
    requires c < NUM_CLASSES && w.freed != [] && |w.live| <= peak
    ensures CanLose(cfg, id, c, w, peak)
  {
    assert CanAll(cfg, id, c, w, []) && InUseAtMost(cfg, id, c, w, [], peak) && DoAll(cfg, id, c, w, []).freed != [];
  }

  /** So many cached, queued and in use. */
  ghost predicate Numbers(cfg: Settings, id: nat, c: nat, w: World, k: nat, q: nat, live: nat) {
    Sane(cfg, id, c, w) && |CacheIn(w, id, c)| == k && |w.sc.queue| == q && |w.live| == live
  }

  lemma GiveNumbers(cfg: Settings, id: nat, c: nat, w: World, k: nat, q: nat, live: nat, peak: nat) returns (w': World)
    requires c < NUM_CLASSES && id != 0 && Accepted(cfg) && Tame(cfg)
    requires Numbers(cfg, id, c, w, k, q, live) && k <= cfg.limit && 0 < live <= peak
    ensures CanLose(cfg, id, c, w', peak) ==> CanLose(cfg, id, c, w, peak)
    ensures k < cfg.limit ==> Numbers(cfg, id, c, w', k + 1, q, live - 1)
    ensures k == cfg.limit && q + Share(cfg) <= cfg.maxBuffers
            ==> Numbers(cfg, id, c, w', k - Share(cfg) + 1, q + Share(cfg), live - 1)
    ensures k == cfg.limit && q + Share(cfg) > cfg.maxBuffers ==> CanLose(cfg, id, c, w, peak)
  {
    hide Do, CanLose;
    w' := Do(cfg, id, c, w, Give(0));
    GiveParts(cfg, id, c, w, 0);
    if k == cfg.limit && q + Share(cfg) > cfg.maxBuffers { LostNow(cfg, id, c, w', peak); }
    if CanLose(cfg, id, c, w', peak) { LoseBy(cfg, id, c, w, Give(0), peak); }
  }

  lemma TakeNumbers(cfg: Settings, id: nat, c: nat, w: World, k: nat, q: nat, live: nat, peak: nat) returns (w': World)
    requires c < NUM_CLASSES && id != 0 && Accepted(cfg) && Tame(cfg)
    requires Numbers(cfg, id, c, w, k, q, live) && live <= peak
    ensures CanLose(cfg, id, c, w', peak) ==> CanLose(cfg, id, c, w, peak)
    ensures k > 0 ==> Numbers(cfg, id, c, w', k - 1, q, live + 1)
    ensures k == 0 && q == 0 ==> Numbers(cfg, id, c, w', 0, 0, live + 1)
    ensures k == 0 && q > 0 ==> Numbers(cfg, id, c, w', Min(cfg.batch, q) - 1, q - Min(cfg.batch, q), live + 1)
  {
    hide Do, CanLose;
    var raw := Vec(0, 0, [], 0);
    w' := Do(cfg, id, c, w, Take(raw));
    TakeKeeps(cfg, id, c, w, raw);
    if CanLose(cfg, id, c, w', peak) { LoseBy(cfg, id, c, w, Take(raw), peak); }
  }

  /** In the even case, give back everything: one more than the threshold does not fit. */
  lemma {:induction false} GivesLose(cfg: Settings, id: nat, c: nat, w: World, k: nat, q: nat, live: nat, peak: nat)
    requires c < NUM_CLASSES && id != 0 && Accepted(cfg) && Tame(cfg) && Even(cfg)
    requires Numbers(cfg, id, c, w, k, q, live) && k <= cfg.limit && q <= cfg.maxBuffers && q % Share(cfg) == 0
    requires k + q + live == Threshold(cfg) + 1 && live <= peak
    ensures CanLose(cfg, id, c, w, peak)
    decreases live
  {
    hide CanLose, Numbers;
    var b := Share(cfg);
    WholeShares(q, b);
    if live == 0 { SharesFit(q, b, cfg.maxBuffers); }
    var w' := GiveNumbers(cfg, id, c, w, k, q, live, peak);
    if k < cfg.limit {
      GivesLose(cfg, id, c, w', k + 1, q, live - 1, peak);
    } else if q + b <= cfg.maxBuffers {
      GivesLose(cfg, id, c, w', k - b + 1, q + b, live - 1, peak);
    }
  }

  lemma SharesFit(q: nat, b: nat, max: nat)
    requires b > 0 && q % b == 0 && q <= max
    ensures q <= b * (max / b)
  {
    assert q == b * (q / b);
    assert max == b * (max / b) + max % b;
    MulLess(b, q / b, max / b + 1);
    MulLess(b, max / b, q / b);
  }

  // The other case: a batch of one more than the limit, and room in the queue for two spills. A refill
  // then takes one more than a spill brings, so the queue can be brought to any length.

  /** Give back until the cache is full. */
  lemma {:induction false} FillsUp(cfg: Settings, id: nat, c: nat, w: World, k: nat, q: nat, peak: nat)
    requires c < NUM_CLASSES && id != 0 && Accepted(cfg) && Tame(cfg) && !Even(cfg) && cfg.maxBuffers + 2 <= peak
    requires k <= cfg.limit && q <= cfg.maxBuffers - cfg.limit + 1
    requires Numbers(cfg, id, c, w, k, q, cfg.maxBuffers + 2 - k - q)
    ensures CanLose(cfg, id, c, w, peak)
    decreases Distance(cfg, q), 1, cfg.limit - k
  {
    hide CanLose, Numbers;
    if k == cfg.limit {
      FullLoses(cfg, id, c, w, q, peak);
    } else {
      var w' := GiveNumbers(cfg, id, c, w, k, q, cfg.maxBuffers + 2 - k - q, peak);
      FillsUp(cfg, id, c, w', k + 1, q, peak);
    }
  }

  /** How many turns are left until the queue has one buffer too many for another spill. */
  function Distance(cfg: Settings, q: nat): nat
    requires Accepted(cfg) && !Even(cfg)
  {
    var last := cfg.maxBuffers - 2 * cfg.limit + 1;
    if q == last + cfg.limit then 0 else if q >= last then 1 + (q - last) else cfg.maxBuffers + 1 + (last - q)
  }

  /** Bring the queue to the length at which a spill no longer fits: up by a spill, down by one. */
  lemma {:induction false} FullLoses(cfg: Settings, id: nat, c: nat, w: World, q: nat, peak: nat)
    requires c < NUM_CLASSES && id != 0 && Accepted(cfg) && Tame(cfg) && !Even(cfg) && cfg.maxBuffers + 2 <= peak
    requires q <= cfg.maxBuffers - cfg.limit + 1
    requires Numbers(cfg, id, c, w, cfg.limit, q, cfg.maxBuffers + 2 - cfg.limit - q)
    ensures CanLose(cfg, id, c, w, peak)
    decreases Distance(cfg, q), 0, 0
  {
    hide CanLose, Numbers;
    var limit, max := cfg.limit, cfg.maxBuffers;
    var w1 := GiveNumbers(cfg, id, c, w, limit, q, max + 2 - limit - q, peak);
    if q <= max - 2 * limit + 1 {
      FillsUp(cfg, id, c, w1, 1, q + limit, peak);
    } else if q <= max - limit {
      var w2 := TakeNumbers(cfg, id, c, w1, 1, q + limit, max + 1 - limit - q, peak);
      var w3 := TakeNumbers(cfg, id, c, w2, 0, q + limit, max + 2 - limit - q, peak);
      FullLoses(cfg, id, c, w3, q - 1, peak);
    }
  }

  /** Take until the threshold is passed, then give back. */
  lemma {:induction false} TakesLose(cfg: Settings, id: nat, c: nat, w: World, live: nat, peak: nat)
    requires c < NUM_CLASSES && id != 0 && Accepted(cfg) && Tame(cfg) && Threshold(cfg) < peak
    requires Numbers(cfg, id, c, w, 0, 0, live) && live <= Threshold(cfg) + 1
    ensures CanLose(cfg, id, c, w, peak)
    decreases Threshold(cfg) + 1 - live
  {
    hide CanLose, Numbers;
    if live <= Threshold(cfg) {
      var w' := TakeNumbers(cfg, id, c, w, 0, 0, live, peak);
      TakesLose(cfg, id, c, w', live + 1, peak);
    } else if Even(cfg) {
      GivesLose(cfg, id, c, w, 0, 0, live, peak);
    } else {
      FillsUp(cfg, id, c, w, 0, 0, peak);
    }
  }

  /**
   For every tame configuration: some run loses a buffer if and only if more can be in use at once than the
   threshold.
   */
  lemma LossThreshold(cfg: Settings, id: nat, c: nat, peak: nat)
    requires c < NUM_CLASSES && id != 0 && Accepted(cfg) && Tame(cfg)
    ensures CanLose(cfg, id, c, START, peak) <==> peak > Threshold(cfg)
  {
    hide Threshold;
    if peak > Threshold(cfg) {
      StartSane(cfg, id, c);
      TakesLose(cfg, id, c, START, 0, peak);
    } else if CanLose(cfg, id, c, START, peak) {
      var acts :| CanAll(cfg, id, c, START, acts) && InUseAtMost(cfg, id, c, START, acts, peak)
                  && DoAll(cfg, id, c, START, acts).freed != [];
      NoGrowthNoLoss(cfg, id, c, acts, peak);
    }
  }
}
