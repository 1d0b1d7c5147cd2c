/**
 A snapshot reads one counter at a time: fifteen loads, with other threads free to move between
 them. Undisturbed, it reports every counter as it stands.
 */
module Snapshots {
  import opened Memory
  import opened Routing
  import opened Stats
  import opened Machine
  import opened Invariant
  import opened Safety
  import opened Refinement

  /** A load changes nothing but what the snapshot has seen. */
  lemma LoadShape(s: State, raw: Vec, s': State, t: nat, p: nat, k: nat)
    requires Enabled(s, Event(t, Go(raw))) && s' == Step(s, Event(t, Go(raw))) && k < SNAPSHOT_LOADS
    requires t < |s.threads| && s.threads[t].op.Snapshotting? && s.threads[t].op.pool == p && s.threads[t].op.k == k
    ensures p < |s.pools| && |s.pools[p].classes| == NUM_CLASSES && s'.pools == s.pools && s'.cfgs == s.cfgs
    ensures var op := s.threads[t].op;
            s'.threads == s.threads[t := s.threads[t].(op := Snapshotting(p, k + 1,
                  LoadCounter(op.seen, k, s.pools[p].ctr),
                                      if 3 <= k < 11 then op.counts + [s.pools[p].classes[k - 3].count]
                                          else op.counts))]
    ensures s'.handles == s.handles && s'.freed == s.freed && s'.created == s.created
  {
    hide Supplied, LoadCounter, RouteSize, AllocStep, RefillStep, ReturnStep, SpillStep, UpkeepStep;
    var c := ClassOf(s.threads[t].op);
    assert s.pools[p].classes[c := s.pools[p].classes[c]] == s.pools[p].classes;
    assert s.freed + [] == s.freed;
  }

  /** The first `k` loads have read the counters of `pool` as they stand. */
  predicate Saw(pool: Pool, k: nat, seen: Totals, counts: seq<nat>) {
    && (k > 0 ==> seen.gets == Load(pool.ctr.gets)) && (k > 1 ==> seen.tlsHits == Load(pool.ctr.tlsHits))
    && (k > 2 ==> seen.sharedHits == Load(pool.ctr.sharedHits))
    && (k > 11 ==> seen.allocations == Load(pool.ctr.allocations))
    && (k > 12 ==> seen.puts == Load(pool.ctr.puts)) && (k > 13 ==> seen.discards == Load(pool.ctr.discards))
    && (k > 14 ==> seen.oversize == Load(pool.ctr.oversize))
    && |counts| == (if k <= 3 then 0 else if k <= 11 then k - 3 else 8) && |pool.classes| == NUM_CLASSES
    && forall i :: 0 <= i < |counts| ==> counts[i] == pool.classes[i].count
  }

  lemma LoadSaw(pool: Pool, k: nat, seen: Totals, counts: seq<nat>)
    requires k < SNAPSHOT_LOADS && Saw(pool, k, seen, counts)
    ensures Saw(pool, k + 1, LoadCounter(seen, k, pool.ctr),
                if 3 <= k < 11 then counts + [pool.classes[k - 3].count] else counts)
  {
    hide Load;
  }

  lemma CanLoad(s: State, t: nat, raw: Vec)
    requires Inv(ANY, s) && t < |s.threads| && s.threads[t].op.Snapshotting?
    ensures Enabled(s, Event(t, Go(raw)))
  {
    hide Micro, RouteSize;
    assert ThreadOk(ANY, s.cfgs, s.threads[t]);
    assert PoolOk(ANY, s.cfgs[s.threads[t].op.pool], s.threads[t].op.pool, s.pools[s.threads[t].op.pool]);
  }

  /**
   From its first load on, a snapshot that runs alone sees every counter and every class as it stands, and
   changes nothing.
   */
  lemma {:induction false} SnapshotAlone(s: State, t: nat, p: nat, raw: Vec, k: nat)
    requires Inv(ANY, s) && t < |s.threads| && k <= SNAPSHOT_LOADS && p < |s.pools|
    requires s.threads[t].op.Snapshotting? && s.threads[t].op.pool == p && s.threads[t].op.k == k
    requires Saw(s.pools[p], k, s.threads[t].op.seen, s.threads[t].op.counts)
    ensures ValidRun(s, Gos(t, raw, SNAPSHOT_LOADS - k))
    ensures var s' := After(s, Gos(t, raw, SNAPSHOT_LOADS - k));
            && s'.pools == s.pools && t < |s'.threads| && s'.threads[t].op.Snapshotting?
            && s'.threads[t].op.k == SNAPSHOT_LOADS
            && Saw(s.pools[p], SNAPSHOT_LOADS, s'.threads[t].op.seen, s'.threads[t].op.counts)
            && s'.threads == s.threads[t := s.threads[t].(op := s'.threads[t].op)]
            && s'.handles == s.handles && s'.freed == s.freed
    decreases SNAPSHOT_LOADS - k
  {
    hide Step, Enabled, Saw, LoadCounter, Inv;
    if k < SNAPSHOT_LOADS {
      var e := Event(t, Go(raw));
      CanLoad(s, t, raw);
      var s1 := Step(s, e);
      StepKeepsInv(ANY, s, e);
      LoadShape(s, raw, s1, t, p, k);
      LoadSaw(s.pools[p], k, s.threads[t].op.seen, s.threads[t].op.counts);
      SnapshotAlone(s1, t, p, raw, k + 1);
    }
  }
}
