/** One thread's caches: bound to one pool at a time, refilled from and spilled to the shared classes in batches. */
module TlsStates {
  import opened Options
  import opened Sums
  import opened Memory
  import opened Routing
  import opened Magazine
  import opened SizeClasses

  class TlsState {
    var poolId: nat
    var caches: seq<seq<Vec>>
    var limit: nat

    ghost predicate Valid()
      reads this
    {
      |caches| == NUM_CLASSES
    }

    /** The caches as a value. */
    ghost function State(): Tls
      reads this
    {
      Tls(poolId, caches, limit)
    }

    constructor ()
      ensures Valid() && State() == UNBOUND
    {
      poolId := 0;
      caches := [[], [], [], [], [], [], [], []];
      limit := 0;
    }

    predicate Owns(id: nat)
      reads this
    {
      poolId == id
    }

    /** Rebinding to another pool clears every cache. */
    method BindTo(id: nat, limit: nat) returns (ghost freed: seq<Vec>)
      requires Valid()
      modifies this
      ensures Valid()
      ensures State() == Bind(old(State()), id, limit).tls && freed == Bind(old(State()), id, limit).freed
    {
      freed := [];
      if poolId != id {
        ghost var all := caches;
        assert all[..0] == [];
        for i := 0 to NUM_CLASSES
          invariant |caches| == NUM_CLASSES
          invariant forall j :: 0 <= j < i ==> caches[j] == []
          invariant forall j :: i <= j < NUM_CLASSES ==> caches[j] == all[j]
          invariant freed == Flatten(all[..i])
        {
          FlattenPush(all[..i], caches[i]);
          assert all[..i + 1] == all[..i] + [caches[i]];
          freed := freed + caches[i];
          caches := caches[i := []];
        }
        assert all[..NUM_CLASSES] == all && caches == EMPTY_CACHES;
      }
      this.poolId := id;
      this.limit := limit;
    }

    /** Pop the most recent buffer of a cache. */
    method PopCache(c: nat) returns (v: Vec)
      requires Valid() && c < NUM_CLASSES && caches[c] != []
      modifies this`caches
      ensures Valid() && v == old(caches[c])[|old(caches[c])| - 1]
      ensures caches == old(caches)[c := old(caches[c])[..|old(caches[c])| - 1]]
    {
      v := caches[c][|caches[c]| - 1];
      caches := caches[c := caches[c][..|caches[c]| - 1]];
    }

    method PushCache(c: nat, v: Vec)
      requires Valid() && c < NUM_CLASSES
      modifies this`caches
      ensures Valid() && caches == old(caches)[c := old(caches[c]) + [v]]
    {
      caches := caches[c := caches[c] + [v]];
    }

    /** Pop one buffer to return and move up to `batch - 1` more into the cache. */
    method RefillFrom(c: nat, cls: SizeClass, batch: nat) returns (first: Option<Vec>)
      requires Valid() && cls.Valid() && c < NUM_CLASSES
      modifies this`caches, cls
      ensures Valid() && cls.Valid()
      ensures var r := Refill(old(cls.State()), old(caches[c]), batch);
              && first == r.first && cls.State() == r.sc && caches == old(caches)[c := r.cache]
    {
      hide Wrap, CountDown;
      first := cls.Pop();
      if first.None? {
        assert caches[c := caches[c]] == caches;
        return;
      }
      var remaining := if batch == 0 then 0 else batch - 1;
      ghost var goal := RefillLoop(cls.State(), caches[c], remaining);
      assert old(caches)[c := caches[c]] == caches;
      var i := 0;
      while i < remaining
        invariant 0 <= i <= remaining && Valid() && cls.Valid()
        invariant caches == old(caches)[c := caches[c]]
        invariant RefillLoop(cls.State(), caches[c], remaining - i) == goal
      {
        ghost var sc, cache := cls.State(), caches[c];
        var more := cls.Pop();
        if more.None? { break; }
        PushCache(c, more.value);
        assert RefillLoop(sc, cache, remaining - i) == RefillLoop(cls.State(), caches[c], remaining - i - 1);
        i := i + 1;
      }
    }

    /** Move up to `batch` buffers from the top of the cache to the queue; stop at the first that does not fit. */
    method SpillTo(c: nat, cls: SizeClass, batch: nat) returns (ghost freed: seq<Vec>)
      requires Valid() && cls.Valid() && c < NUM_CLASSES
      modifies this`caches, cls
      ensures Valid() && cls.Valid()
      ensures var r := Spill(old(cls.State()), old(caches[c]), batch, cls.capacity);
              && cls.State() == r.sc && caches == old(caches)[c := r.cache] && freed == r.freed
    {
      hide Wrap, CountUp;
      freed := [];
      ghost var goal := Spill(cls.State(), caches[c], batch, cls.capacity);
      assert old(caches)[c := caches[c]] == caches;
      var i := 0;
      while i < batch
        invariant 0 <= i <= batch && Valid() && cls.Valid() && freed == []
        invariant caches == old(caches)[c := caches[c]]
        invariant Spill(cls.State(), caches[c], batch - i, cls.capacity) == goal
      {
        if caches[c] == [] { break; }
        ghost var sc, cache := cls.State(), caches[c];
        var buf := PopCache(c);
        var r := cls.Push(buf);
        if r.Err? {
          freed := [buf];
          break;
        }
        assert Spill(sc, cache, batch - i, cls.capacity) == Spill(cls.State(), caches[c], batch - i - 1, cls.capacity);
        i := i + 1;
      }
    }
  }
}
