/** The statistics counters as an object, and the snapshot that reads them. */
module CounterObjects {
  import opened Routing
  import opened Magazine
  import opened Stats
  import opened SizeClasses

  class Counters {
    var gets: nat
    var tlsHits: nat
    var sharedHits: nat
    var allocations: nat
    var puts: nat
    var discards: nat
    var oversize: nat

    ghost function State(): Totals
      reads this
    {
      Totals(gets, tlsHits, sharedHits, allocations, puts, discards, oversize)
    }

    constructor ()
      ensures State() == ZERO_TOTALS
    {
      gets, tlsHits, sharedHits, allocations := 0, 0, 0, 0;
      puts, discards, oversize := 0, 0, 0;
    }

    /** An allocation has begun. */
    method CountGet(track: bool)
      modifies this
      ensures State() == (if track then old(State()).(gets := old(gets) + 1) else old(State()))
    {
      if track { gets := gets + 1; }
    }

    /** It was oversize, and allocated. */
    method CountOversize(track: bool)
      modifies this
      ensures State()
              == (if track then old(State()).(oversize := old(oversize) + 1, allocations := old(allocations) + 1)
                          else old(State()))
    {
      if track {
        oversize := oversize + 1;
        allocations := allocations + 1;
      }
    }

    /** It was served from here. */
    method CountServed(track: bool, src: Source)
      modifies this
      ensures State() == Served(old(State()), track, src)
    {
      if track {
        if src.FromTls? { tlsHits := tlsHits + 1; }
        else if src.FromShared? { sharedHits := sharedHits + 1; }
        else { allocations := allocations + 1; }
      }
    }

    /** A buffer has come back, and was discarded or not. */
    method CountPut(track: bool, discarded: bool)
      modifies this
      ensures State() == PutTotals(old(State()), track, discarded)
    {
      if track {
        puts := puts + 1;
        if discarded { discards := discards + 1; }
      }
    }

    method Reset()
      modifies this
      ensures State() == ZERO_TOTALS
    {
      gets, tlsHits, sharedHits, allocations := 0, 0, 0, 0;
      puts, discards, oversize := 0, 0, 0;
    }
  }

  function Served(t: Totals, track: bool, src: Source): Totals {
    if !track then t
    else if src.FromTls? then t.(tlsHits := t.tlsHits + 1)
    else if src.FromShared? then t.(sharedHits := t.sharedHits + 1)
    else t.(allocations := t.allocations + 1)
  }

  function PutTotals(t: Totals, track: bool, discarded: bool): Totals {
    if !track then t
    else if discarded then t.(puts := t.puts + 1, discards := t.discards + 1)
    else t.(puts := t.puts + 1)
  }

  datatype ClassInfo = ClassInfo(boundary: nat, buffered: nat)

  datatype Snapshot = Snapshot(gets: nat, tlsHits: nat, sharedHits: nat, allocations: nat, puts: nat, discards: nat,
                               oversize: nat, tlsHitRate: real, hitRate: real, classes: seq<ClassInfo>)

  /** One observation of all counters and of every class's counter. */
  method TakeSnapshot(counters: Counters, table: ClassTable) returns (s: Snapshot)
    requires table.Valid()
    ensures var t := counters.State();
            && s.gets == Load(t.gets) && s.tlsHits == Load(t.tlsHits) && s.sharedHits == Load(t.sharedHits)
            && s.allocations == Load(t.allocations) && s.puts == Load(t.puts)
            && s.discards == Load(t.discards) && s.oversize == Load(t.oversize)
            && s.tlsHitRate == TlsHitRate(t) && s.hitRate == HitRate(t)
            && (s.gets == 0 ==> s.tlsHitRate == 0.0 == s.hitRate)
            && (s.gets > 0 ==> s.tlsHitRate * s.gets as real == s.tlsHits as real)
            && (s.gets > 0 ==> s.hitRate * s.gets as real == Load(s.tlsHits + s.sharedHits) as real)
    ensures |s.classes| == NUM_CLASSES
    ensures forall i :: 0 <= i < NUM_CLASSES ==> s.classes[i] == ClassInfo(Boundary(i), table.classes[i].count)
  {
    RatesAre(counters.State());
    var gets, tlsHits, sharedHits := Load(counters.gets), Load(counters.tlsHits), Load(counters.sharedHits);
    var tlsHitRate := if gets == 0 then 0.0 else tlsHits as real / gets as real;
    var hitRate := if gets == 0 then 0.0 else Load(tlsHits + sharedHits) as real / gets as real;
    var info := new ClassInfo[NUM_CLASSES](_ => ClassInfo(0, 0));
    var i := 0;
    while i < |table.classes|
      invariant 0 <= i <= |table.classes|
      invariant forall j :: 0 <= j < i ==> info[j] == ClassInfo(Boundary(j), table.classes[j].count)
    {
      var buffered := table.classes[i].Len();
      info[i] := ClassInfo(table.classes[i].classSize, buffered);
      i := i + 1;
    }
    s := Snapshot(gets, tlsHits, sharedHits, Load(counters.allocations), Load(counters.puts), Load(counters.discards),
                  Load(counters.oversize), tlsHitRate, hitRate, info[..]);
  }
}
