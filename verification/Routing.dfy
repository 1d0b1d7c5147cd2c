/**
 Size-class routing. The code computes a class from a bit count; the reference
 definitions here search the table of boundaries, and the two are shown equal
 for every 64-bit input.
 */
module Routing {
  import opened Options

  const TWO64: nat := 0x1_0000_0000_0000_0000
  const NUM_CLASSES: nat := 8
  const OVERSIZE_HINT: nat := 255
  const MIN_CLASS_BITS: nat := 12
  const BITS_PER_STEP: nat := 2
  const CLASS_SIZES: seq<nat> :=
    [4096, 16384, 65536, 262144, 1048576, 4194304, 16777216, 67108864]

  type usize = x: int | 0 <= x < TWO64

  /** Boundary size for a class index: a table lookup, as in the code. */
  function Boundary(i: nat): (b: nat)
    requires i < NUM_CLASSES
    ensures 4096 <= b <= 67108864
  {
    CLASS_SIZES[i]
  }

  // ── Bit counts ──────────────────────────────────────────────────────

  function Pow2(k: nat): (p: nat)
    ensures p >= 1
  {
    if k == 0 then 1 else 2 * Pow2(k - 1)
  }

  /** Number of leading zero bits of `n` in a word of `width` bits, scanned from the top bit. */
  function LeadingZeros(n: nat, width: nat): (z: nat)
    ensures z <= width
  {
    if width == 0 then 0
    else if n >= Pow2(width - 1) then 0
    else 1 + LeadingZeros(n, width - 1)
  }

  /** Bits needed to write `n`, by repeated halving. */
  function BitLength(n: nat): nat {
    if n == 0 then 0 else 1 + BitLength(n / 2)
  }

  lemma {:induction false} BitLengthBound(n: nat, k: nat)
    ensures BitLength(n) <= k <==> n < Pow2(k)
  {
    if n == 0 {
    } else if k == 0 {
    } else {
      BitLengthBound(n / 2, k - 1);
    }
  }

  /** `usize::BITS - x.leading_zeros()` is the bit length of `x`. */
  lemma {:induction false} LeadingZerosIsBitLength(n: nat, width: nat)
    requires n < Pow2(width)
    ensures width - LeadingZeros(n, width) == BitLength(n)
  {
    if width == 0 {
    } else if n >= Pow2(width - 1) {
      BitLengthBound(n, width);
      BitLengthBound(n, width - 1);
    } else {
      LeadingZerosIsBitLength(n, width - 1);
    }
  }

  lemma {:induction false} Pow2Values(k: nat)
    ensures Pow2(k + 12) == 4096 * Pow2(k)
    ensures Pow2(k + 2) == 4 * Pow2(k)
  {
    assert Pow2(k + 2) == 2 * Pow2(k + 1);
    assert Pow2(k + 4) == 2 * Pow2(k + 3) == 4 * Pow2(k + 2);
    assert Pow2(k + 6) == 2 * Pow2(k + 5) == 4 * Pow2(k + 4);
    assert Pow2(k + 8) == 2 * Pow2(k + 7) == 4 * Pow2(k + 6);
    assert Pow2(k + 10) == 2 * Pow2(k + 9) == 4 * Pow2(k + 8);
    assert Pow2(k + 12) == 2 * Pow2(k + 11) == 4 * Pow2(k + 10);
  }

  function Pow4(i: nat): nat {
    if i == 0 then 1 else 4 * Pow4(i - 1)
  }

  lemma {:induction false} Pow2IsPow4(i: nat)
    ensures Pow2(12 + 2 * i) == 4096 * Pow4(i)
  {
    if i == 0 {
      Pow2Values(0);
    } else {
      Pow2IsPow4(i - 1);
      Pow2Values(12 + 2 * (i - 1));
    }
  }

  /** The table holds exactly the powers 4096 * 4^i. */
  lemma BoundaryIsPower(i: nat)
    requires i < NUM_CLASSES
    ensures Boundary(i) == 4096 * Pow4(i) == Pow2(MIN_CLASS_BITS + BITS_PER_STEP * i)
  {
    Pow2IsPow4(i);
    assert Pow4(1) == 4 && Pow4(2) == 16 && Pow4(3) == 64;
    assert Pow4(4) == 256 && Pow4(5) == 1024;
    assert Pow4(6) == 4096 && Pow4(7) == 16384;
  }

  lemma {:induction false} BoundaryMonotone(i: nat, j: nat)
    requires i <= j < NUM_CLASSES
    ensures Boundary(i) <= Boundary(j)
    ensures i < j ==> 4 * Boundary(i) <= Boundary(j)
  {
  }

  lemma WordIsPow2()
    ensures Pow2(64) == TWO64
  {
    Pow2IsPow4(26);
    assert Pow4(8) == 65536 by {
      assert Pow4(4) == 256;
      assert Pow4(6) == 4096;
    }
    assert Pow4(12) == 16777216 by { assert Pow4(10) == 1048576; }
    assert Pow4(18) == 68719476736 by { assert Pow4(14) == 268435456; assert Pow4(16) == 4294967296; }
    assert Pow4(26) == 4503599627370496 by {
      assert Pow4(20) == 1099511627776;
      assert Pow4(22) == 17592186044416;
      assert Pow4(24) == 281474976710656;
    }
  }

  // ── The code's routing functions ────────────────────────────────────

  /** `usize::BITS - x.leading_zeros()` */
  function Bits(x: usize): nat {
    64 - LeadingZeros(x, 64)
  }

  /** Smallest class whose boundary covers `size`, from the bit count of `size - 1`. */
  function RouteSize(size: usize): (r: Option<nat>)
    ensures r == FirstFit(size, 0)
  {
    RouteSizeIsFirstFit(size);
    RouteSizeFast(size)
  }

  function RouteSizeFast(size: usize): Option<nat> {
    if size == 0 then Some(0)
    else
      var bits := Bits(size - 1);
      if bits <= MIN_CLASS_BITS then Some(0)
      else
        var idx := (bits - MIN_CLASS_BITS + BITS_PER_STEP - 1) / BITS_PER_STEP;
        if idx < NUM_CLASSES then Some(idx) else None
  }

  /** Largest class whose boundary `capacity` reaches, from the bit count of `capacity`. */
  function RouteCapacityFast(capacity: usize): Option<nat> {
    if capacity < CLASS_SIZES[0] then None
    else
      BitsBound(capacity, 0);  // the subtraction below does not underflow
      var bits := Bits(capacity);
      var idx := (bits - 1 - MIN_CLASS_BITS) / BITS_PER_STEP;
      Some(if idx < NUM_CLASSES - 1 then idx else NUM_CLASSES - 1)
  }

  function RouteCapacity(capacity: usize): (r: Option<nat>)
    ensures r == LastFit(capacity, NUM_CLASSES)
  {
    RouteCapacityIsLastFit(capacity);
    RouteCapacityFast(capacity)
  }

  // ── Reference definitions: table search ─────────────────────────────

  /** First class at or above `from` whose boundary is at least `size`. */
  function FirstFit(size: nat, from: nat): (r: Option<nat>)
    requires from <= NUM_CLASSES
    ensures r.Some? ==> from <= r.value < NUM_CLASSES && size <= Boundary(r.value)
    ensures r.Some? ==> forall j :: from <= j < r.value ==> Boundary(j) < size
    ensures r.None? ==> forall j :: from <= j < NUM_CLASSES ==> Boundary(j) < size
    decreases NUM_CLASSES - from
  {
    if from == NUM_CLASSES then None
    else if size <= Boundary(from) then Some(from)
    else FirstFit(size, from + 1)
  }

  /** Last class below `upto` whose boundary is at most `capacity`. */
  function LastFit(capacity: nat, upto: nat): (r: Option<nat>)
    requires upto <= NUM_CLASSES
    ensures r.Some? ==> r.value < upto && Boundary(r.value) <= capacity
    ensures r.Some? ==> forall j :: r.value < j < upto ==> capacity < Boundary(j)
    ensures r.None? ==> forall j :: 0 <= j < upto ==> capacity < Boundary(j)
  {
    if upto == 0 then None
    else if Boundary(upto - 1) <= capacity then Some(upto - 1)
    else LastFit(capacity, upto - 1)
  }

  lemma BitsBound(x: usize, i: nat)
    requires i < NUM_CLASSES
    ensures Bits(x) <= 12 + 2 * i <==> x < Boundary(i)
  {
    WordIsPow2();
    LeadingZerosIsBitLength(x, 64);
    BitLengthBound(x, 12 + 2 * i);
    BoundaryIsPower(i);
  }

  lemma RouteSizeIsFirstFit(size: usize)
    ensures RouteSizeFast(size) == FirstFit(size, 0)
  {
    if size > 0 {
      forall i: nat | i < NUM_CLASSES
        ensures Bits(size - 1) <= 12 + 2 * i <==> size <= Boundary(i)
      {
        BitsBound(size - 1, i);
      }
      assert Bits(size - 1) <= 12 + 2 * 7 <==> size <= Boundary(7);
      var r := RouteSizeFast(size);
      if r.Some? && r.value > 0 {
        assert size > Boundary(r.value - 1);
        BoundaryBelow(size, r.value - 1);
      }
    }
  }

  lemma BoundaryBelow(size: nat, i: nat)
    requires i < NUM_CLASSES && Boundary(i) < size
    ensures forall j :: 0 <= j <= i ==> Boundary(j) < size
  {
    forall j | 0 <= j <= i ensures Boundary(j) < size { BoundaryMonotone(j, i); }
  }

  lemma RouteCapacityIsLastFit(capacity: usize)
    ensures RouteCapacityFast(capacity) == LastFit(capacity, NUM_CLASSES)
  {
    forall i: nat | i < NUM_CLASSES
      ensures Bits(capacity) <= 12 + 2 * i <==> capacity < Boundary(i)
    {
      BitsBound(capacity, i);
    }
    assert Bits(capacity) <= 12 <==> capacity < Boundary(0);
    var r := RouteCapacityFast(capacity);
    if r.Some? {
      assert Boundary(r.value) <= capacity;
      if r.value < NUM_CLASSES - 1 {
        assert capacity < Boundary(r.value + 1);
        forall j | r.value < j < NUM_CLASSES ensures capacity < Boundary(j) { BoundaryMonotone(r.value + 1, j); }
      }
    } else {
      forall j | 0 <= j < NUM_CLASSES ensures capacity < Boundary(j) { BoundaryMonotone(0, j); }
    }
  }

  // ── What callers rely on ────────────────────────────────────────────

  /** `RouteSize` is the lower adjoint of the boundary table, and is absent exactly above 64 MiB. */
  lemma RouteSizeExact(size: usize, i: nat)
    requires i < NUM_CLASSES
    ensures RouteSize(size).None? <==> size > 67108864
    ensures size <= Boundary(i) <==> RouteSize(size).Some? && RouteSize(size).value <= i
  {
    var r := RouteSize(size);
    if r.Some? {
      BoundaryMonotone(r.value, 7);
      if r.value <= i { BoundaryMonotone(r.value, i); }
    } else {
      assert Boundary(7) < size && Boundary(i) < size;
    }
  }

  /** `RouteCapacity` is the upper adjoint, and is absent exactly below 4 KiB. */
  lemma RouteCapacityExact(capacity: usize, i: nat)
    requires i < NUM_CLASSES
    ensures RouteCapacity(capacity).None? <==> capacity < 4096
    ensures Boundary(i) <= capacity <==> RouteCapacity(capacity).Some? && i <= RouteCapacity(capacity).value
  {
    var r := RouteCapacity(capacity);
    if r.Some? {
      BoundaryMonotone(0, r.value);
      if i <= r.value { BoundaryMonotone(i, r.value); }
    } else {
      assert capacity < Boundary(0) && capacity < Boundary(i);
    }
  }

  /** A buffer routed by capacity can serve every request routed at or below its class. */
  lemma CapacityServesRequests(capacity: usize, size: usize)
    requires RouteCapacity(capacity).Some? && RouteSize(size).Some?
    requires RouteSize(size).value <= RouteCapacity(capacity).value
    ensures size <= capacity
  {
    var i := RouteCapacity(capacity).value;
    RouteSizeExact(size, i);
    RouteCapacityExact(capacity, i);
  }
}
