/**
 A `Vec<u8>` as an allocation: an identity, every cell up to its capacity, and the
 length that says which cells are visible. Shrinking the length erases nothing, so
 stale bytes stay in the spare capacity; a cell no one has written is `Uninit`.

 A vector is a value here because the code only ever moves it: each one has a single
 owner, and an in-place update is an update of that owner's field.

 `id` and `home` (the pool the vector was made for) are bookkeeping of the model.
 */
module Memory {

  newtype u8 = x: int | 0 <= x < 256

  datatype Cell = Uninit | Byte(value: u8)

  /** The largest allocation a `Vec` can hold. */
  const ISIZE_MAX: nat := 0x7FFF_FFFF_FFFF_FFFF

  datatype Vec = Vec(id: nat, home: nat, store: seq<Cell>, len: nat) {
    function Capacity(): nat {
      |store|
    }

    predicate Valid() {
      len <= |store| <= ISIZE_MAX
    }

    function Visible(): seq<Cell>
      requires Valid()
    {
      store[..len]
    }

    /** `Vec::clear`: only the length changes. */
    function Clear(): Vec {
      this.(len := 0)
    }

    /** `Vec::truncate`: only the length changes, and never upwards. */
    function Truncate(n: nat): Vec {
      if n < len then this.(len := n) else this
    }

    /** `Vec::set_len`: writes nothing. Sound only for `n <= Capacity()`. */
    function SetLen(n: nat): Vec {
      this.(len := n)
    }

    /** `Vec::resize(n, 0)`: zeros exactly the cells between the old and the new length, growing if need be. */
    function ResizeZeroed(n: nat): Vec
      requires Valid()
    {
      if n <= len then Truncate(n)
      else this.(store := store[..len] + Zeros(n - len) + (if n <= |store| then store[n..] else []), len := n)
    }

    /**
     `io::Write::write` on a `Vec`: append, in place when it fits. Otherwise the store is
     reallocated and `spare` is whatever lies past the data in the new allocation.
     */
    function Append(data: seq<u8>, spare: seq<Cell>): Vec
      requires Valid()
    {
      var end := len + |data|;
      this.(store := store[..len] + Cells(data) + (if end <= |store| then store[end..] else spare), len := end)
    }

    /** Writing through `&mut [u8]` or `&mut [MaybeUninit<u8>]`: the visible cells become `cells`. */
    function Overwrite(cells: seq<Cell>): Vec
      requires Valid() && |cells| == len
    {
      this.(store := cells + store[len..])
    }

    /** The first `n` cells that are visible hold zero. */
    ghost predicate ZeroUpTo(n: nat)
      requires Valid()
    {
      forall k :: 0 <= k < len && k < n ==> store[k] == Byte(0)
    }
  }

  function Zeros(n: nat): (z: seq<Cell>)
    ensures |z| == n && forall k :: 0 <= k < n ==> z[k] == Byte(0)
  {
    seq(n, _ => Byte(0))
  }

  function Cells(data: seq<u8>): (c: seq<Cell>)
    ensures |c| == |data| && forall k :: 0 <= k < |data| ==> c[k] == Byte(data[k])
  {
    seq(|data|, i requires 0 <= i < |data| => Byte(data[i]))
  }

  predicate AllInit(cells: seq<Cell>) {
    forall k :: 0 <= k < |cells| ==> cells[k].Byte?
  }

  /** The `Allocator` contract: at least `n` visible bytes, the first `n` of them zero, inside the capacity. */
  ghost predicate AllocatorContract(v: Vec, n: nat) {
    v.Valid() && v.len >= n && v.ZeroUpTo(n)
  }

  /** What `Vec::with_capacity(n)` gives: nothing visible, room for `n`. */
  predicate WithCapacity(v: Vec, n: nat) {
    v.len == 0 && v.Capacity() >= n
  }

  /**
   A vector with stale contents becomes all zero on resize as long as what was already
   visible was zero; the stale spare bytes are overwritten, not exposed.
   */
  lemma ResizeExposesZeros(v: Vec, n: nat, bound: nat)
    requires v.Valid() && v.ZeroUpTo(bound) && n <= bound <= ISIZE_MAX
    ensures v.ResizeZeroed(n).Valid() && v.ResizeZeroed(n).Visible() == Zeros(n)
    ensures n <= v.Capacity() ==> v.ResizeZeroed(n).Capacity() == v.Capacity()
    ensures v.ResizeZeroed(n).Capacity() >= v.Capacity()
  {
    var w := v.ResizeZeroed(n);
    assert |w.store| >= n;
    assert forall k :: 0 <= k < n ==> w.store[k] == Byte(0);
  }

  /** A fresh buffer from a lawful allocator, cut to the request, is all zero. */
  lemma TruncateExposesZeros(v: Vec, n: nat, size: nat)
    requires AllocatorContract(v, n) && size <= n
    ensures v.Truncate(size).Valid() && v.Truncate(size).Visible() == Zeros(size)
    ensures v.Truncate(size).store == v.store
  {
    assert v.Truncate(size).len == size;
  }

  /** Appending never loses capacity, keeps what was visible, and shows the data after it. */
  lemma AppendKeeps(v: Vec, data: seq<u8>, spare: seq<Cell>)
    requires v.Valid() && v.Append(data, spare).Capacity() <= ISIZE_MAX
    ensures v.Append(data, spare).Valid()
    ensures v.Append(data, spare).Visible() == v.Visible() + Cells(data)
    ensures v.Append(data, spare).Capacity() >= v.Capacity()
  {
  }
}
