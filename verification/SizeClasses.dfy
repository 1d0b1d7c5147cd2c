/** Shared size classes: a bounded FIFO queue with its own counter, and the table of eight of them. */
module SizeClasses {
  import opened Options
  import opened Sums
  import opened Memory
  import opened Routing
  import opened Magazine

  class SizeClass {
    var queue: seq<Vec>
    var count: nat
    const capacity: nat
    const classSize: nat

    ghost predicate Valid()
      reads this
    {
      |queue| <= capacity && count < TWO64
    }

    /** The class as a value. */
    ghost function State(): SharedClass
      reads this
    {
      SharedClass(queue, count)
    }

    constructor (classSize: nat, capacity: nat)
      requires capacity > 0
      ensures Valid() && State() == SharedClass([], 0)
      ensures this.classSize == classSize && this.capacity == capacity
    {
      this.queue := [];
      this.count := 0;
      this.classSize := classSize;
      this.capacity := capacity;
    }

    /** Take the oldest buffer, if any, and count it out. */
    method Pop() returns (buf: Option<Vec>)
      requires Valid()
      modifies this
      ensures Valid()
      ensures old(queue) == [] ==> buf == None && State() == old(State())
      ensures old(queue) != [] ==> buf == Some(old(queue)[0]) && State() == CountDown(Dequeue(old(State())))
    {
      if queue == [] {
        buf := None;
      } else {
        buf := Some(queue[0]);
        queue := queue[1..];
        count := Wrap(count - 1);
      }
    }

    /** Add a buffer at the tail and count it in, or hand it back if the queue is full. */
    method Push(buf: Vec) returns (r: Result<(), Vec>)
      requires Valid()
      modifies this
      ensures Valid()
      ensures |old(queue)| < capacity ==> r == Ok(()) && State() == CountUp(Enqueue(old(State()), buf))
      ensures |old(queue)| >= capacity ==> r == Err(buf) && State() == old(State())
    {
      if |queue| < capacity {
        queue := queue + [buf];
        count := Wrap(count + 1);
        r := Ok(());
      } else {
        r := Err(buf);
      }
    }

    method Len() returns (n: nat)
      ensures n == count
    {
      n := count;
    }

    method IsEmpty() returns (b: bool)
      ensures b <==> count == 0
    {
      b := count == 0;
    }

    /** Free everything queued, then set the counter to zero. */
    method Clear() returns (ghost freed: seq<Vec>)
      requires Valid()
      modifies this
      ensures Valid() && State() == SharedClass([], 0) && freed == old(queue)
    {
      freed := [];
      while queue != []
        invariant Valid()
        invariant freed + queue == old(queue)
        decreases |queue|
      {
        freed := freed + [queue[0]];
        queue := queue[1..];
      }
      count := 0;
    }
  }

  class ClassTable {
    const classes: seq<SizeClass>

    ghost predicate Valid()
      reads this, classes
    {
      && |classes| == NUM_CLASSES
      && (forall i, j :: 0 <= i < j < NUM_CLASSES ==> classes[i] != classes[j])
      && (forall i :: 0 <= i < NUM_CLASSES ==> classes[i].Valid() && classes[i].classSize == Boundary(i))
    }

    /** All classes as values. */
    ghost function State(): (s: seq<SharedClass>)
      reads this, classes
      ensures |s| == |classes| && forall i :: 0 <= i < |classes| ==> s[i] == classes[i].State()
    {
      seq(|classes|, i requires 0 <= i < |classes| reads this, classes => classes[i].State())
    }

    constructor (maxBuffersPerClass: nat)
      requires maxBuffersPerClass > 0
      ensures Valid() && fresh(classes)
      ensures forall i :: 0 <= i < NUM_CLASSES ==>
                classes[i].State() == SharedClass([], 0) && classes[i].capacity == maxBuffersPerClass
    {
      var cs: seq<SizeClass> := [];
      for i := 0 to NUM_CLASSES
        invariant |cs| == i && fresh(cs)
        invariant forall j, k :: 0 <= j < k < i ==> cs[j] != cs[k]
        invariant forall j :: 0 <= j < i ==>
                    && cs[j].Valid() && cs[j].State() == SharedClass([], 0)
                    && cs[j].classSize == Boundary(j) && cs[j].capacity == maxBuffersPerClass
      {
        var c := new SizeClass(CLASS_SIZES[i], maxBuffersPerClass);
        cs := cs + [c];
      }
      classes := cs;
    }

    /** The smallest class that fits, with its index. */
    method Route(size: usize) returns (r: Option<(nat, SizeClass)>)
      requires Valid()
      ensures r.None? <==> size > 67108864
      ensures r.Some? ==>
                && r.value.0 < NUM_CLASSES && r.value.1 == classes[r.value.0]
                && size <= r.value.1.classSize
                && forall j :: 0 <= j < r.value.0 ==> classes[j].classSize < size
    {
      RouteSizeExact(size, 0);
      var idx := RouteSize(size);
      r := if idx.None? then None else Some((idx.value, classes[idx.value]));
    }

    /** The counters added up: exact when every counter is, as a machine word. */
    method TotalBuffered() returns (n: nat)
      requires Valid()
      ensures n == Wrap(Sum(State(), Counter()))
    {
      n := 0;
      var i := 0;
      while i < |classes|
        invariant 0 <= i <= |classes|
        invariant n == Wrap(Sum(State()[..i], Counter()))
      {
        ghost var prefix := State()[..i];
        assert State()[..i + 1] == prefix + [classes[i].State()];
        SumPush(prefix, classes[i].State(), Counter());
        WrapDown(Sum(prefix, Counter()), classes[i].count);
        var len := classes[i].Len();
        n := Wrap(n + len);
        i := i + 1;
      }
      assert State()[..i] == State();
    }

    method AllEmpty() returns (b: bool)
      requires Valid()
      ensures b <==> forall i :: 0 <= i < NUM_CLASSES ==> classes[i].count == 0
    {
      b := true;
      var i := 0;
      while i < |classes| && b
        invariant 0 <= i <= |classes|
        invariant b <==> forall j :: 0 <= j < i ==> classes[j].count == 0
      {
        b := classes[i].IsEmpty();
        i := i + 1;
      }
    }

    /** Clear every class in turn. */
    method ClearAll() returns (ghost freed: seq<Vec>)
      requires Valid()
      modifies classes
      ensures Valid()
      ensures forall i :: 0 <= i < NUM_CLASSES ==> classes[i].State() == SharedClass([], 0)
      ensures freed == Flatten(old(Queues(State())))
    {
      freed := [];
      ghost var all := Queues(State());
      assert all[..0] == [];
      var i := 0;
      while i < |classes|
        invariant 0 <= i <= |classes| && Valid()
        invariant forall j :: 0 <= j < i ==> classes[j].State() == SharedClass([], 0)
        invariant forall j :: i <= j < |classes| ==> classes[j].State() == old(classes[j].State())
        invariant freed == Flatten(all[..i])
      {
        ghost var more := classes[i].Clear();
        FlattenPush(all[..i], more);
        assert all[..i + 1] == all[..i] + [more];
        freed := freed + more;
        i := i + 1;
      }
      assert all[..i] == all;
    }
  }

  function Counter(): SharedClass -> nat {
    (sc: SharedClass) => sc.count
  }

  function Queues(cs: seq<SharedClass>): (qs: seq<seq<Vec>>)
    ensures |qs| == |cs| && forall i :: 0 <= i < |cs| ==> qs[i] == cs[i].queue
  {
    seq(|cs|, i requires 0 <= i < |cs| => cs[i].queue)
  }

  lemma {:induction false} FlattenPush<T>(xss: seq<seq<T>>, xs: seq<T>)
    ensures Flatten(xss + [xs]) == Flatten(xss) + xs
  {
    if xss == [] {
      assert [] + [xs] == [xs] && [xs][1..] == [];
    } else {
      assert (xss + [xs])[1..] == xss[1..] + [xs];
      FlattenPush(xss[1..], xs);
    }
  }
}
