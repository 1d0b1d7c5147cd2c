/**
 The handle protocol: over any run, each handle ends in exactly one of three ways, still live,
 returned once, or extracted; and it is returned with the pool and class hint it was made with.
 */
module Handles {
  import opened Memory
  import opened Routing
  import opened Magazine
  import opened Machine
  import opened Invariant
  import opened Safety

  /** This event takes the buffer out of handle `k` and gives it to `dealloc`. */
  predicate Returns(s: State, e: Event, k: nat) {
    k < |s.handles| && s.handles[k].slot.Live? &&
    (e.a == BeginDrop(k) || (e.a.WriteFromSlice? && e.a.h == k && |e.a.data| != s.handles[k].slot.vec.len))
  }

  predicate Extracts(s: State, e: Event, k: nat) {
    k < |s.handles| && e.a == IntoInner(k)
  }

  /** What one step may do to a handle. */
  ghost predicate HandleMoves(s: State, e: Event, k: nat, h: Handle, h': Handle) {
    && h'.pool == h.pool && h'.hint == h.hint && h'.size == h.size && (h'.uninit ==> h.uninit)
    && (h.slot.Returned? ==> h' == h)
    && (h.slot.Extracted? ==> h' == h)
    && (h.slot.Live? ==>
          if Returns(s, e, k) then h'.slot.Returned?
          else if Extracts(s, e, k) then h'.slot == Extracted(h.slot.vec)
          else h'.slot.Live? && h'.slot.vec.id == h.slot.vec.id && h'.slot.vec.home == h.slot.vec.home)
  }

  lemma GoLeavesHandles(s: State, e: Event, k: nat)
    requires Enabled(s, e) && e.a.Go? && k < |s.handles|
    ensures k < |Step(s, e).handles| && Step(s, e).handles[k] == s.handles[k]
  {
    hide Micro;
  }

  lemma StepMovesHandle(s: State, e: Event, k: nat)
    requires Enabled(s, e) && k < |s.handles|
    ensures k < |Step(s, e).handles| && HandleMoves(s, e, k, s.handles[k], Step(s, e).handles[k])
  {
    if e.a.Go? { GoLeavesHandles(s, e, k); }
    hide Micro, RouteSize, Merge;
  }

  /** A return starts from the handle's own pool and hint, with its own buffer, emptied but not erased. */
  lemma ReturnCarriesHint(s: State, e: Event, k: nat)
    requires Enabled(s, e) && Returns(s, e, k)
    ensures e.t < |Step(s, e).threads|
    ensures Step(s, e).threads[e.t].op == Return(s.handles[k].pool, s.handles[k].hint, s.handles[k].slot.vec.Clear())
    ensures s.handles[k].slot.vec.Clear().store == s.handles[k].slot.vec.store
  {
    hide Micro, RouteSize, Merge, Worked;
  }

  /**
   What a program's own work on a handle leaves in it: after an overwrite, just the cells written; after an
   append, what was there and then the data; after `assume_init`, the same vector, now readable.
   */
  lemma WorkShows(s: State, e: Event)
    requires Enabled(s, e) && (e.a.Overwrite? || e.a.Append? || e.a.AssumeInit?)
    ensures e.a.h < |s.handles| == |Step(s, e).handles|
    ensures var h, h' := s.handles[e.a.h], Step(s, e).handles[e.a.h];
            && h.slot.Live? && h.slot.vec.Valid() && h'.slot.Live? && h'.slot.vec.Valid()
            && (e.a.Overwrite? ==> h'.slot.vec.Visible() == e.a.cells && h'.uninit == h.uninit)
            && (e.a.Append? ==>
                  h'.slot.vec.Visible() == h.slot.vec.Visible() + Cells(e.a.data) && h'.uninit == h.uninit)
            && (e.a.AssumeInit? ==> h'.slot.vec == h.slot.vec && !h'.uninit && AllInit(h'.slot.vec.Visible()))
            && (forall k :: 0 <= k < |s.handles| && k != e.a.h ==> Step(s, e).handles[k] == s.handles[k])
  {
    hide Micro, RouteSize, Merge;
    var v := s.handles[e.a.h].slot.vec;
    if e.a.Append? { AppendKeeps(v, e.a.data, e.a.spare); }
    else if e.a.Overwrite? { assert v.Overwrite(e.a.cells).Visible() == e.a.cells; }
  }

  /** How often the run returns handle `k`, and how often it extracts it. */
  ghost function ReturnCount(s: State, es: seq<Event>, k: nat): nat
    requires ValidRun(s, es)
    decreases |es|
  {
    if es == [] then 0
    else (if Returns(s, es[0], k) then 1 else 0) + ReturnCount(Step(s, es[0]), es[1..], k)
  }

  ghost function ExtractCount(s: State, es: seq<Event>, k: nat): nat
    requires ValidRun(s, es)
    decreases |es|
  {
    if es == [] then 0
    else (if Extracts(s, es[0], k) then 1 else 0) + ExtractCount(Step(s, es[0]), es[1..], k)
  }

  lemma ExtractNeedsLive(s: State, e: Event, k: nat)
    requires Enabled(s, e) && Extracts(s, e, k)
    ensures s.handles[k].slot.Live? && !Returns(s, e, k)
  {
  }

  /** Each live handle is returned once, extracted once, or still live at the end, and never two of these. */
  lemma {:induction false} EachHandleEndsOneWay(s: State, es: seq<Event>, k: nat)
    requires ValidRun(s, es) && k < |s.handles|
    ensures k < |After(s, es).handles|
    ensures var h, h' := s.handles[k], After(s, es).handles[k];
            && h'.pool == h.pool && h'.hint == h.hint && h'.size == h.size
            && ReturnCount(s, es, k) == (if h.slot.Live? && h'.slot.Returned? then 1 else 0)
            && ExtractCount(s, es, k) == (if h.slot.Live? && h'.slot.Extracted? then 1 else 0)
            && (h'.slot.Live? ==> h.slot.Live?)
            && (!h.slot.Returned? && !h'.slot.Returned? ==> h'.slot.vec.id == h.slot.vec.id)
            && (!h.slot.Live? ==> h' == h)
    decreases |es|
  {
    hide Step, Enabled;
    if es == [] {
    } else {
      StepMovesHandle(s, es[0], k);
      if Extracts(s, es[0], k) { ExtractNeedsLive(s, es[0], k); }
      EachHandleEndsOneWay(Step(s, es[0]), es[1..], k);
    }
  }

  /** The hint is 255 exactly for a request above 64 MiB, and otherwise the class of the request. */
  lemma HintTellsRequest(n: nat, es: seq<Event>, k: nat)
    requires ValidRun(Initial(n), es) && k < |After(Initial(n), es).handles|
    ensures var h := After(Initial(n), es).handles[k];
            && (h.hint == OVERSIZE_HINT <==> h.size > 67108864)
            && (h.hint != OVERSIZE_HINT ==> h.hint < NUM_CLASSES && h.size <= Boundary(h.hint)
                                            && forall c :: 0 <= c < h.hint ==> Boundary(c) < h.size)
  {
    hide Step, Enabled;
    ReachableOk(n, es);
    var s := After(Initial(n), es);
    assert HandleOk(ANY, s.cfgs, s.handles[k]);
    RouteSizeExact(s.handles[k].size, 0);
  }

  /**
   A pooled buffer never shrinks below its class while a program holds it, however much it
   grows, so its return always chooses the class it came from; capacity routing is never used.
   */
  lemma ReturnsToItsClass(n: nat, es: seq<Event>, t: nat)
    requires ValidRun(Initial(n), es) && t < |After(Initial(n), es).threads|
    requires After(Initial(n), es).threads[t].op.Return?
    ensures var s := After(Initial(n), es);
            var op := s.threads[t].op;
            && op.pool < |s.cfgs| && (op.hint < NUM_CLASSES || op.hint == OVERSIZE_HINT)
            && op.vec.Capacity() < TWO64
            && Decide(op.vec.Capacity(), op.hint, s.cfgs[op.pool].minSize) ==
               if op.hint == OVERSIZE_HINT || op.vec.Capacity() < s.cfgs[op.pool].minSize then Discard
                   else Pooled(op.hint)
  {
    hide Step, Enabled;
    ReachableOk(n, es);
    var s := After(Initial(n), es);
    assert ThreadOk(ANY, s.cfgs, s.threads[t]);
    var op := s.threads[t].op;
    DecideByHint(ANY, s.cfgs[op.pool], op.pool, op.hint, op.vec);
  }

  /**
   Writing a slice into an uninitialised handle and extracting it gives exactly the slice: the
   handle shows the data and nothing else, whatever bytes the recycled buffer held.
   */
  lemma WriteThenExtract(s: State, t: nat, h: nat, data: seq<u8>)
    requires Enabled(s, Event(t, WriteFromSlice(h, data))) && |data| == s.handles[h].slot.vec.len
    ensures var s1 := Step(s, Event(t, WriteFromSlice(h, data)));
            && Enabled(s1, Event(t, IntoInner(h)))
            && var slot := Step(s1, Event(t, IntoInner(h))).handles[h].slot;
            slot.Extracted? && slot.vec.Valid() && slot.vec.Visible() == Cells(data)
            && slot.vec.id == s.handles[h].slot.vec.id
  {
    hide Micro, RouteSize, Merge;
    var v := s.handles[h].slot.vec;
    assert v.Overwrite(Cells(data)).Visible() == Cells(data);
  }
}
