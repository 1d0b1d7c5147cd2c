# ZeroPool: a verified model

ZeroPool is a two-level allocator for byte buffers. Every thread has last-in-first-out caches, one per
size class, in front of shared bounded queues; requests are routed to a class by bit arithmetic, buffers
move between caches and queues in batches, and programs hold them through handles that return themselves
when dropped. This project models that allocator in Dafny and proves what its documentation and tests
promise: a readable buffer is always zero, no buffer is ever in two places, `set_len` is always called
within the capacity, retention is bounded, hot buffers come back, and the statistics add up.

## How the model is organised

Four layers share their definitions.

1. **Arithmetic and memory.** `Routing` has the bit-count routing and, as its reference, a plain search of
   the boundary table. `Memory` has `Vec`: an identity, a store of `capacity` cells that may be
   uninitialised, and a length. Clearing or truncating a vector only changes the length, so stale bytes
   stay in the spare capacity. `Config` has the settings and defaults, `Stats` the counters as totals.
2. **Sequential meaning.** `Magazine` says, as functions on values, what a bind, refill, spill, acquisition and
   return do to one thread's caches and one shared class. `NoGrowth` proves properties of runs of these functions,
   and `LoneThread` of the machine's.
3. **Objects.** `SizeClasses`, `TlsStates`, `CounterObjects` and `Pools` are the program's own objects
   (`SizeClass`, `ClassTable`, `TlsState`, `Counters`, `ZeroPool`, `Buf`, `BufUninit`) with their fields
   updated in place. Every method is proved against `Magazine`.
4. **Interleaved machine.** `Machine` runs any number of threads and pools, with a step at every shared access:
   a queue operation and the update of the counter beside it are two steps, each refill, spill, warm and
   drain iteration is its own step, each statistics update is a step, a reset is seven and a snapshot fifteen. Handles may be
   dropped by any thread, a thread may switch pools or exit, and programs may write into, grow, convert
   or extract what they hold. `Invariant` and `Safety` prove one inductive invariant; the other modules
   draw results from it. `Sources` ties each counter to its own kind of event, and `Upkeeps` says what undisturbed warms,
   drains and resets do. `Refinement` closes the circle: a thread that runs undisturbed does in a bounded
   number of small steps exactly what `Magazine` says. `Scripts` tells concrete runs of the machine, starting from
   nothing; the counterexamples below are such runs.

The central invariant is `Magazine.Ready` (`Invariant.Parked` in the machine): a buffer parked in class
`i` has capacity for the class, and zero in every visible cell below the class boundary. It covers buffers
from `warm`, parked at full length, and returned buffers, parked at length zero over stale cells.

| `Machine` step | source |
|---|---|
| `Start`, `Oversize`, `Hit`, `Cold` | src/pool.rs:205-314 |
| `RefillPop`, `RefillFirst`, `RefillLoop`, `RefillMore` | src/tls.rs:87-98, src/size_class.rs:188-192 |
| `Return`, `Place`, `OverflowCount` | src/pool.rs:321-377 |
| `Spill`, `SpillCount` | src/tls.rs:103-113, src/size_class.rs:198-202 |
| `WarmLoop`, `WarmCount` | src/pool.rs:388-400 |
| `Draining`, `DrainStore` | src/pool.rs:423-425, src/size_class.rs:217-220 |
| `Resetting` | src/stats.rs:44-52 |
| `Snapshotting` | src/stats.rs:153-190 |

## What turned out not to hold

Each of these is shown by a run that starts from nothing, and has its exact condition beside it.

- **A snapshot can report a hit rate above one without any reset.** It loads gets first and the hits afterwards
  (src/stats.rs:154-156), and hits recorded in between count against the older gets: `Rates.TornSnapshot` reports 1.5.
  `Rates.UnresetSnapshotRates` says exactly when each rate is at most one: the hits recorded between the loads must not
  exceed the allocations recorded, and the requests in flight, at the first load. `Rates.SnapshotRatesExact` is the same
  with resets about. Where resets overlap no allocation, nor do snapshots, the rates reported are always in range
  (`Rates.SnapshotRatesInRange`). src/stats.rs:95-98 documents the range without a condition.
- **A reset that allocations overlap can leave the counters out of step.** The skew of a pool is how far gets fall
  short of what was served and what is in flight. It is zero without resets, only the first four stores of a reset
  move it (`Rates.SkewLedger`), and it stays until the next reset (`Rates.SkewStays`). `Rates.ResetLeavesSkew` says
  exactly what a reset leaves, with whatever else runs meanwhile, other resets included: the allocations in flight at its
  first store, less the outcomes recorded from then until their own counter's store.
  `Rates.OverlappedResetBreaksRates` is a run that ends with both threads at rest and one get against two cache hits;
  `Rates.SplitResetBreaksRates` reaches such counters half way through a reset.
- **The oversize counter can lead.** `oversize <= allocations` can fail, because the oversize counter is bumped first
  (src/pool.rs:206-217); `Accounting.OversizeCanLead` reaches such a state. It holds exactly when the oversize requests
  between their two updates are no more than the allocations that were not oversize (`Accounting.CountersAddUp`).
- **A drain can leave a class counter wrong for good.** If a push has queued a buffer but not counted it when a
  drain empties the queue and stores zero, the counter ends at one over an empty queue
  (`CountAgreement.OverlappingDrainBreaksCounter`), and no step but the next drain's store changes how far it is off
  (`CountAgreement.DriftStays`). `CountAgreement.DrainStoreDrift` says exactly when the store is right.
- **A return can lose two buffers** exactly when the batch is above the cache limit plus one, which the builder
  accepts, and the minimum size does not keep every buffer out: `WildBatches.LosesTwoExactly` proves this for all
  settings, with a run for each of those that can, in which another thread feeds the queue in the middle of a refill.
  `Magazine.TwoLostExactly` says when an undisturbed return does.
- **How many buffers can be in use without ever losing one** depends on how batches divide the queue.
  `NoGrowth.LossThreshold` gives the exact number for every batch from one to the limit plus one.

## Model

| member | source | states |
|---|---|---|
| Routing.BoundaryIsPower | src/size_class.rs:8-22 | the eight table entries are 4096 * 4^i, which is 2^(12 + 2i), tying the table to the bit constants |
| Routing.LeadingZerosIsBitLength | src/size_class.rs:112-112 | word width minus leading zeros is the bit length, defined by repeated halving |
| Routing.RouteSizeIsFirstFit | src/size_class.rs:108-122 | for every 64-bit size the bit arithmetic finds the first class of the table that fits, or none |
| Routing.RouteCapacityIsLastFit | src/size_class.rs:128-135 | for every 64-bit capacity the bit arithmetic finds the last class whose boundary it reaches, or none |
| Routing.RouteSizeExact | src/size_class.rs:108-122 | absent iff above 64 MiB; `size <= Boundary(i)` iff the routed class is at most `i` |
| Routing.RouteCapacityExact | src/size_class.rs:128-135 | absent iff below 4 KiB; `Boundary(i) <= capacity` iff `i` is at most the routed class |
| Routing.CapacityServesRequests | src/size_class.rs:125-135 | a buffer routed by capacity is big enough for every request routed at or below its class |
| Memory.ResizeExposesZeros | src/size_class.rs:162-170 | resizing a vector whose visible cells were zero shows exactly zeros, whatever its spare cells held, and within capacity it does not reallocate |
| Memory.TruncateExposesZeros | src/pool.rs:209-256 | a lawful allocation cut to the request shows exactly zeros and keeps its store |
| Memory.AppendKeeps | src/buf.rs:280-289 | `io::Write` keeps the visible prefix, shows the data after it, and never loses capacity |
| Safety.HeapAllocatorLawful | src/allocator.rs:38-47 | the default allocator meets the `Allocator` contract, with exactly the capacity asked for |
| Config.DefaultsAreTame | src/config.rs:9-34 | every batch derived from a cache size is between 1 and limit + 1, the cache bound is then the limit, and the defaults pass the builders' assertions on any machine |
| Config.DefaultsGrow | src/config.rs:9-34 | the defaults for every number of processors: caches of 2, two deeper at 3, 5 and 9; queues of 32, with 32 more at 16, 32 and 64; a batch of half a cache and at least two; no buffer below the smallest class kept; statistics off |
| Magazine.RefillList | src/tls.rs:82-98 | refill returns the queue head, appends the next min(batch-1, n-1) to the cache in order, leaves the suffix, and deducts exactly what it took |
| Magazine.SpillList | src/tls.rs:100-113 | spill moves the top min(batch, k) in pop order; if the queue fills, exactly the one that failed is freed and the rest stay |
| Magazine.SpillThenRefill | src/tls.rs:87-113 | spilling a whole cache [x1..xk] into an empty queue and refilling returns xk and leaves [x(k-1)..x1] |
| Magazine.SourceExactly | src/pool.rs:222-253 | an acquisition is served from the top of the thread's own cache if it is bound and not empty, else from the head of the queue, else by the allocator |
| Magazine.DecideExactly | src/pool.rs:327-350 | a return is discarded iff the hint is 255 or the capacity below the minimum; else kept in its own class iff it reaches that boundary, else in the greatest class it reaches, and dropped uncounted iff it reaches none |
| Magazine.GiveBackBelow | src/pool.rs:362-371 | a cache below its limit takes the buffer on top, and nothing else moves |
| Magazine.GiveBackSpills | src/pool.rs:362-376 | a full cache whose spill fits: the top k go to the queue in pop order, then the buffer goes on top, or to the tail of the queue if the cache is still full and the queue is not, or is lost; with the count raised by as many as were queued |
| Magazine.GiveBackOverruns | src/pool.rs:362-376 | a full cache whose spill does not fit: the queue fills up, the next buffer in pop order is lost, and the returned one goes on top or is lost |
| Magazine.NothingLostExactly | src/pool.rs:355-376 | exactly when a return loses nothing, for every batch |
| Magazine.GiveBackOnTop | src/pool.rs:355-376 | with a tame batch a returned buffer ends on top of the cache, at most one buffer is lost, and below the limit nothing shared is touched |
| Magazine.GiveBackLosesAtMostTwo | src/pool.rs:355-376 | whatever the batch, one return loses at most two buffers |
| Magazine.TwoLostExactly | src/pool.rs:355-376 | an undisturbed return loses two exactly when the bound cache holds more than its limit and the room in the queue together, and the batch exceeds that room |
| Magazine.ModestLosesAtMostOne | src/tls.rs:100-113 | with a batch of at most the limit plus one, zero included, and a cache within its bound, one return loses at most one |
| Magazine.LastInFirstOut | src/pool.rs:222-232 | in the sequential functions, n returns that fit in the cache followed by n allocations give the same buffers back in reverse order |
| Stats.RatesAtMostOne | src/stats.rs:158-167 | for loads that have not wrapped, each rate is at most one exactly when gets are zero or cover the hits, and the cache rate never exceeds the hit rate |
| Stats.RatesAre | src/stats.rs:158-167 | both rates are zero when no gets are loaded, and otherwise the rate times gets is exactly the hits, the sum of the two loads wrapping |
| Stats.RatesFromBooks | src/stats.rs:158-167 | both rates are in [0, 1] and ordered whenever gets cover everything served and have not wrapped |
| SizeClasses.SizeClass.Pop | src/size_class.rs:186-192 | takes the oldest buffer and deducts one modulo 2^64; on an empty queue nothing changes |
| SizeClasses.SizeClass.Push | src/size_class.rs:194-202 | appends and counts if there is room; otherwise hands the buffer back and changes nothing |
| SizeClasses.SizeClass.Clear | src/size_class.rs:216-220 | frees everything queued, in order, and leaves an empty class at zero |
| SizeClasses.ClassTable.constructor | src/size_class.rs:37-43 | eight distinct empty classes with the table's boundaries and the given capacity |
| SizeClasses.ClassTable.Route | src/size_class.rs:45-52 | the class returned is the first that fits; none iff the size is above 64 MiB |
| SizeClasses.ClassTable.TotalBuffered | src/size_class.rs:75-78 | the sum of the eight counters modulo 2^64 |
| SizeClasses.ClassTable.AllEmpty | src/size_class.rs:80-83 | true iff every counter is zero |
| SizeClasses.ClassTable.ClearAll | src/size_class.rs:85-90 | every class ends empty at zero; what is freed is all queues, in order |
| TlsStates.TlsState.BindTo | src/tls.rs:68-80 | a change of pool frees every cached buffer and takes the new limit; the same pool keeps the caches |
| TlsStates.TlsState.RefillFrom | src/tls.rs:82-98 | the loop over the shared queue computes `Magazine.Refill` on the cache and the class, other caches unchanged |
| TlsStates.TlsState.SpillTo | src/tls.rs:100-113 | the loop over the cache computes `Magazine.Spill`, including what is freed, other caches unchanged |
| CounterObjects.Counters.Reset | src/stats.rs:44-53 | every counter ends at zero |
| CounterObjects.TakeSnapshot | src/stats.rs:153-190 | with no other thread at work, the snapshot reports every counter as a 64-bit load, rates whose product with gets is exactly the hits, and each class's boundary and counter in order |
| Snapshots.LoadShape | src/stats.rs:154-181 | in the machine each of the fifteen loads reads its own counter at that moment and changes nothing else |
| Snapshots.SnapshotAlone | src/stats.rs:153-190 | a snapshot that runs alone sees all seven counters and all eight classes as they stand |
| Pools.AcquireFits | src/pool.rs:222-253 | acquiring hands out a buffer fit for its class and keeps the rest fit; the allocator is needed iff the bound cache and the queue are both empty |
| Pools.GiveBackFits | src/pool.rs:355-376 | returning a fit buffer keeps every cached and queued buffer fit |
| Pools.ZeroPool.TakePooled | src/pool.rs:222-245 | bind, pop or refill gives exactly what `Magazine.Acquire` says of the caches, the class, the source and what is freed |
| Pools.ZeroPool.Supply | src/pool.rs:239-256 | a recycled buffer is resized; a new one is the next answer to a request for the class boundary, cut to size |
| Pools.ZeroPool.Alloc | src/pool.rs:191-256 | the handle shows exactly `size` zeros and carries its class; its vector is the recycled or newly answered one; caches, classes and allocator calls change as specified and no more; a tracked pool counts a get and exactly one of cache hit, queue hit and allocation, by where the buffer came from |
| Pools.ZeroPool.AllocUninit | src/pool.rs:258-314 | the handle has `size` cells within capacity; its vector, the rest of the state and the counters are as for `Alloc`, without zeroing |
| Pools.ZeroPool.PutPooled | src/pool.rs:355-376 | bind, spill, push or overflow gives exactly what `Magazine.GiveBack` says, which the lemmas above spell out, and what was lost |
| Pools.ZeroPool.Dealloc | src/pool.rs:316-377 | the buffer is emptied, then discarded, dropped or pooled by hint and capacity; caches and all eight classes change as specified and no more; a tracked pool counts a put, and a discard iff the hint is 255 or the capacity below the minimum |
| Pools.ZeroPool.Warm | src/pool.rs:379-400 | the class queue gains, after its old contents and in order, the allocator's next answers to requests for the class boundary, min(max, old + count) in all; one more answer is lost iff the queue was too short; other classes are untouched, and an oversize request does nothing |
| Pools.ZeroPool.Drain | src/pool.rs:418-425 | every shared queue is emptied, and what is freed is all of them in order; thread caches are untouched |
| Pools.ZeroPool.Stats | src/pool.rs:427-445 | the snapshot of all this pool's counters and classes, with rates whose product with gets is exactly the hits |
| Pools.Buf.IntoInner | src/buf.rs:101-119 | the vector leaves and the handle is spent |
| Pools.Buf.SetByte | src/buf.rs:217-222 | one visible byte changes and nothing else |
| Pools.Buf.Write | src/buf.rs:280-289 | appends the data after what was visible and keeps the room for the handle's class |
| Pools.Buf.Drop | src/buf.rs:224-231 | a full handle is returned with its own class hint; a spent one changes nothing at all |
| Pools.BufUninit.SetCell | src/buf.rs:160-170 | one visible cell changes and nothing else |
| Pools.BufUninit.AssumeInit | src/buf.rs:194-203 | the vector moves to a readable handle with the same pool and class, and the old handle is spent |
| Pools.BufUninit.WriteFromSlice | src/buf.rs:171-192 | on equal length the readable handle shows exactly the data; otherwise the buffer is returned with its hint |
| Pools.BufUninit.Drop | src/buf.rs:233-240 | as `Buf.Drop` |
| Pools.UninitRoundTrip | src/buf.rs:181-203 | `alloc_uninit(n)`, `write_from_slice(d)`, `into_inner` yields exactly d, whatever the pool held |
| Pools.DirtyThenRealloc | src/pool.rs:191-256 | a buffer dirtied and dropped never shows its old bytes: the next allocation, of any size, is all zero |
| Safety.StepKeepsInv | src/pool.rs:205-425 | the invariant is kept by every step of every thread, under any interleaving |
| Safety.AllocIsZeroed | src/pool.rs:191-256 | in every interleaved run the step that completes an allocation adds one live handle of the size asked, all zero if it is readable |
| Safety.SetLenIsSafe | src/size_class.rs:172-184 | at every call of `set_len`, on a recycled or a new buffer, in every reachable state, the length is within capacity |
| Safety.NeverStuck | src/pool.rs:205-425 | in every reachable state every operation in progress can take its next step, given an allocator that answers |
| Safety.EveryLiveHandleUsable | src/buf.rs:32-50 | in every reachable state what the machine asks of a handle before use holds of exactly the live ones |
| Progress.OperationsAreShort | src/pool.rs:205-400 | under any interleaving an allocation or a return takes at most 2 * batch + 4 steps of its own, a warm 2 * count + 1, a reset 7 and a snapshot 16 |
| Progress.DrainTakesWhatItMeets | src/size_class.rs:85-90 | a drain's own steps are at most the buffers queued when it begins, those other threads queue meanwhile, and two for each class |
| Ownership.StepConserves | src/pool.rs:205-425 | whatever the weights of buffers, each step keeps the total over all places, but for a buffer it creates |
| Ownership.EveryBufferAccountedFor | src/pool.rs:205-425 | created = queued + cached + in flight + live + extracted + freed after every step of every run |
| Ownership.EveryBufferInOnePlace | src/tls.rs:72-113 | each buffer ever created is in exactly one of those places, counted once |
| Ownership.LiveBuffersAreExclusive | src/buf.rs:224-240 | two handles never share a buffer, and a live handle's buffer is in no queue, cache or step and is not freed |
| CountAgreement.CounterFollowsQueue | src/size_class.rs:186-221 | where drains run alone on their class, the counter is the queue length less pushes not yet counted plus pops not yet deducted, modulo 2^64, after every step; exactly the length when none is outstanding |
| CountAgreement.OnlyDrainStoreMovesDrift | src/size_class.rs:186-214 | no step but a drain's store can change how far the counter is off, from any good state |
| CountAgreement.DriftStays | src/size_class.rs:186-214 | over any run in which no drain of the class stores, how far its counter is off does not change |
| CountAgreement.DrainStoreDrift | src/size_class.rs:216-220 | the store leaves the counter right exactly when the queue, less what other threads have queued uncounted, plus what they have taken undeducted, is zero modulo 2^64 |
| CountAgreement.LoneDrainResets | src/size_class.rs:216-220 | a drain that ran alone leaves queue and counter empty and in agreement |
| CountAgreement.OverlappingDrainBreaksCounter | src/size_class.rs:198-220 | a run in which a drain between a push and its count leaves the counter at one over an empty queue, with nothing outstanding |
| Accounting.CountersAddUp | src/pool.rs:206-341 | after every step of every run without reset: gets = served + in flight; gets - puts = buffers held + in flight; oversize = oversize handles made + oversize requests in flight, so oversize <= allocations iff those requests are no more than the other allocations; discards <= puts |
| Sources.EachCounterIsItsTally | src/pool.rs:206-341 | after every step of every run without reset: cache hits are the buffers allocations picked up from caches, and queue hits those picked up from queues, less those still in hand; allocations are the allocator's calls for requests; discards are the returns of oversize or too small buffers |
| Sources.UntrackedCountsNothing | src/pool.rs:206-341 | a pool that does not track keeps all its counters at zero in every run |
| Accounting.OversizeCanLead | src/pool.rs:206-217 | a reachable state with oversize = 1 and allocations = 0 |
| Rates.TornSnapshot | src/stats.rs:153-167 | a run without reset in which a snapshot reports hit rates of 1.5 |
| Rates.UnresetSnapshotRates | src/stats.rs:153-167 | without a reset, whatever falls between a snapshot's loads: the hit rate is at most one iff gets were zero or the hits recorded between the loads do not exceed the allocations recorded and the requests in flight at the first; the cache rate likewise |
| Rates.SnapshotRatesExact | src/stats.rs:153-167 | what a snapshot reports, whatever falls between its loads, resets included; and the same condition less the skew, with totals below 2^64 |
| Rates.SnapshotRatesInRange | src/stats.rs:94-98 | where resets overlap no allocation, a snapshot that no allocation of the pool overlaps reports 0 <= tls_hit_rate <= hit_rate <= 1 |
| Rates.NoResetNoSkew | src/pool.rs:206-309 | without a reset gets equal what was served and what is in flight, after every step |
| Rates.OnlyResetStoresMoveSkew | src/stats.rs:44-52 | no event but the first four stores of a reset moves the skew of a pool |
| Rates.SkewLedger | src/stats.rs:44-52 | over any run the skew moves by exactly what the stores of its resets move it by, each by the counter it zeroes |
| Rates.SkewStays | src/stats.rs:44-52 | so over any run without such stores the skew stays, zero or not |
| Rates.ResetLeavesSkew | src/stats.rs:44-49 | whatever runs between its stores, a reset leaves a skew of the allocations in flight at its first store, less what each outcome counter gained until its own store, plus what the stores of overlapping resets moved it by |
| Rates.HitRatesInRange | src/stats.rs:44-53 | where resets overlap no allocation, the rates of the counters read at one instant are in range after every step, half way through a reset too |
| Rates.OverlappedResetBreaksRates | src/stats.rs:44-53 | a run, with the reset over and both threads at rest, that leaves one get, two cache hits and a positive skew |
| Rates.SplitResetBreaksRates | src/stats.rs:44-53 | a run in which an allocation begins after a reset's first store, leaving one get and two cache hits half way through the reset |
| Retention.RetentionBound | src/tls.rs:87-113 | a class parks at most max_buffers plus max(limit, batch - 1) for each thread bound to the pool, in every reachable state |
| Retention.RetainedBytesBound | src/pool.rs:362-375 | with exact allocations and no handle growth, a pool parks at most that many times 4096 * (4^8 - 1) / 3 bytes |
| Retention.WarmFreeRunsHonourMinimum | src/pool.rs:334-339 | without warm, every queued and every cached buffer has capacity of at least both the minimum size and its class boundary |
| Retention.IdsDistinct | src/pool.rs:9-90 | pool ids are non-zero and pairwise distinct iff fewer than 2^64 pools have been made |
| Retention.PoolsAreIsolated | src/tls.rs:66-80 | a pool's queues, the caches bound to it and its live handles hold only buffers made for it, however threads alternate |
| Returns.ReturnLosesLittle | src/pool.rs:355-376 | one return frees at most two buffers under any interleaving and batch; at most one with a batch of at most the limit plus one; and if that batch is not empty the cache always has room, so the overflow push is never tried |
| Returns.PlaceFindsRoom | src/pool.rs:367-376 | the last step of a return, under any interleaving: room in the cache takes the buffer on top, else room in the queue takes it at the tail, and only with neither is it freed |
| WildBatches.LosesTwoExactly | src/pool.rs:166-168 | for all settings the builder accepts: some return of some interleaved run loses two buffers iff the batch is above the cache limit plus one and the minimum size is within the largest allocation |
| Returns.HotReuse | src/pool.rs:222-232 | with a tame batch, after a thread's return, to a full cache too, its next allocation of that class on that pool hands out the same buffer, whatever other threads do, without calling the allocator |
| Reuse.CacheIsAStack | src/pool.rs:222-232 | over any run in which a thread returns to and allocates from one class, in any order within the cache's limit, and others do as they like, what it is handed is exactly what a stack would give |
| Reuse.LastInFirstOut | src/pool.rs:355-372 | under any interleaving, n returns that fit on top of the cache followed by n allocations of the class hand out those buffers in reverse order |
| Handles.ReturnCarriesHint | src/buf.rs:224-240 | a return starts with the handle's own pool, hint and buffer, emptied and not erased |
| Handles.EachHandleEndsOneWay | src/buf.rs:117-240 | over any run a live handle is returned once, or extracted once, or still live, never two of these; its pool and hint never change, nor does its buffer until it is returned |
| Handles.HintTellsRequest | src/pool.rs:205-314 | in every reachable state the hint is 255 iff the request was above 64 MiB, else the first class that fits it |
| Handles.ReturnsToItsClass | src/pool.rs:334-350 | whatever growth, a returned pooled buffer reaches its hint's boundary: it is discarded for the minimum size or goes to the class it came from, and re-routing is never taken |
| Handles.WriteThenExtract | src/buf.rs:181-192 | writing a slice and extracting shows exactly the slice, in the same buffer |
| Handles.WorkShows | src/buf.rs:194-289 | overwriting shows just the cells written, appending what was there and the data, `assume_init` the same vector; other handles are untouched |
| NoGrowth.RetainedAtMostPeak | src/pool.rs:205-377 | for every batch size, buffers in use, cached and queued never exceed the peak in use |
| NoGrowth.NoGrowthNoLoss | src/pool.rs:205-377 | with a tame batch and a peak within the threshold, no buffer is ever freed and the allocator is called at most peak times |
| NoGrowth.LossThreshold | src/pool.rs:355-376 | for every tame configuration, some run with at most that many in use loses a buffer if and only if the peak exceeds the threshold |
| LoneThread.NoGrowthStepByStep | src/pool.rs:205-377 | in the step machine, one thread working on one class of its new pool: at every step, for every batch, the buffers in existence are no more than were in use at once; with a tame batch and a peak within the threshold nothing is freed and the allocator is called at most peak times |
| NoGrowth.ThresholdAtLeast | src/pool.rs:362-375 | the threshold lies between limit + max - min(batch, limit) + 1 and limit + max |
| Refinement.AllocAloneIsAcquire | src/pool.rs:205-256 | from any reachable state an undisturbed allocation completes within 2 * batch + 5 steps with exactly the outcome of `Magazine.Acquire` |
| Refinement.ReturnAloneIsGiveBack | src/pool.rs:321-377 | an undisturbed return completes within 2 * batch + 4 steps with exactly the outcome of `Magazine.GiveBack` |
| Upkeeps.UpkeepBegins | src/pool.rs:388-450 | a warm begins in the smallest class that fits, or not at all above 64 MiB, for the count asked; a drain at class 0; a reset and a snapshot at their first counter |
| Upkeeps.WarmAlone | src/pool.rs:388-400 | an undisturbed warm parks min(count, room) of the allocator's answers at the tail in order and counts them; it calls once more, and frees that one, iff the queue fills up first |
| Upkeeps.DrainAlone | src/size_class.rs:85-90 | an undisturbed drain frees everything queued, class by class and oldest first, and leaves all eight classes empty at zero |
| Upkeeps.ResetAlone | src/stats.rs:44-53 | an undisturbed reset zeroes all seven counters, in order, and touches no class |
| Upkeeps.ExitFreesCaches | src/tls.rs:9-24 | a thread that exits frees every cached buffer and touches no pool and no handle |
| Upkeeps.BypassTouchesNothing | src/pool.rs:209-342 | oversize requests and discarded returns go past every cache and queue, and do not rebind the thread |
| Upkeeps.HandingOutKeepsBytes | src/size_class.rs:162-184 | an uninitialised buffer is handed out with every byte as it was, a zeroed one with every byte past the request as it was |

## Left out

- Memory ordering and the internals of `ArrayQueue`: the queue is a linearizable bounded FIFO, and every shared access is one atomic step.
- `pin` and page locking: a foreign call whose result is ignored and which changes no modelled state.
- `UnsafeCell` and `thread_local!`: a thread's caches are its own field of the machine state, and a parameter of the pool's methods.
- Builder calls after a pool is first used: settings are fixed, with what the builders assert; the allocator is whatever meets its documented contract.
- `available_parallelism`, `Debug`, `Display`, `format_size` and floating-point rounding: the CPU count is a parameter and rates are reals.
- `mem::forget`: a forgotten handle is one that stays live.
- Dropping a pool: pools of the machine live for ever.
- Requests above the largest allocation a vector can have, growth beyond it, and an allocator that panics: these abort the operation.
- `len` and `is_empty` while operations are in flight: documented as approximate; `ClassTable.TotalBuffered` and `ClassTable.AllEmpty` say what they compute from the counters. Its sum wraps, as in a release build.
- Making 2^64 pools: `Machine` stops short of it; `Retention.IdsDistinct` shows that ids repeat exactly then.
- How far a reallocation grows a vector: any amount that holds the data is allowed; a grown vector keeps its identity.
- Aliasing of vectors: a vector is a value, because the code only ever moves it; one owner is what `Ownership` proves.
- NoGrowth.NoGrowthNoLoss: is about the sequential functions; `LoneThread.NoGrowthStepByStep` is the same for the step machine. Both are about one thread, one class and a batch from one to the limit plus one; with several threads a buffer can be stranded in another thread's cache.
- NoGrowth.LossThreshold: its losing runs are of the sequential functions.
- Progress.OperationsAreShort: leaves out drains, which other threads can prolong; `Progress.DrainTakesWhatItMeets` bounds them by that.
- Magazine.LastInFirstOut: is about the sequential functions; `Reuse.LastInFirstOut` is the same under interleaving.
- Statistics counters: kept as running totals; `Stats.Load` takes them modulo 2^64 where they are read.
- Benchmarks and scripts.
