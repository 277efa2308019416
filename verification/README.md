# clmalloc, modelled and proved in Dafny

clmalloc is a thread-caching slab allocator. A heap per thread takes 64 KiB slabs from a shared page
pool, cuts them into equal slots, and hands slots to the client. Any thread may free any slot. When
a thread exits, its slabs are abandoned and other heaps adopt them.

The project models it in layers that are proved against each other.

- **The interleaving machine** (`System`). Every thread runs `alloc`, `dealloc` or `drop` one step at
  a time; a step ends at every access to memory that other threads also use (a remote stack, an
  abandoned stack, the page cache, the pool lock, the page allocator), so other threads may act in
  every lock gap. Pages, slots and segments are filed in lists by place (`Places`, `Tiling`), and one
  invariant (`SystemInvariant`) says that every page, slot and segment is in exactly one place, what
  each place means, and what each program position promises. `Frames`, `ControlSteps`, `SlotSteps`,
  `PageSteps`, `SlabSteps`, `PoolOpSteps` and `LifeSteps` show that each step keeps it, `Safety`
  assembles them, and `Theorems`, `Counters` and `Gauges` say what that means for the state alone.
- **Liveness and failure** (`Progress`, `Alone`). Every call ends, and a call that works alone fails
  only when nothing is left.
- **Answers** (`Answers`, `Precedence`). What a call of `alloc` has given when it returns: one new block
  of its class, or none after a refusal; and that a slab which can serve the call does, before anything
  else is asked.
- **Which way a page goes** (`Reclaiming`, `Policies`, `Overfull`). Slabs end exactly when every slot is
  found free; their pages go to the cache while there is room, to the dirty list otherwise, and are
  purged only above the mark. How far the cache can outgrow its limit is an exact bound with a run that
  attains it.
- **Histories** (`Mappings`, `Refusal`, `Snapshots`). Runs with a record of who did what: segments
  obtained and given back, the counters of mappings, a run in which a segment is refused, and what a
  metrics snapshot reads in any state of any history.
- **The lock sections of the pool** (`PoolSections`, `PoolInvariant`, `PoolSteps`, `PoolDrop`) as
  functions, with which the machine steps (`PurgeExample` is one pool state worked out), and **the pool
  in place** (`PagePool`, `PageList`): arrays, cursor and free lists threaded through the pages, each
  method tied to the section function.
- **Slabs in memory**: the slab and its lists updated in place (`Slab`, `Chains`), and the
  doubly-linked queue whose back pointers name link cells (`SlabList`).
- **Links of the whole allocator** (`WholeMemory`): every step of the machine is matched with what the
  code does to heads, lengths and link words, with load, link write and compare-exchange of a remote
  push as separate steps, through initialisation, abandonment, adoption and recycling of slabs.
  `RemoteStack` is the same protocol for one slab and one owner, without the machine.
- **Geometry and size classes** (`SizeClasses`, `SlabGeometry`): bit arithmetic, the lookup table
  that speeds it up, slot addresses, alignment, the 16-bit bump cursor.
- **Metrics** (`HeapRegistry`, `Metrics`): counters, the swap-remove registry, the snapshot.
- **The profile encoder** (`Wire`): base-128 varints and length-delimited fields, read back by a
  reader written from the Protocol Buffers encoding specification ("Base 128 Varints",
  "Length-Delimited Records").

Names: a page is its address divided by 64 KiB, a segment is its first page, a slot is a page and an
index; `SlabGeometry.Address` gives the bytes. A panic, an underflow, an index out of range or an
empty list where one is used is the position `Crashed`, so that "never panics" is a theorem.

Where code and comments disagree the model follows the code. `Slab::alloc` pops the free list before
it bumps (src/slab.rs:385-403), while specs/slab.md:32-35 describes the bump region first;
`Slab::init` chains nothing (src/slab.rs:231-240), while the comment at src/slab.rs:275-276 says it
chains all slots; and the comment at src/pool.rs:258-259 says a segment is released when its last
outstanding slab is returned, which holds exactly under the condition of `Theorems.ReleaseExact` (and
a purge that brings the count to zero releases nothing: `Theorems.PurgeKeepsSegments`). The limit of
512 cached pages (src/pool.rs:463) is tested before the push and counted after it: it is kept in all runs
if and only if no two threads are ever between test and count (`Overfull.LimitKept`), and `m` of them can
leave 511 + `m` pages in the cache.

## Model

| member | source | states |
|---|---|---|
| `Theorems.LiveBlockPlaced` | src/heap.rs:106-279 | in every state of every interleaved run every live allocation is one slot of a slab, on no other list, in a page that exactly one list holds, whose segment is registered and mapped |
| `Theorems.LiveBlocksDisjoint` | src/heap.rs:106-279 | in every state of every interleaved run no two live allocations share a byte |
| `Theorems.PagesConserved` | src/pool.rs:164-360 | every page of every registered segment is on exactly one list, and `seg_outstanding` is exactly the number of its pages that are not dirty, clean or uncarved, hence within 0..32 |
| `Theorems.NeverCrashes` | src/pool.rs:372-380 | in no run does a thread reach `unreachable!`, underflow a counter, or use a list entry that is not there |
| `Theorems.CursorInSegment` | src/pool.rs:394-406 | whenever pages are left to carve, the cursor lies in `segments[carving_idx]`, also after swap-removal has renumbered segments |
| `Theorems.ReleaseOnlyFree` | src/pool.rs:278-295 | a segment is given up only when every page is dirty, clean, or the page coming back; none is cached, abandoned, in a heap or in a purge buffer |
| `Theorems.ReleaseExact` | src/pool.rs:278-295 | the segment of a returning page is given up if and only if all its other pages are dirty or clean and the carving cursor does not stand in it |
| `Theorems.SlotsAccounted` | src/slab.rs:364-375 | every slot of every slab is on exactly one list, and `is_fully_free` holds if and only if all are local or uncarved: none live, remote, being pushed or being drained |
| `Theorems.OwnershipExact` | src/heap.rs:254-278 | the header carries a running heap's id if and only if the slab is that heap's active slab, in one of its queues, or being adopted by it now |
| `Theorems.QueuesAlways` | src/heap.rs:303-362 | at every moment of every run: at most one active slab, no slab in two places, class and owner right, some but not all slots free in the partial queue, no free slot in the full queue except in the slab a scan is looking at |
| `Theorems.QueuesSound` | src/heap.rs:303-362 | between calls: at most one active slab, no free slot in the full queue, some but not all slots free in the partial queue, class and owner right, nothing in hand |
| `Theorems.AsksOnlyWhenDry` | src/heap.rs:134-151 | whenever a heap is asking the pool there is no active slab, no partial slab and no free slot in its full queue |
| `Theorems.ReentersOnce` | src/heap.rs:137-148 | the recursive call of `alloc` is served by the active slab at its first step |
| `Theorems.SegmentsConserved` | src/pool.rs:203-302 | the segments taken from the page allocator and not returned are exactly the registered ones and those one thread holds; a thread about to return one holds a mapped segment that is not registered |
| `Theorems.DropGivesBackAll` | src/pool.rs:571-587 | `Drop`, in any run state with no call under way, returns each outstanding segment exactly once and nothing else, wherever its pages are |
| `Theorems.DirtyBound` | src/pool.rs:297-339 | the dirty list is at most 64 plus the threads that have decided to purge and not entered, and at most 64 when no call is under way |
| `Theorems.PurgeLeaves` | src/pool.rs:315-339 | the first section of a purge leaves exactly the dirty pages it found down to 32, or all but 32 of them: it reaches the low-water mark if and only if it finds at most 64, and leaves 33 of 65 |
| `Theorems.PurgeKeepsSegments` | src/pool.rs:349-359 | the second section leaves a registered segment with all pages free, and counter zero, if and only if each page was dirty, clean or in the buffer; no segment leaves the table |
| `Theorems.CacheLengthExact` | src/pool.rs:462-507 | `slab_cache_len` is the length of the cache whenever no thread is between its compare-exchange and its count |
| `Theorems.FailureHasCause` | src/pool.rs:203-218 | a request for a page fails only because the page allocator refuses or because 4096 segments are registered, and then the new segment goes back |
| `Answers.OwnAnswer` | src/heap.rs:106-219 | every step of a thread inside an allocation either goes on with the same call, having handed out exactly one slot of its class if it notes so and none otherwise, or comes to rest with the answer: one slot, or none after a refusal by the pool |
| `Answers.CallAnswered` | src/heap.rs:106-219 | over every history: when a thread that began an allocation of class `c` is at rest again, its own steps have added exactly one allocation, a slot of a slab of class `c`, or none, and then its last step was the refusal of the pool |
| `Answers.ReturnsEmptyOnlyWhenNothingIsLeft` | src/heap.rs:106-219 | a call that works alone and comes to rest without a new allocation leaves nothing to allocate from, anywhere |
| `Precedence.OwnerOnly` | src/heap.rs:118-133 | only the owner of a slab pops, bumps, drains or frees locally; every other thread only pushes on its remote stack |
| `Precedence.PromiseServed` | src/heap.rs:118-148 | over every history: a slab that is active with a free or remotely freed slot when a call looks there, first in the partial queue when it looks there, or made active by the scan, does serve the call before it returns, whatever other threads do |
| `Precedence.ActiveAnswers` | src/heap.rs:141-148 | over every history: a thread inside an allocation with an active slab that has a free slot has its block already or gets one from that slab before it returns |
| `Policies.PoolArrivals` | src/pool.rs:297-301 | in every run a step takes its thread to the cache if and only if the thread asked and the length is below 512, to `dealloc_slab` if and only if it asked and it is not, and to a purge if and only if it leaves `dealloc_slab` without a release and with more than 64 dirty pages |
| `Policies.CacheFirst` | src/pool.rs:462-484 | in runs where the length has always been below 512 no thread has been in `dealloc_slab`, no page is dirty and none is in a purge buffer |
| `Policies.NeverPurges` | src/pool.rs:297-339 | in runs that never had more than 64 dirty pages nobody purges and no page is in a purge buffer |
| `Policies.CacheBounded` | src/pool.rs:462-484 | the cache and the threads about to push are at most 511 plus the largest number of threads ever between the test of the length and the count |
| `Overfull.CacheOverfull` | src/pool.rs:462-484 | that bound is attained: a run with at most `m` threads there at a time leaves 511 + `m` cached pages with nobody there |
| `Overfull.LimitKept` | src/pool.rs:463-463 | all runs with at most `m` threads there keep the limit of 512 cached pages if and only if `m` is at most one |
| `Reclaiming.EndsWhenFree` | src/heap.rs:204-389 | in every run a step gives up a page if and only if it finds every slot of a slab free: judging it in a scan, an adoption or an exit, or freeing its last slot that was out; the slab ends and its page is in the thread's hands |
| `Reclaiming.QueuedFree` | src/heap.rs:255-273 | in every run a free into an own slab that is not active reclaims it when its last slot comes back, promotes it when it was in the full queue, to the active place if and only if no slab was active, and otherwise moves no slab |
| `Reclaiming.ScanJudgesAll` | src/heap.rs:319-342 | over every history a scan that is over has judged every slab that was in the full queue when it began |
| `Reclaiming.ExitIsFinal` | src/global.rs:46-64 | over every history a thread that has begun to exit never allocates or exits again, and has no heap when it is at rest |
| `Safety.StepInv` | src/heap.rs:106-399 | every step of every thread, of the client and of the page allocator keeps the invariant |
| `Safety.RunInv` | src/heap.rs:106-399 | every state of every run satisfies the invariant |
| `Progress.OwnStepDown` | src/heap.rs:106-399 | every step of a thread inside a call lowers a lexicographic measure of what it has left to do |
| `Progress.OtherStepSame` | src/heap.rs:106-399 | no step of another thread changes that measure |
| `Progress.ComesToRest` | src/heap.rs:106-186 | from any state of a run a thread left alone finishes its call in finitely many steps |
| `Progress.EveryCallReturns` | src/heap.rs:106-399 | in every infinite run a thread that keeps getting turns keeps returning to its caller, whatever the others do |
| `Alone.KnownStep` | src/heap.rs:134-219 | a thread working alone keeps what it has learnt while scanning, adopting and asking the pool |
| `Alone.FailsOnlyWhenNothingIsLeft` | src/heap.rs:106-219 | an allocation that works alone is refused only with no active or partial slab, no free or remotely freed slot in its full slabs, no abandoned slab of the class, an empty page cache, and no dirty, clean or uncarved page |
| `Mappings.SegmentCountExact` | src/pool.rs:203-295 | in every run state mappings counted less unmappings counted are the registered segments plus the refusals, so they count segments if and only if nothing was ever refused |
| `Refusal.RefusalHappens` | src/pool.rs:203-218 | a run of 4097 threads reaches 4096 segments, 4097 mappings counted and none unmapped |
| `Mappings.ObtainedOnce` | src/pool.rs:203-302 | over every history each segment was obtained as often as it was given back, plus once if it is mapped now |
| `Mappings.EverySegmentGivenBack` | src/pool.rs:571-587 | over every history followed by `Drop`, each segment is given back exactly as often as it was obtained, through releases, refusals and `Drop` together |
| `Counters.RunCounters` | src/pool.rs:262-339 | in every run state the dirty list is over the high-water mark by at most the threads about to purge, and the cache length is off by exactly the threads between exchange and count |
| `Gauges.RunBytes` | src/metrics.rs:70-83 | in every run state bytes allocated equal bytes freed plus bytes freed past the counters plus the bytes of live slots |
| `Gauges.PageBytes` | src/slab.rs:215-216 | the live slots of one slab take at most the bytes of one page |
| `Gauges.GaugesOrdered` | src/pool.rs:555-568 | allocated (less what threads without a heap freed) is exactly the live bytes, and allocated <= active <= mapped, in every run state |
| `Snapshots.StepAgrees` | src/global.rs:45-122 | every step of the machine is at most one event of the registry, which accepts it and stays in agreement with the byte counters |
| `Snapshots.SnapshotOrdered` | src/pool.rs:555-568 | in any state of any history without large allocations, the totals summed over dead and registered heaps are balanced, `allocated` computed from them is the live bytes plus those freed without a heap, and apart from the latter allocated <= active <= mapped |
| `SlotSteps.AllocHitOK` | src/heap.rs:118-133 | a slot taken from the active slab becomes live and nothing else moves |
| `SlotSteps.FreeBinOK` | src/heap.rs:246-252 | a free into the active slab keeps the invariant, and the layout's class is the slab's |
| `SlotSteps.FreeRemoteOK` | src/global.rs:184-192 | a free by a thread with another heap or none only takes the slot into the thread's hands |
| `SlotSteps.PushOK` | src/slab.rs:128-143 | the successful compare-exchange files the slot on the remote stack of its own slab |
| `SlotSteps.SwapOK` | src/slab.rs:166-168 | the swap of a drain moves the whole remote stack and nothing else |
| `SlotSteps.DrainMoveOK` | src/slab.rs:439-446 | each turn of the drain loop moves one slot to the local list |
| `SlabSteps.FreeQueuedOK` | src/heap.rs:254-273 | after a free into an own, inactive slab `free_count() == 1` holds if and only if the slab was in the full queue, so promotion unlinks from the right queue |
| `SlabSteps.HandOffOK` | src/heap.rs:344-353 | a fully free slab given to the cache leaves no slot behind: the page becomes a free page and the invariant holds |
| `PageSteps.FreeBound` | src/slab.rs:364-375 | `free_count` never exceeds `slot_count`, and at `slot_count` every slot is local or uncarved |
| `PageSteps.RetireOK` | src/heap.rs:355-362 | retiring files the exhausted active slab in the full queue |
| `PageSteps.PartialsHitOK` | src/heap.rs:301-310 | `try_partial` never overwrites an occupied bin, and what it installs has a free slot |
| `PageSteps.ScanMoveOK` | src/heap.rs:333-340 | a slab with free slots found by the scan goes to the empty bin or to the partial queue |
| `PageSteps.AdoptQueueOK` | src/heap.rs:206-215 | adopted slabs beyond the first are queued by their free count |
| `PageSteps.AbandonOK` | src/pool.rs:417-442 | an abandoned slab goes to the stack of its own class |
| `PageSteps.CachePushOK` | src/pool.rs:462-484 | a page pushed to the cache was in the pusher's hands alone |
| `PageSteps.UncacheOK` | src/pool.rs:489-507 | a page popped from the cache is in the popper's hands alone |
| `ControlSteps.ScanControlOK` | src/heap.rs:141-148 | after the scan an empty bin means an empty partial queue: the second `try_partial` never fires |
| `LifeSteps.AdoptTakeOK` | src/pool.rs:448-455 | one swap takes all abandoned slabs of the class, and no slab is in two hands |
| `LifeSteps.AdoptClaimOK` | src/heap.rs:196-201 | writing the heap id to an adopted slab keeps ownership exact |
| `LifeSteps.AdoptAllocOK` | src/heap.rs:206-210 | the bin an adopted slab is stored to is empty |
| `LifeSteps.InitOK` | src/heap.rs:169-176 | the bin a fresh slab is stored to is empty, and all its slots but the one handed out are in the bump region |
| `LifeSteps.NothingLeft` | src/heap.rs:382-399 | when `drop` has gone through all classes, no page is filed under the heap any more |
| `LifeSteps.DropEndOK` | src/heap.rs:382-399 | the heap can then be destroyed: the invariant holds without it |
| `PoolSteps.AllocSectionOK` | src/pool.rs:164-194 | the first section of `alloc_slab` does not panic and moves one free page to the caller, counters following |
| `PoolSteps.RegisterOK` | src/pool.rs:203-250 | a new segment is disjoint from all pages known, its first page goes to the caller and the others become uncarved or clean |
| `PoolSteps.ReturnedOK` | src/pool.rs:262-276 | a returned page joins the dirty list and leaves its segment's count, which was positive |
| `PoolSteps.AllOnFreeLists` | src/pool.rs:278-278 | a segment with count zero that the cursor is not in has all its pages dirty or clean |
| `PoolSteps.ReleaseOK` | src/pool.rs:278-286 | unlinking its pages and swap-removing the segment keeps counters, cursor and lists exact |
| `PoolSteps.ReleasedExactly` | src/pool.rs:278-278 | the test of `dealloc_slab` holds if and only if every other page is dirty or clean and the cursor is not in the segment |
| `PoolSteps.PurgeTakeOK` | src/pool.rs:320-339 | buffered pages stay counted; the buffer never exceeds 32, and exactly so many dirty pages are left |
| `PoolSteps.PurgeReturnOK` | src/pool.rs:349-359 | exactly the buffered pages become clean and leave the counts; no segment is renumbered away under them |
| `PoolOpSteps.ReleaseSafe` | src/pool.rs:278-295 | in the machine, a release takes one registered segment out and its pages were dirty, clean or the returning one |
| `PoolDrop.DeallocOK` | src/pool.rs:262-302 | `dealloc_slab` alone does not panic, gives back at most one registered segment, and keeps the dirty list within 64 |
| `PoolDrop.LonePurgeLeaves33` | src/pool.rs:297-339 | a lone `dealloc_slab` that purges starts from 65 dirty pages and leaves 33, one above the low-water mark |
| `PurgeExample.Consistent` | src/pool.rs:320-359 | three fully carved segments, 34 dirty pages and 32 in a purge buffer: lists tiled, counters exact, cursor right |
| `PurgeExample.LastPageReturns` | src/pool.rs:269-297 | the last page in use of the first segment comes back, and the segment is kept because the buffer counts |
| `PurgeExample.PurgeKeepsFreeSegment` | src/pool.rs:349-359 | the buffer is returned: all 32 pages of the segment are free, and it is still registered |
| `PoolDrop.DropExact` | src/pool.rs:571-587 | from any consistent pool `Drop` does not panic and returns every registered segment exactly once |
| `PagePool.PoolState.SegmentOf` | src/pool.rs:372-380 | the loop returns the first registered segment around the page |
| `PagePool.PoolState.Alloc` | src/pool.rs:164-194 | dirty list, then clean list, then carving, in place |
| `PagePool.PoolState.Register` | src/pool.rs:205-249 | registering in place, with the loop that pushes the other pages; refusal at capacity |
| `PagePool.PoolState.SwapRemoveSegment` | src/pool.rs:394-406 | both arrays and the carving index are renumbered together |
| `PagePool.PoolState.DeallocSlab` | src/pool.rs:262-297 | returning a page in place; the segment to give back, or whether to purge |
| `PagePool.PoolState.TakeDirty` | src/pool.rs:320-339 | the loop that fills the purge buffer |
| `PagePool.PoolState.ReturnClean` | src/pool.rs:349-359 | the loop that moves the buffer to the clean list |
| `PagePool.PoolState.Drop` | src/pool.rs:571-587 | both loops of `Drop`: what goes back is a permutation of the registered segments |
| `PageList.PageFreeList.Push` | src/pool.rs:53-58 | cons on a list threaded through the pages, length exact |
| `PageList.PageFreeList.Pop` | src/pool.rs:60-66 | head and tail |
| `PageList.PageFreeList.RemoveSegment` | src/pool.rs:69-83 | walking with a pointer to the link, exactly the pages of the segment leave, the rest keep their order, length exact |
| `SlabList.Push` | src/slab.rs:541-550 | cons; every back pointer names the one cell that holds its node |
| `SlabList.Pop` | src/slab.rs:553-566 | head and tail, and the popped slab is unlinked |
| `SlabList.Remove` | src/slab.rs:572-587 | delete at any position, although the code is not told the list |
| `SlabList.RemoveBeside` | src/slab.rs:572-587 | no other list notices a removal |
| `RemoteStack.StepSimulates` | src/slab.rs:128-168 | every memory step (load, link write, compare-exchange that may fail, swap, walk, pop, bump, local free, client write) is one list move of the machine or none |
| `RemoteStack.RunRep` | src/slab.rs:128-168 | in every interleaving memory stands for lists |
| `RemoteStack.ChainsSound` | src/slab.rs:431-449 | in every interleaving the three chains end, repeat nothing and are the only ones memory holds, and every slot is in exactly one place, even when a loaded head is drained, reused and pushed again before the compare-exchange |
| `WholeMemory.EventIs` | src/slab.rs:128-168 | every event of the machine is exactly one move of slots (pop, bump, initialise, swap, walk, local free, start of a push, end of a push) or none |
| `WholeMemory.TickStands` | src/slab.rs:76-168 | each such move done to heads, lengths, cursors and link words, and each link write, failed compare-exchange or client write in between, keeps memory standing for the machine's lists |
| `WholeMemory.MemoryTruth` | src/slab.rs:381-449 | in every run of machine and memory the links of every slab spell exactly its remote and local lists, and null heads and `len` say what the machine tests |
| `WholeMemory.CursorTruth` | src/slab.rs:431-449 | the chain a thread is draining is the machine's |
| `WholeMemory.PoppedIsHead` | src/slab.rs:381-392 | an allocation from the local list hands out the slot memory has at its head |
| `WholeMemory.MemoryRunReaches` | src/heap.rs:106-399 | every state of such a run is a state of a run of the machine, so all theorems about runs hold of it |
| `Slab.SlabState.constructor` | src/slab.rs:211-244 | every slot uncarved, nothing chained, slots of the class size from the least offset on, as many as fill the page |
| `Slab.SlabState.Alloc` | src/slab.rs:381-406 | local list first, then the address of the next slot although the cursor wraps at 16 bits; what is handed out is on no list; `None` if and only if both are empty |
| `Slab.SlabState.DeallocLocal` | src/slab.rs:411-418 | cons on the local list, remote stack untouched |
| `Slab.SlabState.PushRemote` | src/slab.rs:128-143 | cons on the remote stack, local list untouched |
| `Slab.SlabState.DrainRemote` | src/slab.rs:431-449 | the local list becomes the reversed remote stack followed by the old local list; the count is exact |
| `Slab.SlabState.FreeCount` | src/slab.rs:364-368 | local length plus uncarved, at most `slot_count`, with equality if and only if every slot is one or the other |
| `Slab.SlabState.IsFullyFree` | src/slab.rs:373-375 | true if and only if every slot is uncarved or local, and then the remote stack is empty |
| `SizeClasses.IndexIsLeastFit` | src/size_class.rs:21-38 | the bit arithmetic gives the first class that holds the size, for any top exponent |
| `SizeClasses.IndexOfSize` | src/size_class.rs:71-84 | `class_size` is inverted by `class_index_from_size`, for any top exponent |
| `SizeClasses.WasteAtMostQuarter` | src/size_class.rs:5-6 | a class is at most a quarter larger than the size it serves |
| `SizeClasses.BuildTable` | src/size_class.rs:43-53 | the filled table, looked up at `(size - 1) >> 1`, gives the first class that holds the size |
| `SizeClasses.LookupExact` | src/size_class.rs:40-53 | the two-byte-granular lookup equals the bit arithmetic on every size |
| `SizeClasses.ClassIndexRight` | src/size_class.rs:61-67 | for every nonempty layout: `None` if and only if the rounded size is too large, else the least class that is large enough and a multiple of the alignment, with at most a quarter waste |
| `SlabGeometry.RoomForOne` | src/slab.rs:211-217 | the header leaves room for at least one slot of every class |
| `SlabGeometry.LeastOffset` | src/slab.rs:215-215 | the first slot starts at the least multiple of the class size past the header |
| `SlabGeometry.SlotsFillPage` | src/slab.rs:216-216 | the slot count is as many slots as fit: the last one ends within the page and one more would pass its end |
| `SlabGeometry.SlotInPage` | src/slab.rs:246-250 | every byte of a slot lies past the header in its own page, and masking recovers the page |
| `SlabGeometry.SlotsDisjoint` | src/slab.rs:211-244 | different slots share no byte |
| `SlabGeometry.SlotAligned` | src/slab.rs:211-216 | every slot of a class is aligned to whatever divides the class size |
| `SlabGeometry.LayoutServed` | src/size_class.rs:61-84 | any slot of a layout's class holds the size, is aligned, clears the header and stays in the page |
| `SlabGeometry.CursorExact` | src/slab.rs:395-403 | the 16-bit cursor is exact until the last carve, and wraps only there and only to zero |
| `HeapRegistry.RecordedAdds` | src/metrics.rs:69-101 | each act adds to each counter exactly its amount |
| `HeapRegistry.RunIndexed` | src/metrics.rs:158-189 | in every run entry `i` records index `i`, entries are distinct registered heaps, and no enabled event panics |
| `HeapRegistry.DeregisterKeeps` | src/metrics.rs:170-189 | deregistration changes no total of a snapshot |
| `HeapRegistry.RunTotals` | src/metrics.rs:105-200 | in every run dead plus live sums are what all heaps ever registered have recorded |
| `HeapRegistry.RunBalanced` | src/metrics.rs:69-96 | in every run byte totals are the sums over classes plus large, and class bytes are counts times the class size |
| `Metrics.HeapMetrics.OnAlloc` | src/metrics.rs:70-75 | three counters move, in place |
| `Metrics.HeapMetrics.OnDealloc` | src/metrics.rs:78-83 | three counters move, in place |
| `Metrics.HeapMetrics.OnLargeAlloc` | src/metrics.rs:86-90 | three counters move, in place |
| `Metrics.HeapMetrics.OnLargeDealloc` | src/metrics.rs:93-96 | two counters move, in place |
| `Metrics.HeapMetrics.OnRemoteFree` | src/metrics.rs:99-101 | one counter moves, in place |
| `Metrics.HeapMetrics.Accumulate` | src/metrics.rs:105-118 | every counter of the other heap is added, the other heap is untouched |
| `Metrics.AddClasses` | src/metrics.rs:112-117 | the loop of `accumulate` over the classes adds every per-class counter |
| `Metrics.PoolMetrics.RegisterHeap` | src/metrics.rs:158-168 | the next entry and its index, or the "registry full" panic with nothing changed |
| `Metrics.PoolMetrics.DeregisterHeap` | src/metrics.rs:170-189 | folding, swap-removal and renumbering in place; entry `i` still records index `i` and no total changes |
| `Metrics.PoolMetrics.AggregateHeapMetrics` | src/metrics.rs:192-200 | the loop sums dead and registered heaps |
| `Metrics.MetricsSnapshot.Finalize` | src/metrics.rs:289-297 | live counts and bytes by class on signed 64-bit words, exact if and only if they fit; `allocated` saturates, and is their sum plus live large bytes when they fit and no more was freed than allocated |
| `Metrics.SignedMinusExact` | src/metrics.rs:291-294 | the difference of two signed casts is the difference of the counters if and only if it fits a signed word |
| `Metrics.LiveBytesAdd` | src/metrics.rs:289-297 | bytes allocated minus freed are the live bytes of all classes plus live large bytes |
| `Wire.VarintLength` | src/pprof.rs:504-514 | `n` bytes suffice if and only if the value is below 128 to the `n` |
| `Wire.VarintShort` | src/pprof.rs:504-514 | a 64-bit value takes at most ten bytes |
| `Wire.VarintBack` | src/pprof.rs:504-514 | it reads back as itself with the rest untouched |
| `Wire.MessageBack` | src/pprof.rs:516-529 | every sequence of fields nested to any depth reads back as itself if and only if all field numbers are legal, and is rejected otherwise |
| `Wire.EncodedInjective` | src/pprof.rs:516-529 | under one schema, different messages with legal field numbers have different bytes |
| `Wire.ByteBuffer.EncodeVarint` | src/pprof.rs:504-514 | the loop ends, appends at most ten bytes, and they read back as the value |
| `Wire.ByteBuffer.EncodeVarintField` | src/pprof.rs:516-519 | appends one number field |
| `Wire.ByteBuffer.EncodeField` | src/pprof.rs:521-525 | appends one length-delimited field, which is also the field holding any message with these bytes |
| `Wire.EncodeValueType` | src/pprof.rs:531-536 | reads back under every schema as field 1 and field 2 |
| `Wire.EncodeLabel` | src/pprof.rs:538-543 | reads back under every schema as field 1 and field 2 |

## Left out

- heap.rs as a class: its loops are interrupted by other threads at every turn, so `Heap` is the
  per-thread part of the machine's state and each turn of a loop is a step; update in place of
  headers, lists and links is in `Slab`, `SlabList`, `WholeMemory` and `PagePool`.
- `PageSteps.UncacheOK`: the pop of `uncache_slab` is one atomic step, without the window between
  reading the next link and the compare-exchange, in which the head carries no tag
  (src/pool.rs:489-507).
- `Progress.EveryCallReturns`: says nothing about starvation at the pool lock or in a
  compare-exchange loop. The lock and the retries of `abandon_slab` and `cache_slab` are one step
  each, taken when they succeed; the push loop with its retries is in `WholeMemory` and `RemoteStack`.
- Memory ordering, cache-line padding and Rust aliasing: memory is sequentially consistent.
- The operating system (src/sys.rs): the page allocator returns a fresh, disjoint, nonnull range or
  nothing; page contents and `madvise` are not modelled.
- pthread and TLS plumbing and zero-size layouts (src/global.rs), except that a thread without a heap
  may free remotely.
- Double frees, and frees with a layout that does not match, which `dealloc` excludes.
- Large allocations beyond their counters: in `Gauges.GaugesOrdered` they are one common term, and
  `Snapshots.SnapshotOrdered` is about histories without them.
- `Gauges.GaugesOrdered`: bytes freed by threads without a heap are subtracted, because those frees bypass
  the counters (src/global.rs:184-197).
- Counter updates happen in the same step as what they count; a slot allocated while adopting counts
  as live, and as allocated, from the step that takes it.
- Widths: counters of metrics.rs and `segment_cursor` are unbounded (only `finalize` sees 64-bit words,
  with subtraction that wraps as in a release build); `seg_outstanding` is at most 32
  by `PagesConserved`, slot counts fit 16 bits by `SlabGeometry`, and the bump cursor is modelled
  with its wrap-around. The header is 72 bytes, as on a 64-bit target.
- Per-class counters of a heap are sequence fields rather than arrays; the two page lists of
  `PagePool` have separate link memories.
- `push_chain`, the test-only `drain_remote_all` (src/heap.rs:281-297), event counters that are only
  copied into a snapshot (src/metrics.rs:202-207), and all benches.
- Profile sampling, weights, backtraces and compression (src/pprof.rs outside lines 504-543).
