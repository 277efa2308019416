/**
 The allocator as an interleaving of threads.

 A thread runs `Heap::alloc`, `Heap::dealloc` or `Heap::drop` one step at a time: a step ends at
 every access to memory that other threads also use (a remote stack, an abandoned stack, the page
 cache, the pool lock, the page allocator). `Op` is the thread's position in heap.rs and `PoolOp`
 its position in pool.rs. Every list of pages or slots is a sequence, filed under its place.
 */
module System {
  import opened Places
  import opened Tiling
  import opened PoolSections
  import opened SizeClasses
  import opened SlabGeometry

  const SLAB_CACHE_MAX: int := 512

  /** The immutable part of a slab header, and its owner. */
  datatype Header = Header(sizeClass: nat, heapId: nat)

  datatype HeapSlot = Uninit | Running(id: nat) | Destroyed

  /** Where a thread goes on when it has moved a drained chain to the local list. */
  datatype Cont = ToRetry(c: nat) | ToScan(c: nat, k: nat) | ToAdopt(c: nat, got: bool) | ToDrop(c: nat)

  datatype Op =
    | Idle
    | Alloc(c: nat, again: bool)      // entry of `alloc`; `again` marks the recursive call
    | Retry(c: nat)                   // second `slab.alloc()`, after the drain
    | Partials(c: nat)                // first `try_partial`
    | Scan(c: nat, k: nat)            // `scan_full_list`, at position `k` of the full queue
    | ScanSwap(c: nat, k: nat)        //   remote frees were seen: drain them
    | ScanJudge(c: nat, k: nat)       //   decide what becomes of the slab
    | AdoptLoad(c: nat)               // `adopt_all`: is the stack empty?
    | AdoptTake(c: nat)               //   swap it out
    | Adopt(c: nat, got: bool)        // `try_adopt` loop; `got` when a slot has been allocated
    | AdoptDrain(c: nat, got: bool)   //   the slab is claimed: drain it
    | AdoptJudge(c: nat, got: bool)   //   decide what becomes of the slab
    | Fresh(c: nat)                   // `uncache_slab`, else `alloc_slab`
    | Await(c: nat)                   // inside the pool, waiting for a page
    | Drain(p: Page, next: Cont)      // walking a drained chain
    | Push                            // inside `dealloc_remote`
    | Drop(c: nat)                    // `drop`, at class `c`
    | DropDrain(c: nat)
    | DropJudge(c: nat)
    | Abandon(c: nat)                 // inside `abandon_slab`
    | Crashed                         // panic, or use of something that is not there

  datatype PoolOp =
    | PIdle
    | CacheEnter | CachePush | CacheCount           // `cache_slab`
    | UncacheCount                                  // `uncache_slab` after its pop
    | DeallocEnter | PurgeEnter | PurgeExit         // `dealloc_slab`, `purge_excess`
    | AllocEnter | Mmap | Register                  // `alloc_slab`, `alloc_slab_slow`
    | Unmap(refused: bool)                          // giving a segment back
    | Got | Failed                                  // the answer to a waiting heap

  datatype Thread = Thread(heap: HeapSlot, op: Op, pool: PoolOp)

  /** `segment_mmap_count`, `segment_munmap_count`, and how often a new segment was refused. */
  datatype MapCounts = MapCounts(mmaps: nat, munmaps: nat, refused: nat)

  datatype State = State(
    pool: Pool,
    pages: map<PagePlace, seq<Page>>,               // lists outside the pool lock
    cacheLen: int,                                  // `slab_cache_len`; negative = wrapped around
    slabs: map<Page, Header>,
    slots: map<SlotPlace, seq<Slot>>,
    spans: map<SpanPlace, seq<nat>>,                // segments in flight
    mapped: set<nat>,                               // segments the page allocator has handed out
    maps: MapCounts,
    threads: map<Tid, Thread>,
    nextHeap: nat,
    nextId: nat,
    allocBytes: nat, freeBytes: nat,                // totals over all `HeapMetrics`
    lostBytes: nat)                                 // freed by threads that have no heap

  // ----- helpers

  function SetOp(s: State, t: Tid, op: Op): State
    requires t in s.threads
  {
    s.(threads := s.threads[t := s.threads[t].(op := op)])
  }

  function SetPool(s: State, t: Tid, po: PoolOp): State
    requires t in s.threads
  {
    s.(threads := s.threads[t := s.threads[t].(pool := po)])
  }

  function Crash(s: State, t: Tid): State
    requires t in s.threads
  {
    SetOp(s, t, Crashed)
  }

  /** `free_count`. */
  function Free(s: State, p: Page): nat {
    |At(s.slots, Local(p))| + |At(s.slots, Virgin(p))|
  }

  /** `is_fully_free`. */
  predicate FullyFree(s: State, p: Page)
    requires p in s.slabs
  {
    Free(s, p) == SlotCount(s.slabs[p].sizeClass)
  }

  function MovePage(s: State, a: PagePlace, i: nat, b: PagePlace): State
    requires i < |At(s.pages, a)|
  {
    s.(pages := Shift(s.pages, a, i, b))
  }

  /** `slab.alloc()`: the local list first, then the bump region. */
  function SlabAlloc(s: State, p: Page): State
    requires Free(s, p) > 0 && p in s.slabs
  {
    var from := if At(s.slots, Local(p)) != [] then Local(p) else Virgin(p);
    s.(slots := Shift(s.slots, from, 0, Live(s.nextId)), nextId := s.nextId + 1,
       allocBytes := s.allocBytes + ClassSize(s.slabs[p].sizeClass))
  }

  /** The atomic swap of `drain_remote`. */
  function SwapRemote(s: State, t: Tid, p: Page, next: Cont): State
    requires t in s.threads
  {
    SetOp(s.(slots := Pour(s.slots, Remote(p), Draining(t))), t, Drain(p, next))
  }

  /** A fully free slab stops being a slab; its page goes to `cache_slab`. */
  function HandOff(s: State, t: Tid, a: PagePlace, i: nat): State
    requires t in s.threads && i < |At(s.pages, a)|
  {
    var p := At(s.pages, a)[i];
    SetPool(MovePage(s, a, i, Raw(t)).(slabs := s.slabs - {p}, slots := s.slots[Local(p) := []][Virgin(p) := []]),
            t, CacheEnter)
  }

  function AllSlots(p: Page, c: nat): (q: seq<Slot>)
    ensures |q| == SlotCount(c)
  {
    seq(SlotCount(c), i requires 0 <= i => Slot(p, i))
  }

  // ----- Heap::alloc

  function StepAlloc(s: State, t: Tid, c: nat): State
    requires t in s.threads
  {
    var bin := At(s.pages, Bin(t, c));
    if bin == [] then SetOp(s, t, Partials(c))
    else if bin[0] !in s.slabs then Crash(s, t)
    else if Free(s, bin[0]) > 0 then SetOp(SlabAlloc(s, bin[0]), t, Idle)
    else SwapRemote(s, t, bin[0], ToRetry(c))
  }

  function StepRetry(s: State, t: Tid, c: nat): State
    requires t in s.threads
  {
    var bin := At(s.pages, Bin(t, c));
    if bin == [] || bin[0] !in s.slabs then Crash(s, t)
    else if Free(s, bin[0]) > 0 then SetOp(SlabAlloc(s, bin[0]), t, Idle)
    else SetOp(MovePage(s, Bin(t, c), 0, Full(t, c)), t, Partials(c))
  }

  function StepPartials(s: State, t: Tid, c: nat): State
    requires t in s.threads
  {
    if At(s.pages, Partial(t, c)) != [] then
      SetOp(MovePage(s, Partial(t, c), 0, Bin(t, c)), t, Alloc(c, true))
    else SetOp(s, t, Scan(c, 0))
  }

  function StepDrain(s: State, t: Tid, p: Page, next: Cont): State
    requires t in s.threads
  {
    if At(s.slots, Draining(t)) != [] then s.(slots := Shift(s.slots, Draining(t), 0, Local(p)))
    else
      SetOp(s, t,
            match next
            case ToRetry(c) => Retry(c)
            case ToScan(c, k) => ScanJudge(c, k)
            case ToAdopt(c, got) => AdoptJudge(c, got)
            case ToDrop(c) => DropJudge(c))
  }

  // ----- scan_full_list

  function StepScan(s: State, t: Tid, c: nat, k: nat): State
    requires t in s.threads
  {
    var full := At(s.pages, Full(t, c));
    if k < |full| then
      SetOp(s, t, if At(s.slots, Remote(full[k])) != [] then ScanSwap(c, k) else ScanJudge(c, k))
    else if At(s.pages, Bin(t, c)) != [] then SetOp(s, t, Alloc(c, true))
    else if At(s.pages, Partial(t, c)) != [] then
      SetOp(MovePage(s, Partial(t, c), 0, Bin(t, c)), t, Alloc(c, true))
    else SetOp(s, t, AdoptLoad(c))
  }

  function StepScanSwap(s: State, t: Tid, c: nat, k: nat): State
    requires t in s.threads
  {
    var full := At(s.pages, Full(t, c));
    if k < |full| then SwapRemote(s, t, full[k], ToScan(c, k)) else Crash(s, t)
  }

  function StepScanJudge(s: State, t: Tid, c: nat, k: nat): State
    requires t in s.threads
  {
    var full := At(s.pages, Full(t, c));
    if k >= |full| || full[k] !in s.slabs then Crash(s, t)
    else if FullyFree(s, full[k]) then SetOp(HandOff(s, t, Full(t, c), k), t, Scan(c, k))
    else if Free(s, full[k]) > 0 then
      var to := if At(s.pages, Bin(t, c)) == [] then Bin(t, c) else Partial(t, c);
      SetOp(MovePage(s, Full(t, c), k, to), t, Scan(c, k))
    else SetOp(s, t, Scan(c, k + 1))
  }

  // ----- request_slab, try_adopt

  function StepAdoptLoad(s: State, t: Tid, c: nat): State
    requires t in s.threads
  {
    SetOp(s, t, if At(s.pages, Abandoned(c)) == [] then Fresh(c) else AdoptTake(c))
  }

  function StepAdoptTake(s: State, t: Tid, c: nat): State
    requires t in s.threads
  {
    SetOp(s.(pages := Pour(s.pages, Abandoned(c), Hand(t))), t, Adopt(c, false))
  }

  function StepAdopt(s: State, t: Tid, c: nat, got: bool): State
    requires t in s.threads
  {
    var chain := At(s.pages, Hand(t));
    if chain == [] then SetOp(s, t, if got then Idle else Fresh(c))
    else if chain[0] !in s.slabs || !s.threads[t].heap.Running? then Crash(s, t)
    else SetOp(s.(slabs := s.slabs[chain[0] := s.slabs[chain[0]].(heapId := s.threads[t].heap.id)]),
               t, AdoptDrain(c, got))
  }

  function StepAdoptDrain(s: State, t: Tid, c: nat, got: bool): State
    requires t in s.threads
  {
    var chain := At(s.pages, Hand(t));
    if chain == [] then Crash(s, t) else SwapRemote(s, t, chain[0], ToAdopt(c, got))
  }

  function StepAdoptJudge(s: State, t: Tid, c: nat, got: bool): State
    requires t in s.threads
  {
    var chain := At(s.pages, Hand(t));
    if chain == [] || chain[0] !in s.slabs then Crash(s, t)
    else if FullyFree(s, chain[0]) then SetOp(HandOff(s, t, Hand(t), 0), t, Adopt(c, got))
    else if !got && Free(s, chain[0]) > 0 then
      SetOp(MovePage(SlabAlloc(s, chain[0]), Hand(t), 0, Bin(t, c)), t, Adopt(c, true))
    else if Free(s, chain[0]) > 0 then SetOp(MovePage(s, Hand(t), 0, Partial(t, c)), t, Adopt(c, got))
    else SetOp(MovePage(s, Hand(t), 0, Full(t, c)), t, Adopt(c, got))
  }

  function StepFresh(s: State, t: Tid, c: nat): State
    requires t in s.threads
  {
    if At(s.pages, Cached) != [] then
      SetOp(SetPool(MovePage(s, Cached, 0, Raw(t)), t, UncacheCount), t, Await(c))
    else SetOp(SetPool(s, t, AllocEnter), t, Await(c))
  }

  /** `Slab::init`, `slab.alloc()` and the store to the bin; or `None`. */
  function StepAwait(s: State, t: Tid, c: nat): State
    requires t in s.threads
  {
    var th := s.threads[t];
    var raw := At(s.pages, Raw(t));
    if th.pool.Failed? then SetOp(SetPool(s, t, PIdle), t, Idle)
    else if !th.pool.Got? || raw == [] || !th.heap.Running? then Crash(s, t)
    else
      var p := raw[0];
      var s1 := MovePage(s, Raw(t), 0, Bin(t, c)).(
                slabs := s.slabs[p := Header(c, th.heap.id)],
                slots := s.slots[Virgin(p) := AllSlots(p, c)]);
      SetOp(SetPool(SlabAlloc(s1, p), t, PIdle), t, Idle)
  }

  // ----- Heap::dealloc

  function IndexOf<K(==)>(q: seq<K>, k: K): (i: nat)
    requires k in q
    ensures i < |q| && q[i] == k
  {
    if q[0] == k then 0 else 1 + IndexOf(q[1..], k)
  }

  /** The queue of heap `t` that holds `p`, as its back pointer would find it. */
  function QueueOf(s: State, t: Tid, c: nat, p: Page): PagePlace {
    if p in At(s.pages, Full(t, c)) then Full(t, c) else Partial(t, c)
  }

  /** The client frees allocation `id` on thread `t`. */
  function StepFree(s: State, t: Tid, id: nat): State
    requires t in s.threads && At(s.slots, Live(id)) != []
  {
    var x := At(s.slots, Live(id))[0];
    var p := x.page;
    if p !in s.slabs then Crash(s, t)
    else
      var c := s.slabs[p].sizeClass;
      var heap := s.threads[t].heap;
      if !heap.Running? then FreeRemote(s, t, id).(lostBytes := s.lostBytes + ClassSize(c))
      else
        var s0 := s.(freeBytes := s.freeBytes + ClassSize(c));
        var s1 := s0.(slots := Shift(s.slots, Live(id), 0, Local(p)));
        if At(s.pages, Bin(t, c)) == [p] then s1
        else if s.slabs[p].heapId == heap.id then FreeQueued(s1, t, c, p)
        else FreeRemote(s0, t, id)
  }

  function FreeRemote(s: State, t: Tid, id: nat): State
    requires t in s.threads && At(s.slots, Live(id)) != []
  {
    SetOp(s.(slots := Shift(s.slots, Live(id), 0, Pushing(t))), t, Push)
  }

  /** What follows `dealloc_local` on a slab of ours that is not active. */
  function FreeQueued(s: State, t: Tid, c: nat, p: Page): State
    requires t in s.threads && p in s.slabs
  {
    var a := QueueOf(s, t, c, p);
    if p !in At(s.pages, a) then Crash(s, t)
    else
      var i := IndexOf(At(s.pages, a), p);
      if FullyFree(s, p) then HandOff(s, t, a, i)
      else if Free(s, p) == 1 then
        MovePage(s, a, i, if At(s.pages, Bin(t, c)) == [] then Bin(t, c) else Partial(t, c))
      else s
  }

  /** The successful compare-exchange of `dealloc_remote`. */
  function StepPush(s: State, t: Tid): State
    requires t in s.threads
  {
    var q := At(s.slots, Pushing(t));
    if q == [] || q[0].page !in s.slabs then Crash(s, t)
    else SetOp(s.(slots := Shift(s.slots, Pushing(t), 0, Remote(q[0].page))), t, Idle)
  }

  // ----- Heap::drop

  function StepDrop(s: State, t: Tid, c: nat): State
    requires t in s.threads
  {
    if c >= NUM_CLASSES then
      SetOp(s.(threads := s.threads[t := s.threads[t].(heap := Destroyed)]), t, Idle)
    else if At(s.pages, Bin(t, c)) != [] then SetOp(MovePage(s, Bin(t, c), 0, Hand(t)), t, DropDrain(c))
    else if At(s.pages, Full(t, c)) != [] then SetOp(MovePage(s, Full(t, c), 0, Hand(t)), t, DropDrain(c))
    else if At(s.pages, Partial(t, c)) != [] then SetOp(MovePage(s, Partial(t, c), 0, Hand(t)), t, DropDrain(c))
    else SetOp(s, t, Drop(c + 1))
  }

  function StepDropDrain(s: State, t: Tid, c: nat): State
    requires t in s.threads
  {
    var hand := At(s.pages, Hand(t));
    if hand == [] then Crash(s, t) else SwapRemote(s, t, hand[0], ToDrop(c))
  }

  function StepDropJudge(s: State, t: Tid, c: nat): State
    requires t in s.threads
  {
    var hand := At(s.pages, Hand(t));
    if hand == [] || hand[0] !in s.slabs then Crash(s, t)
    else if FullyFree(s, hand[0]) then SetOp(HandOff(s, t, Hand(t), 0), t, Drop(c))
    else SetOp(s, t, Abandon(c))
  }

  /** The successful compare-exchange of `abandon_slab`. */
  function StepAbandon(s: State, t: Tid, c: nat): State
    requires t in s.threads
  {
    var hand := At(s.pages, Hand(t));
    if hand == [] || hand[0] !in s.slabs then Crash(s, t)
    else SetOp(MovePage(s, Hand(t), 0, Abandoned(s.slabs[hand[0]].sizeClass)), t, Drop(c))
  }

  function StepOp(s: State, t: Tid): State
    requires t in s.threads
  {
    match s.threads[t].op
    case Idle => s
    case Alloc(c, _) => StepAlloc(s, t, c)
    case Retry(c) => StepRetry(s, t, c)
    case Partials(c) => StepPartials(s, t, c)
    case Scan(c, k) => StepScan(s, t, c, k)
    case ScanSwap(c, k) => StepScanSwap(s, t, c, k)
    case ScanJudge(c, k) => StepScanJudge(s, t, c, k)
    case AdoptLoad(c) => StepAdoptLoad(s, t, c)
    case AdoptTake(c) => StepAdoptTake(s, t, c)
    case Adopt(c, got) => StepAdopt(s, t, c, got)
    case AdoptDrain(c, got) => StepAdoptDrain(s, t, c, got)
    case AdoptJudge(c, got) => StepAdoptJudge(s, t, c, got)
    case Fresh(c) => StepFresh(s, t, c)
    case Await(c) => StepAwait(s, t, c)
    case Drain(p, next) => StepDrain(s, t, p, next)
    case Push => StepPush(s, t)
    case Drop(c) => StepDrop(s, t, c)
    case DropDrain(c) => StepDropDrain(s, t, c)
    case DropJudge(c) => StepDropJudge(s, t, c)
    case Abandon(c) => StepAbandon(s, t, c)
    case Crashed => s
  }

  // ----- the pool

  function StepDealloc(s: State, t: Tid): State
    requires t in s.threads
  {
    var raw := At(s.pages, Raw(t));
    if raw == [] then Crash(s, t)
    else
      var s1 := s.(pages := s.pages[Raw(t) := raw[1..]]);
      match DeallocSection(s.pool, raw[0])
      case DeallocPanic => Crash(s, t)
      case DeallocKept(o, purge) => SetPool(s1.(pool := o), t, if purge then PurgeEnter else PIdle)
      case DeallocReleased(o, base) =>
        var s2 := s1.(maps := s.maps.(munmaps := s.maps.munmaps + 1));
        SetPool(s2.(pool := o, spans := s.spans[Flight(t) := [base]]), t, Unmap(false))
  }

  function StepPurgeEnter(s: State, t: Tid): State
    requires t in s.threads
  {
    match PurgeTake(s.pool, [])
    case None => Crash(s, t)
    case Some((o, buf)) => SetPool(s.(pool := o, pages := s.pages[Purging(t) := buf]), t, PurgeExit)
  }

  function StepPurgeExit(s: State, t: Tid): State
    requires t in s.threads
  {
    match PurgeReturn(s.pool, At(s.pages, Purging(t)))
    case None => Crash(s, t)
    case Some(o) => SetPool(s.(pool := o, pages := s.pages[Purging(t) := []]), t, PIdle)
  }

  function StepAllocEnter(s: State, t: Tid): State
    requires t in s.threads
  {
    match AllocSection(s.pool)
    case AllocPanic => Crash(s, t)
    case AllocEmpty => SetPool(s, t, Mmap)
    case AllocGot(o, p) => SetPool(s.(pool := o, pages := s.pages[Raw(t) := [p] + At(s.pages, Raw(t))]), t, Got)
  }

  function StepRegister(s: State, t: Tid): State
    requires t in s.threads
  {
    var span := At(s.spans, Flight(t));
    if span == [] then Crash(s, t)
    else
      var maps := s.maps.(mmaps := s.maps.mmaps + 1);
      match RegisterSection(s.pool, span[0])
      case None => SetPool(s.(maps := maps.(refused := maps.refused + 1)), t, Unmap(true))
      case Some(o) =>
        SetPool(s.(pool := o, pages := s.pages[Raw(t) := [span[0]]], spans := s.spans[Flight(t) := []],
            maps := maps), t, Got)
  }

  function StepUnmap(s: State, t: Tid, refused: bool): State
    requires t in s.threads
  {
    var span := At(s.spans, Flight(t));
    if span == [] || span[0] !in s.mapped then Crash(s, t)
    else SetPool(s.(mapped := s.mapped - {span[0]}, spans := s.spans[Flight(t) := []]), t,
                 if refused then Failed else PIdle)
  }

  function StepPool(s: State, t: Tid): State
    requires t in s.threads
  {
    match s.threads[t].pool
    case CacheEnter =>
      SetPool(s, t, if s.cacheLen < 0 || s.cacheLen >= SLAB_CACHE_MAX then DeallocEnter else CachePush)
    case CachePush =>
      if At(s.pages, Raw(t)) == [] then Crash(s, t)
      else SetPool(MovePage(s, Raw(t), 0, Cached), t, CacheCount)
    case CacheCount => SetPool(s.(cacheLen := s.cacheLen + 1), t, PIdle)
    case UncacheCount => SetPool(s.(cacheLen := s.cacheLen - 1), t, Got)
    case DeallocEnter => StepDealloc(s, t)
    case PurgeEnter => StepPurgeEnter(s, t)
    case PurgeExit => StepPurgeExit(s, t)
    case AllocEnter => StepAllocEnter(s, t)
    case Mmap => SetPool(s, t, Failed)                // the page allocator refuses
    case Register => StepRegister(s, t)
    case Unmap(refused) => StepUnmap(s, t, refused)
    case PIdle => s
    case Got => s
    case Failed => s
  }

  // ----- runs

  /** What makes a step happen: the thread goes on, or the client or the page allocator acts. */
  datatype Event =
    | Go
    | NewHeap                         // first allocation of a thread
    | StartAlloc(c: nat)
    | StartFree(id: nat)
    | Exit                            // the thread's heap is dropped
    | Mapped(base: nat)               // the page allocator returns a fresh segment

  predicate InPool(th: Thread) {
    !th.pool.PIdle? && !th.pool.Got? && !th.pool.Failed?
  }

  predicate AtRest(th: Thread) {
    th.op.Idle? && th.pool.PIdle?
  }

  /** The page allocator returns a nonnull range that overlaps nothing it has handed out. */
  ghost predicate FreshSpan(s: State, base: nat) {
    base > 0 && forall b :: b in s.mapped ==> b + SLABS_PER_SEGMENT <= base || base + SLABS_PER_SEGMENT <= b
  }

  ghost predicate Enabled(s: State, t: Tid, e: Event) {
    t in s.threads &&
    var th := s.threads[t];
    match e
    case Go => true
    case NewHeap => AtRest(th) && th.heap.Uninit?
    case StartAlloc(c) => AtRest(th) && th.heap.Running? && c < NUM_CLASSES
    case StartFree(id) => AtRest(th) && At(s.slots, Live(id)) != []
    case Exit => AtRest(th) && th.heap.Running?
    case Mapped(base) => th.pool.Mmap? && FreshSpan(s, base)
  }

  ghost function Next(s: State, t: Tid, e: Event): State
    requires Enabled(s, t, e)
  {
    match e
    case Go => if InPool(s.threads[t]) then StepPool(s, t) else StepOp(s, t)
    case NewHeap =>
      s.(threads := s.threads[t := s.threads[t].(heap := Running(s.nextHeap))], nextHeap := s.nextHeap + 1)
    case StartAlloc(c) => SetOp(s, t, Alloc(c, false))
    case StartFree(id) => StepFree(s, t, id)
    case Exit => SetOp(s, t, Drop(0))
    case Mapped(base) =>
      SetPool(s.(mapped := s.mapped + {base}, spans := s.spans[Flight(t) := [base]]), t, Register)
  }

  ghost predicate Init(s: State) {
    && s.pool == EMPTY && s.pages == map[] && s.cacheLen == 0
    && s.slabs == map[] && s.slots == map[] && s.spans == map[] && s.mapped == {}
    && s.maps == MapCounts(0, 0, 0)
    && s.nextHeap == 1 && s.nextId == 0 && s.allocBytes == s.freeBytes == s.lostBytes == 0
    && forall t :: t in s.threads ==> s.threads[t] == Thread(Uninit, Idle, PIdle)
  }

  /** Some thread, the client or the page allocator takes a step. */
  ghost predicate Goes(s: State, s': State) {
    exists t, e :: Enabled(s, t, e) && s' == Next(s, t, e)
  }

  /** A finite run: any interleaving of any number of threads. */
  ghost predicate Run(tr: seq<State>) {
    && tr != [] && Init(tr[0])
    && forall i :: 0 <= i < |tr| - 1 ==> Goes(tr[i], tr[i + 1])
  }

  /** What led to state `n`. */
  lemma StepOf(tr: seq<State>, n: nat) returns (t: Tid, e: Event)
    requires Run(tr) && 0 < n < |tr|
    ensures Enabled(tr[n - 1], t, e) && tr[n] == Next(tr[n - 1], t, e)
  {
    hide Init, Next, Enabled;
    var i := n - 1;
    assert Goes(tr[i], tr[i + 1]);
    t, e :| Enabled(tr[i], t, e) && tr[i + 1] == Next(tr[i], t, e);
  }

  /** Some run ends in `s`. */
  ghost predicate Reachable(s: State) {
    exists tr: seq<State> :: Run(tr) && tr[|tr| - 1] == s
  }

  /** A run goes on with any enabled event. */
  lemma Extend(s: State, t: Tid, e: Event)
    requires Reachable(s) && Enabled(s, t, e)
    ensures Reachable(Next(s, t, e))
  {
    var tr: seq<State> :| Run(tr) && tr[|tr| - 1] == s;
    assert Goes(s, Next(s, t, e));
    hide Next, Enabled, Init, Goes;
    var tr' := tr + [Next(s, t, e)];
    assert Run(tr') && tr'[|tr'| - 1] == Next(s, t, e);
  }
}
