/**
 When the pool is asked, over whole runs (src/pool.rs:262-302, 462-484): a page goes to the cache as
 long as the cache has room, to the dirty list otherwise, and dirty pages are purged only above the
 high-water mark. And how far the cache can outgrow its limit, whose test and count are separate steps.
 */
module Policies {
  import opened Places
  import opened Tiling
  import opened PoolSections
  import opened PoolInvariant
  import opened PoolSteps
  import opened SizeClasses
  import opened SlabGeometry
  import opened System
  import opened SystemInvariant
  import opened Frames
  import opened ControlSteps
  import opened SlotSteps
  import opened PageSteps
  import opened SlabSteps
  import opened PoolOpSteps
  import opened Safety
  import opened Counters
  import opened Mappings

  /** `slab_cache_len`, read as the unsigned number it is, is below the limit. */
  predicate Roomy(s: State) {
    0 <= s.cacheLen < SLAB_CACHE_MAX
  }

  /** Not more dirty pages than the high-water mark. */
  predicate BelowMark(s: State) {
    |s.pool.dirty| <= PURGE_HIGH_WATER
  }

  // ----- one step of the thread

  /** The step is at this position of pool.rs now and was not before. */
  predicate Arrives(s: State, s': State, t: Tid, po: PoolOp) {
    t in s.threads && t in s'.threads && s.threads[t].pool != po && s'.threads[t].pool == po
  }

  /** A step of heap.rs enters the pool at these doors only. */
  lemma OpDoors(s: State, t: Tid)
    requires t in s.threads && !InPool(s.threads[t])
    ensures var s' := StepOp(s, t);
            && t in s'.threads && s'.threads == s.threads[t := s'.threads[t]]
            && s'.threads[t].pool in {s.threads[t].pool, PIdle, CacheEnter, AllocEnter, UncacheCount}
  {
    hide StepOp, At;
    if s.threads[t].op.Fresh? && At(s.pages, Cached) != [] {
      FreshDoor(s, t);
    } else {
      OpQuiet(s, t);
    }
  }

  lemma FreshDoor(s: State, t: Tid)
    requires t in s.threads && s.threads[t].op.Fresh? && At(s.pages, Cached) != []
    ensures var s' := StepOp(s, t);
            t in s'.threads && s'.threads == s.threads[t := s'.threads[t]] && s'.threads[t].pool == UncacheCount
  {
    hide Shift;
  }

  lemma FreeDoors(s: State, t: Tid, id: nat)
    requires Enabled(s, t, StartFree(id))
    ensures var s' := StepFree(s, t, id);
            && t in s'.threads && s'.threads == s.threads[t := s'.threads[t]]
            && s'.threads[t].pool in {PIdle, CacheEnter, AllocEnter}
  {
    hide StepFree;
    FreeQuiet(s, t, id);
  }

  /** What `dealloc_slab` does to the thread's position, the dirty list and the table. */
  lemma DeallocDoors(s: State, w: Witness, t: Tid)
    requires Inv(s, w) && t in s.threads && s.threads[t].pool.DeallocEnter?
    ensures var s' := StepDealloc(s, t);
            && t in s'.threads && s'.threads == s.threads[t := s'.threads[t]]
            && (|s'.pool.segs| == |s.pool.segs| || |s'.pool.segs| == |s.pool.segs| - 1)
            && s'.threads[t].pool == (if |s'.pool.segs| < |s.pool.segs| then Unmap(false)
                                      else if |s'.pool.dirty| > PURGE_HIGH_WATER then PurgeEnter else PIdle)
  {
    ThreadFacts(s, w, t);
    PoolFacts(s, w);
    PooledLengths(s.pool, s.pages, w.pages);
    var v := DeallocStep(s, w, t);
    NotCrashedAfter(StepDealloc(s, t), v, t);
    hide Inv, Pooled, SpansOK, DeallocSection, OpOK;
    var p := At(s.pages, Raw(t))[0];
    ReleasedCount(s.pool, p);
    DeallocDirty(s.pool, p);
  }

  lemma NotCrashedAfter(s: State, w: Witness, t: Tid)
    requires Inv(s, w)
    ensures t in s.threads ==> !s.threads[t].op.Crashed?
  {
    hide Inv, HoldsOK;
    if t in s.threads { ThreadFacts(s, w, t); }
  }

  /** The other sections lead to these positions. */
  lemma PurgeDoors(s: State, t: Tid)
    requires t in s.threads
    ensures var s' := StepPurgeEnter(s, t);
            t in s'.threads && s'.threads[t].pool in {s.threads[t].pool, PurgeExit}
    ensures var s' := StepPurgeExit(s, t);
            t in s'.threads && s'.threads[t].pool in {s.threads[t].pool, PIdle}
  {
    hide PurgeTake, PurgeReturn;
  }

  lemma AllocDoors(s: State, t: Tid)
    requires t in s.threads
    ensures var s' := StepAllocEnter(s, t);
            t in s'.threads && s'.threads[t].pool in {s.threads[t].pool, Mmap, Got}
  {
    hide AllocSection;
  }

  lemma RegisterDoors(s: State, t: Tid)
    requires t in s.threads
    ensures var s' := StepRegister(s, t);
            t in s'.threads && s'.threads[t].pool in {s.threads[t].pool, Unmap(true), Got}
  {
    hide RegisterSection;
  }

  lemma UnmapDoors(s: State, t: Tid, refused: bool)
    requires t in s.threads
    ensures var s' := StepUnmap(s, t, refused);
            t in s'.threads && s'.threads[t].pool in {s.threads[t].pool, Failed, PIdle}
  {
  }

  /** Where a step takes its thread inside the pool. */
  ghost predicate ArrivalsRight(s: State, s': State, t: Tid, e: Event)
    requires t in s.threads
  {
    var po := s.threads[t].pool;
    && (Arrives(s, s', t, CachePush) <==> e == Go && po == CacheEnter && Roomy(s))
    && (Arrives(s, s', t, DeallocEnter) <==> e == Go && po == CacheEnter && !Roomy(s))
    && (Arrives(s, s', t, PurgeEnter) <==>
          e == Go && po == DeallocEnter && |s'.pool.segs| == |s.pool.segs| && |s'.pool.dirty| > PURGE_HIGH_WATER)
    && (Arrives(s, s', t, PurgeExit) ==> e == Go && po == PurgeEnter)
  }

  /** A step from neither of the two doors, to none of the four positions. */
  lemma NoArrival(s: State, s': State, t: Tid, e: Event)
    requires t in s.threads && t in s'.threads && (e == Go ==> s.threads[t].pool !in {CacheEnter, DeallocEnter})
    requires s'.threads[t].pool != s.threads[t].pool ==>
               || s'.threads[t].pool !in {CachePush, DeallocEnter, PurgeEnter, PurgeExit}
               || (e == Go && s.threads[t].pool == PurgeEnter && s'.threads[t].pool == PurgeExit)
    ensures ArrivalsRight(s, s', t, e)
  {
  }

  lemma DeallocArrivals(s: State, w: Witness, t: Tid)
    requires Inv(s, w) && t in s.threads && s.threads[t].pool.DeallocEnter?
    ensures ArrivalsRight(s, StepPool(s, t), t, Go)
  {
    hide Inv, StepDealloc;
    DeallocDoors(s, w, t);
  }

  lemma InsideArrivals(s: State, w: Witness, t: Tid)
    requires Inv(s, w) && t in s.threads && InPool(s.threads[t])
    ensures ArrivalsRight(s, StepPool(s, t), t, Go)
  {
    hide Inv, ArrivalsRight, StepPool;
    match s.threads[t].pool {
      case CacheEnter => EnterArrivals(s, t);
      case DeallocEnter => DeallocArrivals(s, w, t);
      case _ => SectionArrivals(s, t);
    }
  }

  lemma EnterArrivals(s: State, t: Tid)
    requires t in s.threads && s.threads[t].pool.CacheEnter?
    ensures ArrivalsRight(s, StepPool(s, t), t, Go)
  {
  }

  lemma SectionArrivals(s: State, t: Tid)
    requires t in s.threads && s.threads[t].pool !in {CacheEnter, DeallocEnter}
    ensures ArrivalsRight(s, StepPool(s, t), t, Go)
  {
    hide ArrivalsRight, StepDealloc, StepPurgeEnter, StepPurgeExit, StepAllocEnter, StepRegister, StepUnmap, Shift;
    match s.threads[t].pool {
      case PurgeEnter => PurgeDoors(s, t);
      case PurgeExit => PurgeDoors(s, t);
      case AllocEnter => AllocDoors(s, t);
      case Register => RegisterDoors(s, t);
      case Unmap(refused) => UnmapDoors(s, t, refused);
      case _ =>
    }
    NoArrival(s, StepPool(s, t), t, Go);
  }

  lemma OutsideArrivals(s: State, t: Tid, e: Event)
    requires Enabled(s, t, e) && (e == Go ==> !InPool(s.threads[t]))
    ensures ArrivalsRight(s, Next(s, t, e), t, e)
  {
    hide ArrivalsRight, StepOp, StepFree, StepPool, At;
    match e {
      case Go => OpDoors(s, t);
      case StartFree(id) => FreeDoors(s, t, id);
      case _ =>
    }
    NoArrival(s, Next(s, t, e), t, e);
  }

  /**
   In every run: a step takes its thread to the cache if and only if the thread has asked and there is
   room, to `dealloc_slab` if and only if it has asked and there is none, and to a purge if and only if
   it leaves `dealloc_slab` without a release and with more than 64 dirty pages.
   */
  lemma PoolArrivals(tr: seq<State>, n: nat, t: Tid, e: Event)
    requires Run(tr) && n < |tr| && Enabled(tr[n], t, e)
    ensures var s, s', po := tr[n], Next(tr[n], t, e), tr[n].threads[t].pool;
            && (Arrives(s, s', t, CachePush) <==> e == Go && po == CacheEnter && Roomy(s))
            && (Arrives(s, s', t, DeallocEnter) <==> e == Go && po == CacheEnter && !Roomy(s))
            && (Arrives(s, s', t, PurgeEnter) <==>
                  && e == Go && po == DeallocEnter
                  && |s'.pool.segs| == |s.pool.segs| && |s'.pool.dirty| > PURGE_HIGH_WATER)
            && (Arrives(s, s', t, PurgeExit) ==> e == Go && po == PurgeEnter)
  {
    hide Run, Next, Enabled, Inv, Arrives;
    var w := RunInv(tr, n);
    StepArrivals(tr[n], w, t, e);
  }

  lemma StepArrivals(s: State, w: Witness, t: Tid, e: Event)
    requires Inv(s, w) && Enabled(s, t, e)
    ensures ArrivalsRight(s, Next(s, t, e), t, e)
  {
    hide ArrivalsRight, StepOp, StepPool, Inv, OpOK;
    if e == Go && InPool(s.threads[t]) { InsideArrivals(s, w, t); } else { OutsideArrivals(s, t, e); }
  }

  // ----- what a step does to the cache

  /** The thread alone moves, and the cache has at most `more` pages more. */
  ghost predicate Caches(s: State, s': State, t: Tid, more: nat) {
    && t in s.threads && t in s'.threads && s'.threads == s.threads[t := s'.threads[t]]
    && |At(s'.pages, Cached)| <= |At(s.pages, Cached)| + more
  }

  lemma DeallocCaches(s: State, t: Tid)
    requires t in s.threads
    ensures Caches(s, StepDealloc(s, t), t, 0)
  {
    hide DeallocSection;
  }

  lemma PurgeCaches(s: State, t: Tid)
    requires t in s.threads
    ensures Caches(s, StepPurgeEnter(s, t), t, 0) && Caches(s, StepPurgeExit(s, t), t, 0)
  {
    hide PurgeTake, PurgeReturn;
  }

  lemma AllocCaches(s: State, t: Tid)
    requires t in s.threads
    ensures Caches(s, StepAllocEnter(s, t), t, 0) && Caches(s, StepRegister(s, t), t, 0)
  {
    hide AllocSection, RegisterSection;
  }

  lemma UnmapCaches(s: State, t: Tid, refused: bool)
    requires t in s.threads
    ensures Caches(s, StepUnmap(s, t, refused), t, 0)
  {
  }

  lemma InsideCaches(s: State, t: Tid)
    requires t in s.threads && InPool(s.threads[t])
    ensures Caches(s, StepPool(s, t), t, if s.threads[t].pool.CachePush? then 1 else 0)
  {
    hide StepDealloc, StepPurgeEnter, StepPurgeExit, StepAllocEnter, StepRegister, StepUnmap;
    match s.threads[t].pool {
      case CachePush => if At(s.pages, Raw(t)) != [] { ShiftAt(s.pages, Raw(t), 0, Cached); } hide Shift;
      case DeallocEnter => DeallocCaches(s, t);
      case PurgeEnter => PurgeCaches(s, t);
      case PurgeExit => PurgeCaches(s, t);
      case AllocEnter => AllocCaches(s, t);
      case Register => AllocCaches(s, t);
      case Unmap(refused) => UnmapCaches(s, t, refused);
      case _ =>
    }
  }

  lemma OutsideCaches(s: State, t: Tid)
    requires t in s.threads
    ensures Caches(s, StepOp(s, t), t, 0)
  {
    if s.threads[t].op.Fresh? && At(s.pages, Cached) != [] {
      ShiftAt(s.pages, Cached, 0, Raw(t));
      hide Shift;
    } else {
      hide StepOp, At;
      OpQuiet(s, t);
    }
  }

  lemma StepCaches(s: State, t: Tid, e: Event)
    requires Enabled(s, t, e)
    ensures Caches(s, Next(s, t, e), t, if e == Go && s.threads[t].pool.CachePush? then 1 else 0)
  {
    hide StepPool, StepOp, StepFree;
    match e {
      case Go => if InPool(s.threads[t]) { InsideCaches(s, t); } else { OutsideCaches(s, t); }
      case StartFree(id) => FreeQuiet(s, t, id);
      case _ =>
    }
  }

  // ----- below the limits nothing reaches the pool's free lists

  lemma DirtyStays(s: State, t: Tid)
    requires t in s.threads && s.threads[t].pool !in {DeallocEnter, PurgeEnter, PurgeExit} && s.pool.dirty == []
    ensures StepPool(s, t).pool.dirty == []
  {
    hide StepDealloc, StepPurgeEnter, StepPurgeExit, RegisterSection, Shift, FindSegment;
    RegisterKeepsDirty(s.pool, if At(s.spans, Flight(t)) == [] then 0 else At(s.spans, Flight(t))[0]);
  }

  lemma DirtyUntouched(s: State, t: Tid, e: Event)
    requires Enabled(s, t, e) && s.threads[t].pool !in {DeallocEnter, PurgeEnter, PurgeExit} && s.pool.dirty == []
    ensures Next(s, t, e).pool.dirty == []
  {
    hide StepPool, StepOp, StepFree;
    match e {
      case Go => if InPool(s.threads[t]) { DirtyStays(s, t); } else { OpStill(s, t); }
      case StartFree(id) => FreeStill(s, t, id);
      case _ =>
    }
  }

  /** Nobody is at `po`. */
  ghost predicate Empty(s: State, po: PoolOp) {
    forall t :: t in s.threads ==> s.threads[t].pool != po
  }

  /** A position stays empty when nobody arrives there. */
  lemma StaysEmpty(s: State, s': State, t: Tid, po: PoolOp, more: nat)
    requires Empty(s, po) && Caches(s, s', t, more) && !Arrives(s, s', t, po)
    ensures Empty(s', po)
  {
  }

  /** Nobody is on the way to the pool's free lists. */
  ghost predicate Calm(s: State) {
    s.pool.dirty == [] && Empty(s, DeallocEnter) && Empty(s, PurgeEnter) && Empty(s, PurgeExit)
  }

  lemma CalmStep(s: State, w: Witness, t: Tid, e: Event)
    requires Inv(s, w) && Enabled(s, t, e) && Calm(s) && Roomy(s)
    ensures Calm(Next(s, t, e))
  {
    var s' := Next(s, t, e);
    OneOf(s, t, e);
    StepArrivals(s, w, t, e);
    DirtyUntouched(s, t, e);
    StepCaches(s, t, e);
    hide Inv, Next, Enabled, Caches, Arrives;
    var more := if e == Go && s.threads[t].pool.CachePush? then 1 else 0;
    StaysEmpty(s, s', t, DeallocEnter, more);
    StaysEmpty(s, s', t, PurgeEnter, more);
    StaysEmpty(s, s', t, PurgeExit, more);
  }

  lemma InitEmpty(s: State)
    requires Init(s)
    ensures Calm(s)
  {
  }

  lemma {:induction false} CacheFirstHolds(tr: seq<State>, n: nat)
    requires Run(tr) && n < |tr| && forall i :: 0 <= i <= n ==> Roomy(tr[i])
    ensures Calm(tr[n])
  {
    hide Init, Next, Enabled, Inv, Goes, Calm, Roomy;
    if n == 0 {
      InitEmpty(tr[0]);
    } else {
      CacheFirstHolds(tr, n - 1);
      var w := RunInv(tr, n - 1);
      var t, e := StepOf(tr, n);
      CalmStep(tr[n - 1], w, t, e);
    }
  }

  lemma OneOf(s: State, t: Tid, e: Event)
    requires Enabled(s, t, e)
    ensures t in s.threads
  {
  }

  lemma BuffersEmpty(tr: seq<State>, n: nat, t: Tid)
    requires Run(tr) && n < |tr| && Empty(tr[n], PurgeExit)
    ensures At(tr[n].pages, Purging(t)) == []
  {
    hide Run, Inv;
    var w := RunInv(tr, n);
    if t in tr[n].threads {
      ThreadFacts(tr[n], w, t);
    } else if At(tr[n].pages, Purging(t)) != [] {
      PageAt(tr[n], w, Purging(t), 0);
    }
  }

  /**
   As long as the cache has always had room, no thread is in `dealloc_slab`, no page is dirty and none
   is in a purge buffer: what is reclaimed goes to the cache.
   */
  lemma CacheFirst(tr: seq<State>, n: nat)
    requires Run(tr) && n < |tr| && forall i :: 0 <= i <= n ==> Roomy(tr[i])
    ensures tr[n].pool.dirty == [] && forall t :: At(tr[n].pages, Purging(t)) == []
    ensures forall t :: t in tr[n].threads ==> tr[n].threads[t].pool !in {DeallocEnter, PurgeEnter, PurgeExit}
  {
    hide Run, Roomy;
    CacheFirstHolds(tr, n);
    forall t ensures At(tr[n].pages, Purging(t)) == [] { BuffersEmpty(tr, n, t); }
  }

  lemma QuietStep(s: State, w: Witness, t: Tid, e: Event)
    requires Inv(s, w) && Enabled(s, t, e) && Empty(s, PurgeEnter) && Empty(s, PurgeExit)
    requires BelowMark(Next(s, t, e))
    ensures Empty(Next(s, t, e), PurgeEnter) && Empty(Next(s, t, e), PurgeExit)
  {
    var s' := Next(s, t, e);
    OneOf(s, t, e);
    StepArrivals(s, w, t, e);
    StepCaches(s, t, e);
    hide Inv, Next, Enabled, Caches, Arrives;
    var more := if e == Go && s.threads[t].pool.CachePush? then 1 else 0;
    StaysEmpty(s, s', t, PurgeEnter, more);
    StaysEmpty(s, s', t, PurgeExit, more);
  }

  lemma {:induction false} NeverPurgesHolds(tr: seq<State>, n: nat)
    requires Run(tr) && n < |tr| && forall i :: 0 <= i <= n ==> BelowMark(tr[i])
    ensures Empty(tr[n], PurgeEnter) && Empty(tr[n], PurgeExit)
  {
    hide Next, Enabled, Inv, Goes, Empty, Init, BelowMark;
    if n == 0 {
      InitEmpty(tr[0]);
    } else {
      NeverPurgesHolds(tr, n - 1);
      var w := RunInv(tr, n - 1);
      var t, e := StepOf(tr, n);
      QuietStep(tr[n - 1], w, t, e);
    }
  }

  /** As long as there have never been more than 64 dirty pages, nobody purges and no page is in a purge buffer. */
  lemma NeverPurges(tr: seq<State>, n: nat)
    requires Run(tr) && n < |tr| && forall i :: 0 <= i <= n ==> BelowMark(tr[i])
    ensures forall t :: At(tr[n].pages, Purging(t)) == []
    ensures forall t :: t in tr[n].threads ==> tr[n].threads[t].pool !in {PurgeEnter, PurgeExit}
  {
    hide Run;
    NeverPurgesHolds(tr, n);
    forall t ensures At(tr[n].pages, Purging(t)) == [] { BuffersEmpty(tr, n, t); }
  }

  // ----- how far the cache outgrows its limit

  /** The threads that have found room in the cache and not counted their page yet. */
  ghost function Counting(s: State): set<Tid> {
    Here(s, CachePush) + Here(s, CacheCount)
  }

  lemma CountingSize(s: State)
    ensures |Counting(s)| == |Here(s, CachePush)| + |Here(s, CacheCount)|
  {
    assert Here(s, CachePush) !! Here(s, CacheCount);
  }

  lemma BoundStep(s: State, s': State, t: Tid, e: Event, m: nat)
    requires CacheCounted(s) && |At(s.pages, Cached)| + |Here(s, CachePush)| <= SLAB_CACHE_MAX - 1 + m
    requires |Counting(s')| <= m
    requires t in s.threads && Caches(s, s', t, if e == Go && s.threads[t].pool.CachePush? then 1 else 0)
    requires ArrivalsRight(s, s', t, e)
    requires e == Go && s.threads[t].pool.CachePush? ==> s'.threads[t].pool.CacheCount?
    ensures |At(s'.pages, Cached)| + |Here(s', CachePush)| <= SLAB_CACHE_MAX - 1 + m
  {
    PositionMoved(s, s', t, CachePush);
    PositionMoved(s, s', t, CacheCount);
    CountingSize(s');
    hide Here;
  }

  lemma PushedCounts(s: State, w: Witness, t: Tid)
    requires Inv(s, w) && t in s.threads && s.threads[t].pool.CachePush?
    ensures t in Next(s, t, Go).threads && Next(s, t, Go).threads[t].pool.CacheCount?
  {
    hide Inv, OpOK, Shift;
    ThreadFacts(s, w, t);
  }

  ghost predicate Bounded(s: State, m: nat) {
    |At(s.pages, Cached)| + |Here(s, CachePush)| <= SLAB_CACHE_MAX - 1 + m
  }

  lemma BoundedNext(s: State, w: Witness, t: Tid, e: Event, m: nat)
    requires Inv(s, w) && Enabled(s, t, e) && CacheCounted(s) && Bounded(s, m) && |Counting(Next(s, t, e))| <= m
    ensures Bounded(Next(s, t, e), m)
  {
    hide Inv, Next, Enabled, Caches, ArrivalsRight, Counting, Here, CacheCounted;
    OneOf(s, t, e);
    StepArrivals(s, w, t, e);
    StepCaches(s, t, e);
    if e == Go && s.threads[t].pool.CachePush? { PushedCounts(s, w, t); }
    BoundStep(s, Next(s, t, e), t, e, m);
  }

  lemma InitBounded(s: State, m: nat)
    requires Init(s)
    ensures Bounded(s, m)
  {
    assert Here(s, CachePush) == {};
  }

  lemma {:induction false} BoundHolds(tr: seq<State>, n: nat, m: nat)
    requires Run(tr) && n < |tr| && forall i :: 0 <= i <= n ==> |Counting(tr[i])| <= m
    ensures Bounded(tr[n], m)
  {
    hide Init, Next, Enabled, Inv, Goes, Counting, CacheCounted, Bounded;
    if n == 0 {
      InitBounded(tr[0], m);
    } else {
      BoundHolds(tr, n - 1, m);
      RunCounters(tr, n - 1);
      var w := RunInv(tr, n - 1);
      var t, e := StepOf(tr, n);
      BoundedNext(tr[n - 1], w, t, e, m);
    }
  }

  /**
   The cache and the threads about to push exceed 511 pages at most by the largest number of threads
   ever between the test of the length and the count at the same time. So one such thread at a time
   keeps the limit of 512; `CacheOverfull` shows that more of them break it.
   */
  lemma CacheBounded(tr: seq<State>, n: nat, m: nat)
    requires Run(tr) && n < |tr| && forall i :: 0 <= i <= n ==> |Counting(tr[i])| <= m
    ensures |At(tr[n].pages, Cached)| + |Here(tr[n], CachePush)| <= SLAB_CACHE_MAX - 1 + m
  {
    hide Run, Counting;
    BoundHolds(tr, n, m);
  }

  // ----- runs with few threads in `cache_slab`

  /** Some run leads to `s` without ever having more than `m` threads between the test and the count. */
  ghost predicate ReachedBy(s: State, m: nat) {
    exists tr: seq<State> ::
      Run(tr) && tr[|tr| - 1] == s && forall i :: 0 <= i < |tr| ==> |Counting(tr[i])| <= m
  }

  lemma ReachedInv(s: State, m: nat) returns (w: Witness)
    requires ReachedBy(s, m)
    ensures Inv(s, w) && Reachable(s)
  {
    hide Init, Goes, Inv, Counting;
    var tr: seq<State> :| Run(tr) && tr[|tr| - 1] == s && forall i :: 0 <= i < |tr| ==> |Counting(tr[i])| <= m;
    w := RunInv(tr, |tr| - 1);
  }

  lemma ExtendBy(s: State, t: Tid, e: Event, m: nat)
    requires ReachedBy(s, m) && Enabled(s, t, e) && |Counting(Next(s, t, e))| <= m
    ensures ReachedBy(Next(s, t, e), m)
  {
    hide Next, Enabled, Init, Counting;
    var tr: seq<State> :| Run(tr) && tr[|tr| - 1] == s && forall i :: 0 <= i < |tr| ==> |Counting(tr[i])| <= m;
    assert Goes(s, Next(s, t, e));
    hide Goes;
    var tr' := tr + [Next(s, t, e)];
    assert Run(tr') && tr'[|tr'| - 1] == Next(s, t, e);
    assert forall i :: 0 <= i < |tr'| ==> |Counting(tr'[i])| <= m;
  }

  /** The thread does not get between the test and the count. */
  predicate Stays(s: State, s': State, t: Tid) {
    && t in s.threads && t in s'.threads
    && (s'.threads[t].pool in {CachePush, CacheCount} ==> s.threads[t].pool in {CachePush, CacheCount})
  }

  /** A step moves one thread in or out. */
  lemma CountingMoves(s: State, t: Tid, e: Event)
    requires Enabled(s, t, e)
    ensures t in Next(s, t, e).threads && |Counting(Next(s, t, e))| <= |Counting(s)| + 1
    ensures Stays(s, Next(s, t, e), t) ==> |Counting(Next(s, t, e))| <= |Counting(s)|
  {
    StepCaches(s, t, e);
    var s' := Next(s, t, e);
    hide Next, Enabled;
    CountingSize(s);
    CountingSize(s');
    PositionMoved(s, s', t, CachePush);
    PositionMoved(s, s', t, CacheCount);
    hide Here, Counting;
  }

  lemma ReachedFew(s: State, m: nat)
    requires ReachedBy(s, m)
    ensures |Counting(s)| <= m
  {
    hide Init, Goes, Counting;
  }

  /** A run goes on with any event that takes no thread past the test. */
  lemma ExtendOutside(s: State, t: Tid, e: Event, m: nat)
    requires ReachedBy(s, m) && Enabled(s, t, e)
    requires Stays(s, Next(s, t, e), t)
    ensures ReachedBy(Next(s, t, e), m)
  {
    hide Next, Enabled, ReachedBy, Counting;
    CountingMoves(s, t, e);
    ReachedFew(s, m);
    ExtendBy(s, t, e, m);
  }

  lemma GoesOnBy(s: State, t: Tid, m: nat)
    requires ReachedBy(s, m) && t in s.threads && !InPool(s.threads[t]) && Stays(s, StepOp(s, t), t)
    ensures ReachedBy(StepOp(s, t), m)
  {
    hide ReachedBy, StepOp;
    assert Next(s, t, Go) == StepOp(s, t);
    ExtendOutside(s, t, Go, m);
  }
}
