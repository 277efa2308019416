/**
 Counters that hold over whole runs beside the main invariant: the bound on dirty pages and the
 length of the page cache.
 */
module Counters {
  import opened Places
  import opened Tiling
  import opened PoolSections
  import opened PoolInvariant
  import opened PoolSteps
  import opened SizeClasses
  import opened SlabGeometry
  import opened System
  import opened SystemInvariant
  import opened ControlSteps
  import opened PoolOpSteps
  import opened Safety

  /** The threads at a given position in pool.rs. */
  ghost function Here(s: State, po: PoolOp): set<Tid> {
    set t | t in s.threads && s.threads[t].pool == po
  }

  /** Dirty pages exceed the high-water mark only by threads that are about to purge. */
  ghost predicate DirtyBounded(s: State) {
    |s.pool.dirty| <= PURGE_HIGH_WATER + |Here(s, PurgeEnter)|
  }

  /** `slab_cache_len` lags behind the cache by the threads that have pushed or popped and not counted yet. */
  ghost predicate CacheCounted(s: State) {
    s.cacheLen == |At(s.pages, Cached)| - |Here(s, CacheCount)| + |Here(s, UncacheCount)|
  }

  /** Thread `t` leaves its position for another one. */
  lemma PositionMoved(s: State, s': State, t: Tid, po: PoolOp)
    requires t in s.threads && t in s'.threads && s'.threads == s.threads[t := s'.threads[t]]
    ensures |Here(s', po)| == |Here(s, po)| + (if s'.threads[t].pool == po then 1 else 0)
                                          - (if s.threads[t].pool == po then 1 else 0)
  {
    var rest := Here(s, po) - {t};
    assert Here(s, po) == if s.threads[t].pool == po then rest + {t} else rest;
    assert Here(s', po) == if s'.threads[t].pool == po then rest + {t} else rest;
  }

  /** A step whose effect on the counters is this. */
  ghost predicate Effect(s: State, s': State, t: Tid, dirty: int, cached: int, len: int) {
    && t in s.threads && t in s'.threads && s'.threads == s.threads[t := s'.threads[t]]
    && |s'.pool.dirty| == |s.pool.dirty| + dirty
    && |At(s'.pages, Cached)| == |At(s.pages, Cached)| + cached
    && s'.cacheLen == s.cacheLen + len
  }

  lemma EffectKept(s: State, s': State, t: Tid, dirty: int, cached: int, len: int)
    requires DirtyBounded(s) && CacheCounted(s) && Effect(s, s', t, dirty, cached, len)
    requires var was, now := s.threads[t].pool, s'.threads[t].pool;
             && len == cached - (if now.CacheCount? then 1 else 0) + (if was.CacheCount? then 1 else 0)
                              + (if now.UncacheCount? then 1 else 0) - (if was.UncacheCount? then 1 else 0)
             && (|s'.pool.dirty| <= PURGE_HIGH_WATER
                 || dirty <= (if now.PurgeEnter? then 1 else 0) - (if was.PurgeEnter? then 1 else 0))
    ensures DirtyBounded(s') && CacheCounted(s')
  {
    PositionMoved(s, s', t, PurgeEnter);
    PositionMoved(s, s', t, CacheCount);
    PositionMoved(s, s', t, UncacheCount);
  }

  lemma CacheFrame(m: Lists)
    ensures forall a: PagePlace, i: nat, b: PagePlace {:trigger Shift(m, a, i, b)} ::
              i < |At(m, a)| && a != Cached && b != Cached ==> At(Shift(m, a, i, b), Cached) == At(m, Cached)
    ensures forall a: PagePlace, b: PagePlace {:trigger Pour(m, a, b)} ::
              a != Cached && b != Cached ==> At(Pour(m, a, b), Cached) == At(m, Cached)
    ensures At(m, Cached) != [] ==> forall t :: |At(Shift(m, Cached, 0, Raw(t)), Cached)| == |At(m, Cached)| - 1
  {
  }

  /** The step leaves pool, cache and cache length alone, and the thread outside the counting positions. */
  ghost predicate Quiet(s: State, s': State, t: Tid) {
    && t in s.threads && t in s'.threads && s'.threads == s.threads[t := s'.threads[t]]
    && s'.pool == s.pool && s'.cacheLen == s.cacheLen && At(s'.pages, Cached) == At(s.pages, Cached)
    && (s'.threads[t].pool == s.threads[t].pool || s'.threads[t].pool in {PIdle, CacheEnter, AllocEnter})
  }

  lemma AllocQuiet(s: State, t: Tid, c: nat)
    requires t in s.threads
    ensures Quiet(s, StepAlloc(s, t, c), t) && Quiet(s, StepRetry(s, t, c), t)
  {
    CacheFrame(s.pages);
    hide SlotCount, ClassSize, Shift, Pour, Free;
  }

  lemma ScanQuiet(s: State, t: Tid, c: nat, k: nat)
    requires t in s.threads
    ensures Quiet(s, StepPartials(s, t, c), t) && Quiet(s, StepScan(s, t, c, k), t) &&
            Quiet(s, StepScanSwap(s, t, c, k), t)
  {
    CacheFrame(s.pages);
    hide SlotCount, ClassSize, Shift, Pour, Free;
  }

  lemma JudgeQuiet(s: State, t: Tid, c: nat, k: nat)
    requires t in s.threads
    ensures Quiet(s, StepScanJudge(s, t, c, k), t)
  {
    CacheFrame(s.pages);
    hide SlotCount, ClassSize, Shift, Free;
  }

  lemma DropJudgeQuiet(s: State, t: Tid, c: nat)
    requires t in s.threads
    ensures Quiet(s, StepDropJudge(s, t, c), t)
  {
    CacheFrame(s.pages);
    hide SlotCount, ClassSize, Shift, Free;
  }

  lemma AdoptJudgeQuiet(s: State, t: Tid, c: nat, got: bool)
    requires t in s.threads
    ensures Quiet(s, StepAdoptJudge(s, t, c, got), t)
  {
    CacheFrame(s.pages);
    hide SlotCount, ClassSize, Shift, Free;
  }

  lemma AdoptQuiet(s: State, t: Tid, c: nat, got: bool)
    requires t in s.threads
    ensures Quiet(s, StepAdoptLoad(s, t, c), t) && Quiet(s, StepAdoptTake(s, t, c), t) &&
            Quiet(s, StepAdopt(s, t, c, got), t)
    ensures Quiet(s, StepAdoptDrain(s, t, c, got), t)
  {
    CacheFrame(s.pages);
    hide Shift, Pour;
  }

  lemma FreshQuiet(s: State, t: Tid, c: nat)
    requires t in s.threads
    ensures Quiet(s, StepAwait(s, t, c), t)
    ensures At(s.pages, Cached) == [] ==> Quiet(s, StepFresh(s, t, c), t)
  {
    CacheFrame(s.pages);
    hide SlotCount, ClassSize, Shift, AllSlots;
  }

  lemma DropQuiet(s: State, t: Tid, c: nat)
    requires t in s.threads
    ensures Quiet(s, StepDrop(s, t, c), t) && Quiet(s, StepAbandon(s, t, c), t)
  {
    CacheFrame(s.pages);
    hide Shift;
  }

  lemma SlotsQuiet(s: State, t: Tid, c: nat, p: Page, next: Cont)
    requires t in s.threads
    ensures Quiet(s, StepDrain(s, t, p, next), t) && Quiet(s, StepPush(s, t), t) && Quiet(s, StepDropDrain(s, t, c), t)
  {
    hide Shift, Pour;
    assert s.threads == s.threads[t := s.threads[t]];
  }

  lemma FreeQuiet(s: State, t: Tid, id: nat)
    requires t in s.threads && At(s.slots, Live(id)) != []
    ensures Quiet(s, StepFree(s, t, id), t)
  {
    CacheFrame(s.pages);
    hide SlotCount, ClassSize, Shift, Pour, FullyFree, Free;
  }

  /** A step of heap.rs touches neither the dirty list nor the cache, except to pop from the cache. */
  lemma OpQuiet(s: State, t: Tid)
    requires t in s.threads && (s.threads[t].op.Fresh? ==> At(s.pages, Cached) == [])
    ensures Quiet(s, StepOp(s, t), t)
  {
    hide StepAlloc, StepRetry, StepPartials, StepScan, StepScanSwap, StepScanJudge, StepAdoptLoad, StepAdoptTake,
         StepAdopt, StepAdoptDrain, StepAdoptJudge, StepFresh, StepAwait, StepDrain, StepPush, StepDrop,
         StepDropDrain, StepDropJudge, StepAbandon, Quiet;
    var op := s.threads[t].op;
    match op {
      case Idle => StillQuiet(s, t);
      case Crashed => StillQuiet(s, t);
      case Alloc(c, _) => AllocQuiet(s, t, c);
      case Retry(c) => AllocQuiet(s, t, c);
      case Partials(c) => ScanQuiet(s, t, c, 0);
      case Scan(c, k) => ScanQuiet(s, t, c, k);
      case ScanSwap(c, k) => ScanQuiet(s, t, c, k);
      case ScanJudge(c, k) => JudgeQuiet(s, t, c, k);
      case AdoptLoad(c) => AdoptQuiet(s, t, c, false);
      case AdoptTake(c) => AdoptQuiet(s, t, c, false);
      case Adopt(c, got) => AdoptQuiet(s, t, c, got);
      case AdoptDrain(c, got) => AdoptQuiet(s, t, c, got);
      case AdoptJudge(c, got) => AdoptJudgeQuiet(s, t, c, got);
      case Fresh(c) => FreshQuiet(s, t, c);
      case Await(c) => FreshQuiet(s, t, c);
      case Drain(p, next) => SlotsQuiet(s, t, 0, p, next);
      case Push => SlotsQuiet(s, t, 0, 0, ToDrop(0));
      case Drop(c) => DropQuiet(s, t, c);
      case DropDrain(c) => SlotsQuiet(s, t, c, 0, ToDrop(0));
      case DropJudge(c) => DropJudgeQuiet(s, t, c);
      case Abandon(c) => DropQuiet(s, t, c);
    }
  }

  lemma StillQuiet(s: State, t: Tid)
    requires t in s.threads
    ensures Quiet(s, s, t)
  {
    assert s.threads == s.threads[t := s.threads[t]];
  }

  lemma QuietKept(s: State, s': State, t: Tid)
    requires DirtyBounded(s) && CacheCounted(s) && Quiet(s, s', t)
    requires !s.threads[t].pool.CacheCount? && !s.threads[t].pool.UncacheCount? && !s.threads[t].pool.PurgeEnter?
    ensures DirtyBounded(s') && CacheCounted(s')
  {
    EffectKept(s, s', t, 0, 0, 0);
  }

  // ----- inside the pool

  lemma {:induction false} PurgeTakeDirty(o: Pool, buf: seq<Page>)
    requires PurgeTake(o, buf).Some?
    ensures var (o', buf') := PurgeTake(o, buf).value;
            |o'.dirty| <= |o.dirty| && (|o.dirty| > PURGE_LOW_WATER && |buf| < BATCH ==> |o'.dirty| < |o.dirty|)
    decreases |o.dirty|
  {
    hide FindSegment;
    if |o.dirty| > PURGE_LOW_WATER && |buf| < BATCH {
      var o1 := Charge(o.(dirty := o.dirty[1..]), o.dirty[0]).value;
      PurgeTakeDirty(o1, buf + [o.dirty[0]]);
    }
  }

  lemma {:induction false} PurgeReturnDirty(o: Pool, buf: seq<Page>)
    requires PurgeReturn(o, buf).Some?
    ensures PurgeReturn(o, buf).value.dirty == o.dirty
    decreases |buf|
  {
    hide FindSegment;
    if buf != [] {
      var o1 := Discharge(o, buf[0]).value;
      PurgeReturnDirty(o1.(clean := [buf[0]] + o1.clean), buf[1..]);
    }
  }

  lemma DeallocEffect(s: State, w: Witness, t: Tid)
    requires Inv(s, w) && t in s.threads && s.threads[t].pool.DeallocEnter? && DirtyBounded(s) && CacheCounted(s)
    ensures DirtyBounded(StepDealloc(s, t)) && CacheCounted(StepDealloc(s, t))
  {
    hide Inv, DirtyBounded, CacheCounted, DeallocSection;
    var v := DeallocStep(s, w, t);
    DeallocDirty(s.pool, At(s.pages, Raw(t))[0]);
    var s' := StepDealloc(s, t);
    EffectKept(s, s', t, |s'.pool.dirty| - |s.pool.dirty|, 0, 0);
  }

  lemma PurgeEffect(s: State, w: Witness, t: Tid)
    requires Inv(s, w) && t in s.threads && s.threads[t].pool.PurgeEnter? && DirtyBounded(s) && CacheCounted(s)
    ensures DirtyBounded(StepPurgeEnter(s, t)) && CacheCounted(StepPurgeEnter(s, t))
  {
    hide Inv, DirtyBounded, CacheCounted, PurgeTake;
    var v := PurgeEnterOK(s, w, t);
    PurgeTakeDirty(s.pool, []);
    var s' := StepPurgeEnter(s, t);
    EffectKept(s, s', t, |s'.pool.dirty| - |s.pool.dirty|, 0, 0);
  }

  lemma PurgeExitEffect(s: State, w: Witness, t: Tid)
    requires Inv(s, w) && t in s.threads && s.threads[t].pool.PurgeExit? && DirtyBounded(s) && CacheCounted(s)
    ensures DirtyBounded(StepPurgeExit(s, t)) && CacheCounted(StepPurgeExit(s, t))
  {
    hide Inv, DirtyBounded, CacheCounted, PurgeReturn;
    var v := PurgeExitOK(s, w, t);
    PurgeReturnDirty(s.pool, At(s.pages, Purging(t)));
    EffectKept(s, StepPurgeExit(s, t), t, 0, 0, 0);
  }

  lemma AllocEffect(s: State, w: Witness, t: Tid)
    requires Inv(s, w) && t in s.threads && s.threads[t].pool.AllocEnter? && DirtyBounded(s) && CacheCounted(s)
    ensures DirtyBounded(StepAllocEnter(s, t)) && CacheCounted(StepAllocEnter(s, t))
  {
    hide Inv, DirtyBounded, CacheCounted, AllocSection;
    AllocNeverPanics(s, w, t);
    if AllocSection(s.pool).AllocGot? { AllocKeeps(s.pool); }
    var s' := StepAllocEnter(s, t);
    EffectKept(s, s', t, |s'.pool.dirty| - |s.pool.dirty|, 0, 0);
  }

  lemma RegisterEffect(s: State, t: Tid)
    requires t in s.threads && s.threads[t].pool.Register? && DirtyBounded(s) && CacheCounted(s)
    ensures DirtyBounded(StepRegister(s, t)) && CacheCounted(StepRegister(s, t))
  {
    hide DirtyBounded, CacheCounted, RegisterSection;
    RegisterKeepsDirty(s.pool, if At(s.spans, Flight(t)) == [] then 0 else At(s.spans, Flight(t))[0]);
    EffectKept(s, StepRegister(s, t), t, 0, 0, 0);
  }

  lemma PoolEffect(s: State, w: Witness, t: Tid)
    requires Inv(s, w) && t in s.threads && InPool(s.threads[t]) && DirtyBounded(s) && CacheCounted(s)
    ensures DirtyBounded(StepPool(s, t)) && CacheCounted(StepPool(s, t))
  {
    hide Inv, DirtyBounded, CacheCounted, StepDealloc, StepPurgeEnter, StepPurgeExit, StepAllocEnter, StepRegister;
    var s' := StepPool(s, t);
    match s.threads[t].pool {
      case CacheEnter => EffectKept(s, s', t, 0, 0, 0);
      case CachePush => CachePushEffect(s, w, t);
      case CacheCount => EffectKept(s, s', t, 0, 0, 1);
      case UncacheCount => EffectKept(s, s', t, 0, 0, -1);
      case DeallocEnter => DeallocEffect(s, w, t);
      case PurgeEnter => PurgeEffect(s, w, t);
      case PurgeExit => PurgeExitEffect(s, w, t);
      case AllocEnter => AllocEffect(s, w, t);
      case Mmap => EffectKept(s, s', t, 0, 0, 0);
      case Register => RegisterEffect(s, t);
      case Unmap(refused) => EffectKept(s, s', t, 0, 0, 0);
    }
  }

  lemma RegisterKeepsDirty(o: Pool, base: nat)
    ensures RegisterSection(o, base).Some? ==> RegisterSection(o, base).value.dirty == o.dirty
  {
  }

  lemma CachePushEffect(s: State, w: Witness, t: Tid)
    requires Inv(s, w) && t in s.threads && s.threads[t].pool.CachePush? && DirtyBounded(s) && CacheCounted(s)
    ensures DirtyBounded(StepPool(s, t)) && CacheCounted(StepPool(s, t))
  {
    hide Inv, DirtyBounded, CacheCounted;
    ThreadFacts(s, w, t);
    ShiftAt(s.pages, Raw(t), 0, Cached);
    hide Shift, OpOK;
    EffectKept(s, StepPool(s, t), t, 0, 1, 0);
  }

  lemma CountersStep(s: State, w: Witness, t: Tid, e: Event)
    requires Inv(s, w) && Enabled(s, t, e) && DirtyBounded(s) && CacheCounted(s)
    ensures DirtyBounded(Next(s, t, e)) && CacheCounted(Next(s, t, e))
  {
    hide Inv, DirtyBounded, CacheCounted, StepPool, StepOp, StepFree, Quiet;
    var s' := Next(s, t, e);
    match e {
      case Go =>
        if InPool(s.threads[t]) {
          PoolEffect(s, w, t);
        } else if s.threads[t].op.Fresh? && At(s.pages, Cached) != [] {
          UncacheEffect(s, t);
        } else {
          OpQuiet(s, t);
          QuietKept(s, s', t);
        }
      case StartFree(id) => FreeQuiet(s, t, id); QuietKept(s, s', t);
      case NewHeap => PlainQuiet(s, s', t); QuietKept(s, s', t);
      case StartAlloc(c) => PlainQuiet(s, s', t); QuietKept(s, s', t);
      case Exit => PlainQuiet(s, s', t); QuietKept(s, s', t);
      case Mapped(base) => MappedEffect(s, t, base);
    }
  }

  lemma PlainQuiet(s: State, s': State, t: Tid)
    requires t in s.threads && t in s'.threads && s'.threads == s.threads[t := s'.threads[t]]
    requires s'.pool == s.pool && s'.cacheLen == s.cacheLen && s'.pages == s.pages &&
             s'.threads[t].pool == s.threads[t].pool
    ensures Quiet(s, s', t)
  {
  }

  lemma MappedEffect(s: State, t: Tid, base: nat)
    requires Enabled(s, t, Mapped(base)) && DirtyBounded(s) && CacheCounted(s)
    ensures DirtyBounded(Next(s, t, Mapped(base))) && CacheCounted(Next(s, t, Mapped(base)))
  {
    hide DirtyBounded, CacheCounted;
    EffectKept(s, Next(s, t, Mapped(base)), t, 0, 0, 0);
  }

  lemma UncacheEffect(s: State, t: Tid)
    requires t in s.threads && s.threads[t].op.Fresh? && At(s.pages, Cached) != [] && !InPool(s.threads[t])
    requires DirtyBounded(s) && CacheCounted(s)
    ensures DirtyBounded(StepOp(s, t)) && CacheCounted(StepOp(s, t))
  {
    hide DirtyBounded, CacheCounted;
    ShiftAt(s.pages, Cached, 0, Raw(t));
    hide Shift;
    EffectKept(s, StepOp(s, t), t, 0, -1, 0);
  }

  lemma InitCounters(s: State)
    requires Init(s)
    ensures DirtyBounded(s) && CacheCounted(s)
  {
    assert forall po: PoolOp :: !po.PIdle? ==> Here(s, po) == {};
  }

  lemma {:induction false} RunCounters(tr: seq<State>, n: nat)
    requires Run(tr) && n < |tr|
    ensures DirtyBounded(tr[n]) && CacheCounted(tr[n])
  {
    hide Init, Next, Enabled, Goes, Inv, DirtyBounded, CacheCounted;
    if n == 0 {
      InitCounters(tr[0]);
    } else {
      RunCounters(tr, n - 1);
      var w := RunInv(tr, n - 1);
      var t, e := StepOf(tr, n);
      CountersStep(tr[n - 1], w, t, e);
    }
  }
}
