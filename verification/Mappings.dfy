/**
 The segments the page allocator hands out and takes back, over whole runs: the two counters of
 pool.rs, and a history in which every segment obtained is returned exactly once.
 */
module Mappings {
  import opened Places
  import opened Tiling
  import opened PoolSections
  import opened PoolInvariant
  import opened PoolSteps
  import opened PoolDrop
  import opened SizeClasses
  import opened SlabGeometry
  import opened System
  import opened SystemInvariant
  import opened Frames
  import opened ControlSteps
  import opened SlotSteps
  import opened PoolOpSteps
  import opened Safety
  import opened Theorems

  // ----- steps that do not touch segments

  ghost predicate Still(s: State, s': State) {
    s'.pool == s.pool && s'.maps == s.maps && s'.mapped == s.mapped && s'.spans == s.spans
  }

  lemma AllocStill(s: State, t: Tid, c: nat, k: nat)
    requires t in s.threads
    ensures Still(s, StepAlloc(s, t, c)) && Still(s, StepRetry(s, t, c)) && Still(s, StepPartials(s, t, c))
    ensures Still(s, StepScan(s, t, c, k)) && Still(s, StepScanSwap(s, t, c, k)) && Still(s, StepScanJudge(s, t, c, k))
  {
    hide SlotCount, ClassSize, Shift, Pour, Free;
  }

  lemma AdoptStill(s: State, t: Tid, c: nat, got: bool)
    requires t in s.threads
    ensures Still(s, StepAdoptLoad(s, t, c)) && Still(s, StepAdoptTake(s, t, c)) && Still(s, StepAdopt(s, t, c, got))
    ensures Still(s, StepAdoptDrain(s, t, c, got)) && Still(s, StepAdoptJudge(s, t, c, got))
    ensures Still(s, StepFresh(s, t, c)) && Still(s, StepAwait(s, t, c))
  {
    hide SlotCount, ClassSize, Shift, Pour, Free, AllSlots;
  }

  lemma DropStill(s: State, t: Tid, c: nat, p: Page, next: Cont)
    requires t in s.threads
    ensures Still(s, StepDrop(s, t, c)) && Still(s, StepDropDrain(s, t, c)) && Still(s, StepDropJudge(s, t, c))
    ensures Still(s, StepAbandon(s, t, c)) && Still(s, StepDrain(s, t, p, next)) && Still(s, StepPush(s, t))
  {
    hide SlotCount, Shift, Pour, Free;
  }

  lemma FreeStill(s: State, t: Tid, id: nat)
    requires t in s.threads && At(s.slots, Live(id)) != []
    ensures Still(s, StepFree(s, t, id))
  {
    hide SlotCount, ClassSize, Shift, FullyFree, Free;
  }

  lemma OpStill(s: State, t: Tid)
    requires t in s.threads
    ensures Still(s, StepOp(s, t))
  {
    hide StepAlloc, StepRetry, StepPartials, StepScan, StepScanSwap, StepScanJudge, StepAdoptLoad, StepAdoptTake,
         StepAdopt, StepAdoptDrain, StepAdoptJudge, StepFresh, StepAwait, StepDrain, StepPush, StepDrop,
         StepDropDrain, StepDropJudge, StepAbandon;
    match s.threads[t].op {
      case Idle =>
      case Crashed =>
      case Alloc(c, _) => AllocStill(s, t, c, 0);
      case Retry(c) => AllocStill(s, t, c, 0);
      case Partials(c) => AllocStill(s, t, c, 0);
      case Scan(c, k) => AllocStill(s, t, c, k);
      case ScanSwap(c, k) => AllocStill(s, t, c, k);
      case ScanJudge(c, k) => AllocStill(s, t, c, k);
      case AdoptLoad(c) => AdoptStill(s, t, c, false);
      case AdoptTake(c) => AdoptStill(s, t, c, false);
      case Adopt(c, got) => AdoptStill(s, t, c, got);
      case AdoptDrain(c, got) => AdoptStill(s, t, c, got);
      case AdoptJudge(c, got) => AdoptStill(s, t, c, got);
      case Fresh(c) => AdoptStill(s, t, c, false);
      case Await(c) => AdoptStill(s, t, c, false);
      case Drain(p, next) => DropStill(s, t, 0, p, next);
      case Push => DropStill(s, t, 0, 0, ToDrop(0));
      case Drop(c) => DropStill(s, t, c, 0, ToDrop(0));
      case DropDrain(c) => DropStill(s, t, c, 0, ToDrop(0));
      case DropJudge(c) => DropStill(s, t, c, 0, ToDrop(0));
      case Abandon(c) => DropStill(s, t, c, 0, ToDrop(0));
    }
  }

  // ----- the two counters

  /** Segments mapped, less segments unmapped, are those registered and those refused. */
  predicate Counts(s: State) {
    s.maps.mmaps == s.maps.munmaps + s.maps.refused + |s.pool.segs|
  }

  lemma ReleasedCount(o: Pool, p: Page)
    requires |o.out| == |o.segs|
    ensures DeallocSection(o, p).DeallocReleased? ==> |DeallocSection(o, p).pool.segs| == |o.segs| - 1
    ensures DeallocSection(o, p).DeallocKept? ==> DeallocSection(o, p).pool.segs == o.segs
  {
    hide FindSegment, OutsideOf;
  }

  lemma DeallocCounts(s: State, w: Witness, t: Tid)
    requires Inv(s, w) && t in s.threads && Counts(s)
    ensures Counts(StepDealloc(s, t))
  {
    PoolFacts(s, w);
    PooledLengths(s.pool, s.pages, w.pages);
    hide Inv, Pooled, SpansOK, DeallocSection;
    if At(s.pages, Raw(t)) != [] { ReleasedCount(s.pool, At(s.pages, Raw(t))[0]); }
  }

  lemma PurgeCounts(s: State, t: Tid)
    requires t in s.threads && Counts(s)
    ensures Counts(StepPurgeEnter(s, t)) && Counts(StepPurgeExit(s, t))
  {
    hide PurgeTake, PurgeReturn;
    if PurgeTake(s.pool, []).Some? { PurgeTakeSegs(s.pool, []); }
    if PurgeReturn(s.pool, At(s.pages, Purging(t))).Some? { PurgeReturnMembers(s.pool, At(s.pages, Purging(t))); }
  }

  lemma {:induction false} PurgeTakeSegs(o: Pool, buf: seq<Page>)
    requires PurgeTake(o, buf).Some?
    ensures PurgeTake(o, buf).value.0.segs == o.segs
    decreases |o.dirty|
  {
    hide FindSegment;
    if |o.dirty| > PURGE_LOW_WATER && |buf| < BATCH {
      PurgeTakeSegs(Charge(o.(dirty := o.dirty[1..]), o.dirty[0]).value, buf + [o.dirty[0]]);
    }
  }

  lemma ObtainCounts(s: State, t: Tid, refused: bool)
    requires t in s.threads && Counts(s)
    ensures Counts(StepRegister(s, t)) && Counts(StepUnmap(s, t, refused))
  {
    hide Range;
  }

  lemma CarveCounts(s: State, t: Tid)
    requires t in s.threads && Counts(s)
    ensures Counts(StepAllocEnter(s, t))
  {
    hide FindSegment;
  }

  lemma StepCounts(s: State, w: Witness, t: Tid, e: Event)
    requires Inv(s, w) && Enabled(s, t, e) && Counts(s)
    ensures Counts(Next(s, t, e))
  {
    hide Inv, StepOp, StepFree, StepDealloc, StepPurgeEnter, StepPurgeExit, StepAllocEnter, StepRegister,
         StepUnmap, Shift;
    match e {
      case Go =>
        if InPool(s.threads[t]) {
          DeallocCounts(s, w, t);
          PurgeCounts(s, t);
          CarveCounts(s, t);
          ObtainCounts(s, t, s.threads[t].pool.Unmap? && s.threads[t].pool.refused);
        } else {
          OpStill(s, t);
        }
      case StartFree(id) => FreeStill(s, t, id);
      case _ =>
    }
  }

  lemma {:induction false} RunCounts(tr: seq<State>, n: nat)
    requires Run(tr) && n < |tr|
    ensures Counts(tr[n])
  {
    hide Init, Next, Enabled, Inv, Counts, Goes;
    if n == 0 {
      InitCounts(tr[0]);
    } else {
      RunCounts(tr, n - 1);
      var w := RunInv(tr, n - 1);
      var t, e := StepOf(tr, n);
      StepCounts(tr[n - 1], w, t, e);
    }
  }

  lemma InitCounts(s: State)
    requires Init(s)
    ensures Counts(s)
  {
  }

  /**
   `segment_mmap_count` less `segment_munmap_count` exceeds the registered segments by exactly the
   refusals, so it is their number if and only if no segment was ever refused.
   */
  lemma SegmentCountExact(tr: seq<State>, n: nat)
    requires Run(tr) && n < |tr|
    ensures var s := tr[n];
            && s.maps.mmaps - s.maps.munmaps == |s.pool.segs| + s.maps.refused
            && (s.maps.mmaps - s.maps.munmaps == |s.pool.segs| <==> s.maps.refused == 0)
  {
    hide Run;
    RunCounts(tr, n);
  }

  // ----- the history of segments

  datatype Label = Label(t: Tid, e: Event)

  /** A run together with who did what. */
  ghost predicate History(tr: seq<State>, ls: seq<Label>) {
    && |tr| == |ls| + 1 && Init(tr[0])
    && forall i :: 0 <= i < |ls| ==> Enabled(tr[i], ls[i].t, ls[i].e) && tr[i + 1] == Next(tr[i], ls[i].t, ls[i].e)
  }

  lemma HistoryRuns(tr: seq<State>, ls: seq<Label>)
    requires History(tr, ls)
    ensures Run(tr)
  {
    hide Init, Next, Enabled;
    forall i | 0 <= i < |tr| - 1 ensures Goes(tr[i], tr[i + 1]) {
      assert Enabled(tr[i], ls[i].t, ls[i].e) && tr[i + 1] == Next(tr[i], ls[i].t, ls[i].e);
    }
  }

  /** The page allocator hands out `b`. */
  predicate Obtains(l: Label, b: nat) {
    l.e == Mapped(b)
  }

  /** The thread calls `page_alloc.dealloc` on `b`, after a release or a refusal. */
  predicate GivesBack(s: State, l: Label, b: nat) {
    l.e == Go && l.t in s.threads && s.threads[l.t].pool.Unmap? && At(s.spans, Flight(l.t)) == [b]
  }

  function Obtained(ls: seq<Label>, n: nat, b: nat): nat
    requires n <= |ls|
  {
    if n == 0 then 0 else Obtained(ls, n - 1, b) + if Obtains(ls[n - 1], b) then 1 else 0
  }

  function GivenBack(tr: seq<State>, ls: seq<Label>, n: nat, b: nat): nat
    requires n <= |ls| <= |tr|
  {
    if n == 0 then 0 else GivenBack(tr, ls, n - 1, b) + if GivesBack(tr[n - 1], ls[n - 1], b) then 1 else 0
  }

  lemma SectionsMapped(s: State, t: Tid)
    requires t in s.threads
    ensures StepDealloc(s, t).mapped == s.mapped && StepPurgeEnter(s, t).mapped == s.mapped
    ensures StepPurgeExit(s, t).mapped == s.mapped && StepAllocEnter(s, t).mapped == s.mapped
    ensures StepRegister(s, t).mapped == s.mapped
  {
    hide DeallocSection, PurgeTake, PurgeReturn, AllocSection, RegisterSection;
  }

  /** One step of the history: what is mapped follows what is obtained and given back. */
  lemma MappedStep(s: State, w: Witness, l: Label, b: nat)
    requires Inv(s, w) && Enabled(s, l.t, l.e)
    ensures Obtains(l, b) ==> b !in s.mapped && b in Next(s, l.t, l.e).mapped && !GivesBack(s, l, b)
    ensures GivesBack(s, l, b) ==> b in s.mapped && b !in Next(s, l.t, l.e).mapped
    ensures !Obtains(l, b) && !GivesBack(s, l, b) ==> (b in Next(s, l.t, l.e).mapped <==> b in s.mapped)
  {
    hide Inv, StepOp, StepFree, StepDealloc, StepPurgeEnter, StepPurgeExit, StepAllocEnter, StepRegister, Shift;
    var t := l.t;
    match l.e {
      case Go =>
        if InPool(s.threads[t]) {
          SectionsMapped(s, t);
          if s.threads[t].pool.Unmap? { UnmapFacts(s, w, t); }
        } else {
          OpStill(s, t);
        }
      case StartFree(id) => FreeStill(s, t, id);
      case _ =>
    }
  }

  lemma UnmapFacts(s: State, w: Witness, t: Tid)
    requires Inv(s, w) && t in s.threads && s.threads[t].pool.Unmap?
    ensures |At(s.spans, Flight(t))| == 1 && At(s.spans, Flight(t))[0] in s.mapped
  {
    hide Inv, OpOK;
    ThreadFacts(s, w, t);
    PoolFacts(s, w);
    hide Pooled;
    FlightFacts(s, w.spans, t);
  }

  /**
   Over every history each segment has been obtained as often as it has been given back, plus once
   if it is mapped now: it is never given back twice, and never without having been obtained.
   */
  lemma {:induction false} ObtainedOnce(tr: seq<State>, ls: seq<Label>, n: nat, b: nat)
    requires History(tr, ls) && n <= |ls|
    ensures Obtained(ls, n, b) == GivenBack(tr, ls, n, b) + if b in tr[n].mapped then 1 else 0
  {
    if n > 0 {
      hide Init, Next, Enabled, Obtains, GivesBack, Inv;
      var i := n - 1;
      ObtainedOnce(tr, ls, i, b);
      assert Enabled(tr[i], ls[i].t, ls[i].e) && tr[i + 1] == Next(tr[i], ls[i].t, ls[i].e);
      HistoryRuns(tr, ls);
      var w := RunInv(tr, i);
      MappedStep(tr[i], w, ls[i], b);
    }
  }

  /**
   Over every history that ends with no call under way, followed by `Drop`: each segment is given
   back exactly as often as it was obtained, through early releases, refusals and `Drop` together.
   */
  lemma EverySegmentGivenBack(tr: seq<State>, ls: seq<Label>, b: nat)
    requires History(tr, ls)
    requires forall t :: t in tr[|ls|].threads ==> AtRest(tr[|ls|].threads[t])
    ensures var s := tr[|ls|];
            && DropPool(s.pool, At(s.pages, Cached), []).Some?
            && Obtained(ls, |ls|, b)
               == GivenBack(tr, ls, |ls|, b) + multiset(DropPool(s.pool, At(s.pages, Cached), []).value)[b]
  {
    HistoryRuns(tr, ls);
    ObtainedOnce(tr, ls, |ls|, b);
    hide History, Run, DropPool, Obtained, GivenBack;
    DropGivesBackAll(tr, |ls|, b);
  }
}
