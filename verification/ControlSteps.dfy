/**
 Steps that only move a thread to a new position.
 */
module ControlSteps {
  import opened Places
  import opened Tiling
  import opened PoolSections
  import opened PoolInvariant
  import opened PoolSteps
  import opened SizeClasses
  import opened SlabGeometry
  import opened System
  import opened SystemInvariant
  import opened Frames

  lemma ThreadFacts(s: State, w: Witness, t: Tid)
    requires Inv(s, w) && t in s.threads
    ensures ThreadOK(s, t)
  {
  }

  /** No page is filed under a list that is empty. */
  lemma NoPageAt(s: State, w: Witness, a: PagePlace)
    requires Inv(s, w) && !a.Uncarved? && !a.Dirty? && !a.Clean? && At(s.pages, a) == []
    ensures forall q :: q in w.pages ==> w.pages[q] != a
  {
    hide Tiled, PoolInv;
    assert At(PageLists(s.pool, s.pages), a) == At(s.pages, a);
    NobodyAt(PageLists(s.pool, s.pages), w.pages, a);
  }

  lemma HandFacts(s: State, w: Witness, t: Tid, q: Page)
    requires Inv(s, w) && t in s.threads && q in w.pages && w.pages[q] == Hand(t)
    ensures q in s.slabs
    ensures Discarding(s.threads[t].op) || Adopting(s.threads[t].op, s.slabs[q].sizeClass)
  {
    hide Tiled, PoolInv, ThreadsOK, SlotsOK, SpansOK, OwnersOK;
    assert PlaceOK(s, q, w.pages[q]);
  }

  lemma BinFacts(s: State, w: Witness, t: Tid, q: Page, c: nat)
    requires Inv(s, w) && t in s.threads && q in w.pages && w.pages[q] == Bin(t, c)
    ensures At(s.pages, Bin(t, c)) == [q]
    ensures Owns(s, t, c, q) && (Ready(s.threads[t].op, c) ==> Free(s, q) > 0)
  {
    hide PoolInv, SlotsOK, SpansOK, OwnersOK, OpOK, HoldsOK;
    assert PlaceOK(s, q, w.pages[q]);
    assert q in At(PageLists(s.pool, s.pages), Bin(t, c));
    assert At(PageLists(s.pool, s.pages), Bin(t, c)) == At(s.pages, Bin(t, c));
    assert ThreadOK(s, t);
  }

  /** The new position asks nothing new of the bin, and no scan in progress is forgotten. */
  ghost predicate Smooth(s: State, t: Tid, op': Op)
    requires t in s.threads
  {
    var op := s.threads[t].op;
    && (forall c :: Ready(op', c) ==> Ready(op, c) || At(s.pages, Bin(t, c)) == [])
    && (forall c :: ScanPos(op, c).Some? && ScanPos(op, c).value < |At(s.pages, Full(t, c))| ==>
                      Free(s, At(s.pages, Full(t, c))[ScanPos(op, c).value]) == 0 || ScanPos(op', c) == ScanPos(op, c))
    && (At(s.pages, Hand(t)) == [] || Discarding(op')
        || (!Discarding(op) && forall c :: Adopting(op, c) ==> Adopting(op', c)))
    && (Claiming(op) ==> Claiming(op') || Dying(op'))
    && (Claiming(op') ==> Claiming(op))
    && (Dying(op) ==> Dying(op'))
  }

  lemma SmoothFits(s: State, s': State, w: Witness, t: Tid, q: Page)
    requires Inv(s, w) && t in s.threads && t in s'.threads
    requires s'.pages == s.pages && Free(s', q) == Free(s, q)
    requires q in s'.slabs ==> q in s.slabs && s'.slabs[q].sizeClass == s.slabs[q].sizeClass
    requires Smooth(s, t, s'.threads[t].op)
    requires q in w.pages && w.pages[q].Mine(t)
    ensures OpFits(s, s', t, q, w.pages[q])
  {
    hide Inv, Free;
    match w.pages[q]
    case Bin(_, c) => BinFacts(s, w, t, q, c);
    case Hand(_) =>
      HandFacts(s, w, t, q);
      if At(s.pages, Hand(t)) == [] { NoPageAt(s, w, Hand(t)); }
    case _ =>
  }

  lemma SmoothControl(s: State, s': State, w: Witness, t: Tid)
    requires Inv(s, w) && t in s.threads && t in s'.threads
    requires s' == s.(threads := s.threads[t := s'.threads[t]], cacheLen := s'.cacheLen, maps := s'.maps)
    requires s'.threads[t].heap == s.threads[t].heap
    requires ThreadOK(s', t) && At(s.slots, Draining(t)) == []
    requires Smooth(s, t, s'.threads[t].op)
    ensures Inv(s', w)
  {
    hide Inv, ThreadOK, OpFits;
    forall q | q in w.pages && w.pages[q].Mine(t) ensures OpFits(s, s', t, q, w.pages[q]) {
      SmoothFits(s, s', w, t, q);
    }
    Control(s, s', w, t);
  }

  /** A step inside the pool that changes nothing but its own position. */
  lemma PoolControl(s: State, s': State, w: Witness, t: Tid)
    requires Inv(s, w) && t in s.threads && t in s'.threads
    requires s' == s.(threads := s.threads[t := s.threads[t].(pool := s'.threads[t].pool)], cacheLen := s'.cacheLen,
             maps := s'.maps)
    requires ThreadOK(s', t) && !s.threads[t].op.Drain?
    ensures Inv(s', w)
  {
    hide Inv, SlotCount, ClassSize;
    ThreadFacts(s, w, t);
    SmoothControl(s, s', w, t);
  }

  lemma StartAllocOK(s: State, w: Witness, t: Tid, c: nat)
    requires Inv(s, w) && Enabled(s, t, StartAlloc(c))
    ensures Inv(SetOp(s, t, Alloc(c, false)), w)
  {
    hide Inv, SlotCount, ClassSize;
    ThreadFacts(s, w, t);
    SmoothControl(s, SetOp(s, t, Alloc(c, false)), w, t);
  }

  lemma ExitOK(s: State, w: Witness, t: Tid)
    requires Inv(s, w) && Enabled(s, t, Exit)
    ensures Inv(SetOp(s, t, Drop(0)), w)
  {
    hide Inv, SlotCount, ClassSize;
    ThreadFacts(s, w, t);
    SmoothControl(s, SetOp(s, t, Drop(0)), w, t);
  }

  lemma AllocMissOK(s: State, w: Witness, t: Tid, c: nat, again: bool)
    requires Inv(s, w) && t in s.threads && s.threads[t].op == Alloc(c, again) && At(s.pages, Bin(t, c)) == []
    ensures Inv(SetOp(s, t, Partials(c)), w)
  {
    hide Inv, SlotCount, ClassSize;
    ThreadFacts(s, w, t);
    SmoothControl(s, SetOp(s, t, Partials(c)), w, t);
  }

  lemma PartialsMissOK(s: State, w: Witness, t: Tid, c: nat)
    requires Inv(s, w) && t in s.threads && s.threads[t].op == Partials(c) && At(s.pages, Partial(t, c)) == []
    ensures Inv(SetOp(s, t, Scan(c, 0)), w)
  {
    hide Inv, SlotCount, ClassSize;
    ThreadFacts(s, w, t);
    SmoothControl(s, SetOp(s, t, Scan(c, 0)), w, t);
  }

  /** The second `try_partial` never finds anything: the scan fills the bin first. */
  lemma ScanControlOK(s: State, w: Witness, t: Tid, c: nat, k: nat)
    requires Inv(s, w) && t in s.threads && s.threads[t].op == Scan(c, k) && s.threads[t].pool.PIdle?
    ensures k >= |At(s.pages, Full(t, c))| && At(s.pages, Bin(t, c)) == [] ==> At(s.pages, Partial(t, c)) == []
    ensures Inv(StepScan(s, t, c, k), w)
  {
    hide Inv, SlotCount, ClassSize;
    ThreadFacts(s, w, t);
    SmoothControl(s, StepScan(s, t, c, k), w, t);
  }

  lemma ScanNoneOK(s: State, w: Witness, t: Tid, c: nat, k: nat)
    requires Inv(s, w) && t in s.threads && s.threads[t].op == ScanJudge(c, k)
    requires k < |At(s.pages, Full(t, c))| && Free(s, At(s.pages, Full(t, c))[k]) == 0
    ensures Inv(SetOp(s, t, Scan(c, k + 1)), w)
  {
    hide Inv, SlotCount, ClassSize;
    ThreadFacts(s, w, t);
    SmoothControl(s, SetOp(s, t, Scan(c, k + 1)), w, t);
  }

  lemma AdoptLoadOK(s: State, w: Witness, t: Tid, c: nat)
    requires Inv(s, w) && t in s.threads && s.threads[t].op == AdoptLoad(c)
    ensures Inv(StepAdoptLoad(s, t, c), w)
  {
    hide Inv, SlotCount, ClassSize;
    ThreadFacts(s, w, t);
    SmoothControl(s, StepAdoptLoad(s, t, c), w, t);
  }

  lemma AdoptEndOK(s: State, w: Witness, t: Tid, c: nat, got: bool)
    requires Inv(s, w) && t in s.threads && s.threads[t].op == Adopt(c, got) && s.threads[t].pool.PIdle?
    requires At(s.pages, Hand(t)) == []
    ensures Inv(StepAdopt(s, t, c, got), w)
  {
    hide Inv, SlotCount, ClassSize;
    ThreadFacts(s, w, t);
    SmoothControl(s, StepAdopt(s, t, c, got), w, t);
  }

  lemma FreshMissOK(s: State, w: Witness, t: Tid, c: nat)
    requires Inv(s, w) && t in s.threads && s.threads[t].op == Fresh(c) && At(s.pages, Cached) == []
    ensures Inv(StepFresh(s, t, c), w)
  {
    hide Inv, SlotCount, ClassSize;
    ThreadFacts(s, w, t);
    SmoothControl(s, StepFresh(s, t, c), w, t);
  }

  lemma AwaitFailedOK(s: State, w: Witness, t: Tid, c: nat)
    requires Inv(s, w) && t in s.threads && s.threads[t].op == Await(c) && s.threads[t].pool.Failed?
    ensures Inv(StepAwait(s, t, c), w)
  {
    hide Inv, SlotCount, ClassSize;
    ThreadFacts(s, w, t);
    SmoothControl(s, StepAwait(s, t, c), w, t);
  }

  lemma DrainEndOK(s: State, w: Witness, t: Tid, p: Page, next: Cont)
    requires Inv(s, w) && t in s.threads && s.threads[t].op == Drain(p, next) && At(s.slots, Draining(t)) == []
    ensures Inv(StepDrain(s, t, p, next), w)
  {
    hide Inv, SlotCount, ClassSize;
    ThreadFacts(s, w, t);
    SmoothControl(s, StepDrain(s, t, p, next), w, t);
  }

  lemma DropJudgeKeepOK(s: State, w: Witness, t: Tid, c: nat)
    requires Inv(s, w) && t in s.threads && s.threads[t].op == DropJudge(c)
    ensures Inv(SetOp(s, t, Abandon(c)), w)
  {
    hide Inv, SlotCount, ClassSize;
    ThreadFacts(s, w, t);
    SmoothControl(s, SetOp(s, t, Abandon(c)), w, t);
  }

  lemma DropNextOK(s: State, w: Witness, t: Tid, c: nat)
    requires Inv(s, w) && t in s.threads && s.threads[t].op == Drop(c) && s.threads[t].pool.PIdle?
    requires c < NUM_CLASSES && ClassEmpty(s.pages, t, c)
    ensures Inv(SetOp(s, t, Drop(c + 1)), w)
  {
    hide Inv, SlotCount, ClassSize;
    ThreadFacts(s, w, t);
    SmoothControl(s, SetOp(s, t, Drop(c + 1)), w, t);
  }

  /** Positions in pool.rs that only lead to another position. */
  lemma PoolControlOK(s: State, w: Witness, t: Tid)
    requires Inv(s, w) && t in s.threads
    requires s.threads[t].pool in {CacheEnter, CacheCount, UncacheCount, Mmap}
    ensures Inv(StepPool(s, t), w)
  {
    hide Inv, SlotCount, ClassSize;
    ThreadFacts(s, w, t);
    PoolControl(s, StepPool(s, t), w, t);
  }

  lemma AllocEmptyOK(s: State, w: Witness, t: Tid)
    requires Inv(s, w) && t in s.threads && s.threads[t].pool.AllocEnter?
    ensures Inv(SetPool(s, t, Mmap), w)
  {
    hide Inv, SlotCount, ClassSize;
    ThreadFacts(s, w, t);
    PoolControl(s, SetPool(s, t, Mmap), w, t);
  }

  lemma RefusedOK(s: State, w: Witness, t: Tid)
    requires Inv(s, w) && t in s.threads && s.threads[t].pool.Register? && |s.pool.segs| >= MAX_SEGMENTS
    ensures Inv(StepRegister(s, t), w)
  {
    hide Inv, SlotCount, ClassSize;
    ThreadFacts(s, w, t);
    PoolControl(s, StepRegister(s, t), w, t);
  }
}
