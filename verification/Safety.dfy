/**
 Every step of every thread keeps the invariant, so every state of every run has it.
 */
module Safety {
  import opened Places
  import opened Tiling
  import opened PoolSections
  import opened PoolInvariant
  import opened PoolSteps
  import opened SizeClasses
  import opened SlabGeometry
  import opened System
  import opened SystemInvariant
  import opened Frames
  import opened ControlSteps
  import opened SlotSteps
  import opened PageSteps
  import opened SlabSteps
  import opened PoolOpSteps
  import opened LifeSteps

  lemma InitPooled(s: State)
    requires Init(s)
    ensures Pooled(s.pool, s.pages, map[])
  {
    var w: map<Page, PagePlace> := map[];
    assert forall a: PagePlace :: At(PageLists(s.pool, s.pages), a) == [];
    assert InUse(w) == {};
  }

  lemma InitThreads(s: State)
    requires Init(s)
    ensures ThreadsOK(s)
  {
    forall t | t in s.threads ensures ThreadOK(s, t) {}
  }

  lemma InitInv(s: State)
    requires Init(s)
    ensures Inv(s, W(map[], map[], map[]))
  {
    hide Pooled, ThreadsOK;
    InitPooled(s);
    InitThreads(s);
  }

  // ----- one lemma per kind of position

  /** The thread is through with its allocation and has a fresh one. */
  ghost predicate Served(s: State, s': State, t: Tid) {
    t in s'.threads && s'.threads[t].op.Idle? && s'.nextId == s.nextId + 1
  }

  lemma AllocStep(s: State, w: Witness, t: Tid, c: nat, again: bool) returns (w': Witness)
    requires Inv(s, w) && t in s.threads && s.threads[t].op == Alloc(c, again)
    ensures Inv(StepAlloc(s, t, c), w')
    ensures again ==> Served(s, StepAlloc(s, t, c), t)
  {
    hide Inv, SlotCount, ClassSize;
    ThreadFacts(s, w, t);
    if At(s.pages, Bin(t, c)) == [] {
      AllocMissOK(s, w, t, c, again);
      w' := w;
    } else {
      var p := At(s.pages, Bin(t, c))[0];
      PageAt(s, w, Bin(t, c), 0);
      BinFacts(s, w, t, p, c);
      if Free(s, p) > 0 {
        AllocHitOK(s, w, t, c, p);
        w' := w.(slots := w.slots[At(s.slots, Source(s, p))[0] := Live(s.nextId)]);
      } else {
        AllocSwapOK(s, w, t, c, again);
        w' := w.(slots := Renamed(w.slots, Remote(p), Draining(t)));
      }
    }
  }

  lemma RetryStep(s: State, w: Witness, t: Tid, c: nat) returns (w': Witness)
    requires Inv(s, w) && t in s.threads && s.threads[t].op == Retry(c)
    ensures Inv(StepRetry(s, t, c), w')
  {
    hide Inv, SlotCount, ClassSize;
    ThreadFacts(s, w, t);
    var p := At(s.pages, Bin(t, c))[0];
    PageAt(s, w, Bin(t, c), 0);
    BinFacts(s, w, t, p, c);
    if Free(s, p) > 0 {
      AllocHitOK(s, w, t, c, p);
      w' := w.(slots := w.slots[At(s.slots, Source(s, p))[0] := Live(s.nextId)]);
    } else {
      RetireOK(s, w, t, c);
      w' := w.(pages := w.pages[p := Full(t, c)]);
    }
  }

  lemma PartialsStep(s: State, w: Witness, t: Tid, c: nat) returns (w': Witness)
    requires Inv(s, w) && t in s.threads && s.threads[t].op == Partials(c)
    ensures Inv(StepPartials(s, t, c), w')
  {
    hide Inv;
    if At(s.pages, Partial(t, c)) != [] {
      PartialsHitOK(s, w, t, c);
      w' := w.(pages := w.pages[At(s.pages, Partial(t, c))[0] := Bin(t, c)]);
    } else {
      PartialsMissOK(s, w, t, c);
      w' := w;
    }
  }

  lemma ScanJudgeStep(s: State, w: Witness, t: Tid, c: nat, k: nat) returns (w': Witness)
    requires Inv(s, w) && t in s.threads && s.threads[t].op == ScanJudge(c, k)
    ensures Inv(StepScanJudge(s, t, c, k), w')
  {
    hide Inv, SlotCount;
    ThreadFacts(s, w, t);
    var p := At(s.pages, Full(t, c))[k];
    PageAt(s, w, Full(t, c), k);
    if FullyFree(s, p) {
      ScanHandOffOK(s, w, t, c, k);
      w' := W(w.pages[p := Raw(t)], Cleared(w.slots, Local(p), Virgin(p)), w.spans);
    } else if Free(s, p) > 0 {
      ScanMoveOK(s, w, t, c, k);
      w' := w.(pages := w.pages[p := if At(s.pages, Bin(t, c)) == [] then Bin(t, c) else Partial(t, c)]);
    } else {
      ScanNoneOK(s, w, t, c, k);
      w' := w;
    }
  }

  lemma AdoptStep(s: State, w: Witness, t: Tid, c: nat, got: bool)
    requires Inv(s, w) && t in s.threads && s.threads[t].op == Adopt(c, got) && s.threads[t].pool.PIdle?
    ensures Inv(StepAdopt(s, t, c, got), w)
  {
    hide Inv;
    if At(s.pages, Hand(t)) == [] { AdoptEndOK(s, w, t, c, got); } else { AdoptClaimOK(s, w, t, c, got); }
  }

  lemma AdoptJudgeStep(s: State, w: Witness, t: Tid, c: nat, got: bool) returns (w': Witness)
    requires Inv(s, w) && t in s.threads && s.threads[t].op == AdoptJudge(c, got)
    ensures Inv(StepAdoptJudge(s, t, c, got), w')
  {
    hide Inv, SlotCount, ClassSize;
    ThreadFacts(s, w, t);
    var p := At(s.pages, Hand(t))[0];
    ClaimedFacts(s, w, t, p);
    if FullyFree(s, p) {
      AdoptHandOffOK(s, w, t, c, got);
      w' := W(w.pages[p := Raw(t)], Cleared(w.slots, Local(p), Virgin(p)), w.spans);
    } else if !got && Free(s, p) > 0 {
      AdoptAllocOK(s, w, t, c);
      w' := w.(pages := w.pages[p := Bin(t, c)], slots := w.slots[At(s.slots, Source(s, p))[0] := Live(s.nextId)]);
    } else {
      AdoptQueueOK(s, w, t, c, got);
      w' := w.(pages := w.pages[p := if Free(s, p) > 0 then Partial(t, c) else Full(t, c)]);
    }
  }

  lemma FreshStep(s: State, w: Witness, t: Tid, c: nat) returns (w': Witness)
    requires Inv(s, w) && t in s.threads && s.threads[t].op == Fresh(c)
    ensures Inv(StepFresh(s, t, c), w')
  {
    hide Inv;
    if At(s.pages, Cached) != [] {
      UncacheOK(s, w, t, c);
      w' := w.(pages := w.pages[At(s.pages, Cached)[0] := Raw(t)]);
    } else {
      FreshMissOK(s, w, t, c);
      w' := w;
    }
  }

  lemma AwaitStep(s: State, w: Witness, t: Tid, c: nat) returns (w': Witness)
    requires Inv(s, w) && t in s.threads && s.threads[t].op == Await(c) && !InPool(s.threads[t])
    ensures Inv(StepAwait(s, t, c), w')
  {
    hide Inv, StepAwait, InitWhere;
    ThreadFacts(s, w, t);
    if s.threads[t].pool.Failed? {
      AwaitFailedOK(s, w, t, c);
      w' := w;
    } else {
      InitOK(s, w, t, c);
      var p := At(s.pages, Raw(t))[0];
      w' := w.(pages := w.pages[p := Bin(t, c)], slots := InitWhere(s, w.slots, p, c));
    }
  }

  lemma DrainStep(s: State, w: Witness, t: Tid, p: Page, next: Cont) returns (w': Witness)
    requires Inv(s, w) && t in s.threads && s.threads[t].op == Drain(p, next)
    ensures Inv(StepDrain(s, t, p, next), w')
  {
    hide Inv;
    if At(s.slots, Draining(t)) != [] {
      DrainMoveOK(s, w, t, p, next);
      w' := w.(slots := w.slots[At(s.slots, Draining(t))[0] := Local(p)]);
    } else {
      DrainEndOK(s, w, t, p, next);
      w' := w;
    }
  }

  lemma DropStep(s: State, w: Witness, t: Tid, c: nat) returns (w': Witness)
    requires Inv(s, w) && t in s.threads && s.threads[t].op == Drop(c) && s.threads[t].pool.PIdle?
    ensures Inv(StepDrop(s, t, c), w')
  {
    hide Inv;
    ThreadFacts(s, w, t);
    if c >= NUM_CLASSES {
      DropEndOK(s, w, t);
      w' := w;
    } else if ClassEmpty(s.pages, t, c) {
      DropNextOK(s, w, t, c);
      w' := w;
    } else {
      var a := if At(s.pages, Bin(t, c)) != [] then Bin(t, c)
               else if At(s.pages, Full(t, c)) != [] then Full(t, c) else Partial(t, c);
      DropTakeOK(s, w, t, c, a);
      w' := w.(pages := w.pages[At(s.pages, a)[0] := Hand(t)]);
    }
  }

  lemma DropJudgeStep(s: State, w: Witness, t: Tid, c: nat) returns (w': Witness)
    requires Inv(s, w) && t in s.threads && s.threads[t].op == DropJudge(c)
    ensures Inv(StepDropJudge(s, t, c), w')
  {
    hide Inv, SlotCount;
    ThreadFacts(s, w, t);
    PageAt(s, w, Hand(t), 0);
    var p := At(s.pages, Hand(t))[0];
    if FullyFree(s, p) {
      DropHandOffOK(s, w, t, c);
      w' := W(w.pages[p := Raw(t)], Cleared(w.slots, Local(p), Virgin(p)), w.spans);
    } else {
      DropJudgeKeepOK(s, w, t, c);
      w' := w;
    }
  }

  lemma OpStep(s: State, w: Witness, t: Tid) returns (w': Witness)
    requires Inv(s, w) && t in s.threads && !InPool(s.threads[t])
    ensures Inv(StepOp(s, t), w')
  {
    hide Inv, StepAlloc, StepRetry, StepPartials, StepScan, StepScanJudge, StepAdoptLoad, StepAdoptTake, StepAdopt,
         StepAdoptJudge, StepFresh, StepAwait, StepDrain, StepPush, StepDrop, StepDropJudge, StepAbandon, OpOK,
         HoldsOK;
    ThreadFacts(s, w, t);
    w' := w;
    match s.threads[t].op {
      case Idle =>
      case Alloc(c, again) => w' := AllocStep(s, w, t, c, again);
      case Retry(c) => w' := RetryStep(s, w, t, c);
      case Partials(c) => w' := PartialsStep(s, w, t, c);
      case Scan(c, k) => ScanControlOK(s, w, t, c, k);
      case ScanSwap(c, k) => ScanSwapOK(s, w, t, c, k);
        w' := w.(slots := Renamed(w.slots, Remote(At(s.pages, Full(t, c))[k]), Draining(t)));
      case ScanJudge(c, k) => w' := ScanJudgeStep(s, w, t, c, k);
      case AdoptLoad(c) => AdoptLoadOK(s, w, t, c);
      case AdoptTake(c) => AdoptTakeOK(s, w, t, c); w' := w.(pages := Renamed(w.pages, Abandoned(c), Hand(t)));
      case Adopt(c, got) => AdoptStep(s, w, t, c, got);
      case AdoptDrain(c, got) => AdoptDrainOK(s, w, t, c, got);
        w' := w.(slots := Renamed(w.slots, Remote(At(s.pages, Hand(t))[0]), Draining(t)));
      case AdoptJudge(c, got) => w' := AdoptJudgeStep(s, w, t, c, got);
      case Fresh(c) => w' := FreshStep(s, w, t, c);
      case Await(c) => w' := AwaitStep(s, w, t, c);
      case Drain(p, next) => w' := DrainStep(s, w, t, p, next);
      case Push => PushOK(s, w, t);
        w' := w.(slots := w.slots[At(s.slots, Pushing(t))[0] := Remote(At(s.slots, Pushing(t))[0].page)]);
      case Drop(c) => w' := DropStep(s, w, t, c);
      case DropDrain(c) => DropDrainOK(s, w, t, c);
        w' := w.(slots := Renamed(w.slots, Remote(At(s.pages, Hand(t))[0]), Draining(t)));
      case DropJudge(c) => w' := DropJudgeStep(s, w, t, c);
      case Abandon(c) => AbandonOK(s, w, t, c);
        var p := At(s.pages, Hand(t))[0];
        w' := w.(pages := w.pages[p := Abandoned(s.slabs[p].sizeClass)]);
      case Crashed =>
    }
  }

  // ----- inside the pool

  lemma DeallocStep(s: State, w: Witness, t: Tid) returns (w': Witness)
    requires Inv(s, w) && t in s.threads && s.threads[t].pool.DeallocEnter?
    ensures At(s.pages, Raw(t)) != [] && !DeallocSection(s.pool, At(s.pages, Raw(t))[0]).DeallocPanic?
    ensures Inv(StepDealloc(s, t), w')
  {
    hide Inv, StepDealloc, DeallocSection, PoolInv, Tiled;
    ThreadFacts(s, w, t);
    PoolFacts(s, w);
    var p := At(s.pages, Raw(t))[0];
    ReturnedOK(s.pool, s.pages, w.pages, t);
    ReturnedSection(s.pool, p, w.pages[p := Dirty]);
    if DeallocSection(s.pool, p).DeallocKept? {
      DeallocKeptOK(s, w, t);
      w' := w.(pages := w.pages[p := Dirty]);
    } else {
      w' := DeallocReleasedOK(s, w, t);
    }
  }

  lemma AllocEnterStep(s: State, w: Witness, t: Tid) returns (w': Witness)
    requires Inv(s, w) && t in s.threads && s.threads[t].pool.AllocEnter?
    ensures !AllocSection(s.pool).AllocPanic?
    ensures Inv(StepAllocEnter(s, t), w')
  {
    hide Inv, AllocSection;
    AllocNeverPanics(s, w, t);
    if AllocSection(s.pool).AllocGot? {
      AllocGotOK(s, w, t);
      w' := w.(pages := w.pages[AllocSection(s.pool).page := Raw(t)]);
    } else {
      AllocEmptyOK(s, w, t);
      w' := w;
    }
  }

  lemma RegisterStep(s: State, w: Witness, t: Tid) returns (w': Witness)
    requires Inv(s, w) && t in s.threads && s.threads[t].pool.Register?
    ensures Inv(StepRegister(s, t), w')
  {
    hide Inv;
    ThreadFacts(s, w, t);
    if |s.pool.segs| < MAX_SEGMENTS {
      w' := RegisterOpOK(s, w, t);
    } else {
      RefusedOK(s, w, t);
      w' := w;
    }
  }

  lemma PoolOpStep(s: State, w: Witness, t: Tid) returns (w': Witness)
    requires Inv(s, w) && t in s.threads && InPool(s.threads[t])
    ensures Inv(StepPool(s, t), w')
  {
    hide Inv, StepDealloc, StepPurgeEnter, StepPurgeExit, StepAllocEnter, StepRegister, StepUnmap;
    w' := w;
    match s.threads[t].pool {
      case CachePush => CachePushOK(s, w, t); w' := w.(pages := w.pages[At(s.pages, Raw(t))[0] := Cached]);
      case DeallocEnter => w' := DeallocStep(s, w, t);
      case PurgeEnter => w' := PurgeEnterOK(s, w, t);
      case PurgeExit => w' := PurgeExitOK(s, w, t);
      case AllocEnter => w' := AllocEnterStep(s, w, t);
      case Register => w' := RegisterStep(s, w, t);
      case Unmap(refused) => UnmapOK(s, w, t, refused); w' := w.(spans := Cleared(w.spans, Flight(t), Flight(t)));
      case _ => PoolControlOK(s, w, t);
    }
  }

  // ----- client events

  lemma FreeStep(s: State, w: Witness, t: Tid, id: nat) returns (w': Witness)
    requires Inv(s, w) && Enabled(s, t, StartFree(id))
    ensures Inv(StepFree(s, t, id), w')
  {
    hide Inv, SlotCount, ClassSize, FreeRemote, FreeQueued;
    SlotFacts(s, w, Live(id), 0);
    var x := At(s.slots, Live(id))[0];
    var p := x.page;
    var c := s.slabs[p].sizeClass;
    if !s.threads[t].heap.Running? {
      FreeRemoteOK(s, s.(lostBytes := s.lostBytes + ClassSize(c)), w, t, id);
      LostFirst(s, t, id, s.lostBytes + ClassSize(c));
      w' := w.(slots := w.slots[x := Pushing(t)]);
    } else if At(s.pages, Bin(t, c)) == [p] {
      FreeBinOK(s, w, t, id, c, p);
      w' := w.(slots := w.slots[x := Local(p)]);
    } else if s.slabs[p].heapId == s.threads[t].heap.id {
      w' := FreeQueuedOK(s, w, t, id, p);
    } else {
      FreeRemoteOK(s, s.(freeBytes := s.freeBytes + ClassSize(c)), w, t, id);
      w' := w.(slots := w.slots[x := Pushing(t)]);
    }
  }

  lemma LostFirst(s: State, t: Tid, id: nat, n: nat)
    requires t in s.threads && At(s.slots, Live(id)) != []
    ensures FreeRemote(s.(lostBytes := n), t, id) == FreeRemote(s, t, id).(lostBytes := n)
  {
  }

  /** One step of any thread, or of the client, or of the page allocator. */
  lemma StepInv(s: State, w: Witness, t: Tid, e: Event) returns (w': Witness)
    requires Inv(s, w) && Enabled(s, t, e)
    ensures Inv(Next(s, t, e), w')
  {
    hide Inv, StepPool, StepOp, StepFree;
    w' := w;
    match e {
      case Go => if InPool(s.threads[t]) { w' := PoolOpStep(s, w, t); } else { w' := OpStep(s, w, t); }
      case NewHeap => NewHeapOK(s, w, t);
      case StartAlloc(c) => StartAllocOK(s, w, t, c);
      case StartFree(id) => w' := FreeStep(s, w, t, id);
      case Exit => ExitOK(s, w, t);
      case Mapped(base) => MappedOK(s, w, t, base); w' := w.(spans := Joined(w.spans, Flight(t), [base]));
    }
  }

  /** Every state of every interleaved run satisfies the invariant. */
  lemma {:induction false} RunInv(tr: seq<State>, n: nat) returns (w: Witness)
    requires Run(tr) && n < |tr|
    ensures Inv(tr[n], w)
  {
    hide Inv, Init, Next;
    if n == 0 {
      InitInv(tr[0]);
      w := W(map[], map[], map[]);
    } else {
      var v := RunInv(tr, n - 1);
      var t, e := StepOf(tr, n);
      w := StepInv(tr[n - 1], v, t, e);
    }
  }
}
