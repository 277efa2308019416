/**
 When a slab ends (src/heap.rs:191-219, 251-279, 319-345, 383-401): its page is given up if and only
 if one of the four places that judge a slab finds every slot free. What a free does to a slab that is not
 active, and what an exit does to the heap.
 */
module Reclaiming {
  import opened Places
  import opened Tiling
  import opened PoolSections
  import opened PoolInvariant
  import opened SizeClasses
  import opened SlabGeometry
  import opened System
  import opened SystemInvariant
  import opened Frames
  import opened ControlSteps
  import opened SlotSteps
  import opened PageSteps
  import opened SlabSteps
  import opened Safety
  import opened Progress
  import opened Mappings
  import opened Answers
  import opened Policies

  // ----- a free into an own slab that is not active

  /** Allocation `id` lies in a slab of this thread's heap, of class `c`, that is not the active one. */
  ghost predicate OwnQueued(s: State, t: Tid, id: nat, c: nat, p: Page) {
    && Enabled(s, t, StartFree(id)) && s.threads[t].heap.Running?
    && p == At(s.slots, Live(id))[0].page && p in s.slabs && s.slabs[p] == Header(c, s.threads[t].heap.id)
    && At(s.pages, Bin(t, c)) != [p]
  }

  /** `q'` is `q` with one occurrence of `p` taken out. */
  ghost predicate TakenOut(q: seq<Page>, q': seq<Page>, p: Page) {
    exists i: nat :: i < |q| && q[i] == p && q' == Without(q, i)
  }

  /** The free made every slot free: the slab ends, and its page is in the thread's hands. */
  ghost predicate Reclaims(s: State, s': State, t: Tid, c: nat, p: Page)
    requires t in s.threads
  {
    && s'.threads == s.threads[t := s.threads[t].(pool := CacheEnter)]
    && At(s'.pages, Raw(t)) == [p] && s'.slabs == s.slabs - {p}
    && At(s'.pages, Bin(t, c)) == At(s.pages, Bin(t, c))
    && if p in At(s.pages, Full(t, c))
       then TakenOut(At(s.pages, Full(t, c)), At(s'.pages, Full(t, c)), p)
            && At(s'.pages, Partial(t, c)) == At(s.pages, Partial(t, c))
       else TakenOut(At(s.pages, Partial(t, c)), At(s'.pages, Partial(t, c)), p)
            && At(s'.pages, Full(t, c)) == At(s.pages, Full(t, c))
  }

  /** The slab leaves the full queue; it becomes active if and only if no slab was. */
  ghost predicate Promotes(s: State, s': State, t: Tid, c: nat, p: Page) {
    && s'.threads == s.threads && s'.slabs == s.slabs
    && TakenOut(At(s.pages, Full(t, c)), At(s'.pages, Full(t, c)), p)
    && if At(s.pages, Bin(t, c)) == []
       then At(s'.pages, Bin(t, c)) == [p] && At(s'.pages, Partial(t, c)) == At(s.pages, Partial(t, c))
       else At(s'.pages, Bin(t, c)) == At(s.pages, Bin(t, c))
            && At(s'.pages, Partial(t, c)) == [p] + At(s.pages, Partial(t, c))
  }

  ghost predicate Disposed(s: State, s': State, t: Tid, c: nat, p: Page)
    requires t in s.threads
  {
    && Free(s, p) + 1 <= SlotCount(c)
    && if Free(s, p) + 1 == SlotCount(c) then Reclaims(s, s', t, c, p)
       else if p in At(s.pages, Full(t, c)) then Promotes(s, s', t, c, p)
       else s'.pages == s.pages && s'.threads == s.threads && s'.slabs == s.slabs
  }

  /**
   What becomes of the slab, in every run: reclaimed when the freed slot was the last one out, promoted
   when it was in the full queue, and left where it is otherwise.
   */
  lemma QueuedFree(tr: seq<State>, n: nat, t: Tid, id: nat, c: nat, p: Page)
    requires Run(tr) && n < |tr| && OwnQueued(tr[n], t, id, c, p)
    ensures var s, s' := tr[n], Next(tr[n], t, StartFree(id));
            && Free(s, p) + 1 <= SlotCount(c)
            && if Free(s, p) + 1 == SlotCount(c) then Reclaims(s, s', t, c, p)
               else if p in At(s.pages, Full(t, c)) then Promotes(s, s', t, c, p)
               else s'.pages == s.pages && s'.threads == s.threads && s'.slabs == s.slabs
  {
    hide Run, Inv, Reclaims, Promotes, StepFree;
    var w := RunInv(tr, n);
    QueuedFreeStep(tr[n], w, t, id, c, p);
  }

  lemma QueuedFreeStep(s: State, w: Witness, t: Tid, id: nat, c: nat, p: Page)
    requires Inv(s, w) && t in s.threads && At(s.slots, Live(id)) != [] && OwnQueued(s, t, id, c, p)
    ensures Disposed(s, StepFree(s, t, id), t, c, p)
  {
    hide Inv, SlotCount, ClassSize, Reclaims, Promotes, Free, StepFree, HoldsOK, OpOK, Shift;
    FreedFree(s, w, t, id, c, p);
    ThreadFacts(s, w, t);
    RawEmpty(s, t);
    var s1 := Freed(s, id);
    Filed(s, s1, t, c, p);
  }

  lemma RawEmpty(s: State, t: Tid)
    requires t in s.threads && HoldsOK(s, t) && s.threads[t].pool.PIdle?
    ensures At(s.pages, Raw(t)) == []
  {
  }

  lemma FreedFree(s: State, w: Witness, t: Tid, id: nat, c: nat, p: Page)
    requires Inv(s, w) && t in s.threads && At(s.slots, Live(id)) != [] && OwnQueued(s, t, id, c, p)
    ensures var s1 := Freed(s, id);
            && StepFree(s, t, id) == FreeQueued(s1, t, c, p) && Free(s1, p) == Free(s, p) + 1 <= SlotCount(c)
            && p in At(s.pages, QueueOf(s, t, c, p)) && (Free(s1, p) == 1 <==> p in At(s.pages, Full(t, c)))
  {
    hide Inv, SlotCount, ClassSize, Tiled, SlotsOK, Free, FreeQueued, Shift;
    QueuedFacts(s, w, t, p);
    FreedFrame(s, t, id);
    FreedSlots(s, w, t, id);
    FreeBound(Freed(s, id), w.slots[At(s.slots, Live(id))[0] := Local(p)], p);
    assert StepFree(s, t, id) == FreeQueued(Freed(s, id), t, c, p);
    hide StepFree;
    var w' := FreeQueuedOK(s, w, t, id, p);
  }

  lemma Filed(s: State, s1: State, t: Tid, c: nat, p: Page)
    requires t in s.threads && p in s.slabs && s.slabs[p].sizeClass == c && At(s.pages, Raw(t)) == []
    requires p in At(s.pages, QueueOf(s, t, c, p))
    requires s1.pages == s.pages && s1.threads == s.threads && s1.slabs == s.slabs
    requires Free(s1, p) == 1 <==> p in At(s.pages, Full(t, c))
    ensures var s' := FreeQueued(s1, t, c, p);
            && (FullyFree(s1, p) ==> Reclaims(s, s', t, c, p))
            && (!FullyFree(s1, p) && Free(s1, p) == 1 ==> Promotes(s, s', t, c, p))
            && (!FullyFree(s1, p) && Free(s1, p) != 1 ==> s' == s1)
  {
    hide FullyFree, Free;
    var a := QueueOf(s, t, c, p);
    var i := IndexOf(At(s.pages, a), p);
    var b := if At(s.pages, Bin(t, c)) == [] then Bin(t, c) else Partial(t, c);
    ShiftAt(s.pages, a, i, Raw(t));
    if a.Full? { ShiftAt(s.pages, a, i, b); }
    hide Shift;
  }

  // ----- every way to give up a page

  /** The slab a thread is about to judge, in `scan_full_list`, `try_adopt` or `drop`. */
  function Judged(s: State, t: Tid): Option<Page>
    requires t in s.threads
  {
    match s.threads[t].op
    case ScanJudge(c, k) =>
      var full := At(s.pages, Full(t, c));
      if k < |full| then Some(full[k]) else None
    case AdoptJudge(_, _) => if At(s.pages, Hand(t)) != [] then Some(At(s.pages, Hand(t))[0]) else None
    case DropJudge(_) => if At(s.pages, Hand(t)) != [] then Some(At(s.pages, Hand(t))[0]) else None
    case _ => None
  }

  /** The thread is about to judge this slab and every slot is free. */
  predicate JudgedFree(s: State, t: Tid, p: Page)
    requires t in s.threads
  {
    Judged(s, t) == Some(p) && p in s.slabs && FullyFree(s, p)
  }

  /** The thread frees the last slot out of a slab of its own that is not active. */
  ghost predicate LastOut(s: State, t: Tid, e: Event, p: Page) {
    e.StartFree? && t in s.threads && p in s.slabs
    && OwnQueued(s, t, e.id, s.slabs[p].sizeClass, p) && Free(s, p) + 1 == SlotCount(s.slabs[p].sizeClass)
  }

  /** The page of slab `p` is in the thread's hands, and no slab any more. */
  ghost predicate GivesUp(s: State, s': State, t: Tid, p: Page) {
    Arrives(s, s', t, CacheEnter) && At(s'.pages, Raw(t)) == [p] && p in s.slabs && s'.slabs == s.slabs - {p}
  }

  lemma AllocStays(s: State, t: Tid, c: nat, k: nat)
    requires t in s.threads && s.threads[t].pool != CacheEnter
    ensures !Arrives(s, StepAlloc(s, t, c), t, CacheEnter) && !Arrives(s, StepRetry(s, t, c), t, CacheEnter)
    ensures !Arrives(s, StepPartials(s, t, c), t, CacheEnter) && !Arrives(s, StepScan(s, t, c, k), t, CacheEnter)
    ensures !Arrives(s, StepScanSwap(s, t, c, k), t, CacheEnter)
  {
    hide SlotCount, ClassSize, Shift, Pour, Free;
  }

  lemma AdoptStays(s: State, t: Tid, c: nat, got: bool)
    requires t in s.threads && s.threads[t].pool != CacheEnter
    ensures !Arrives(s, StepAdoptLoad(s, t, c), t, CacheEnter) && !Arrives(s, StepAdoptTake(s, t, c), t, CacheEnter)
    ensures !Arrives(s, StepAdopt(s, t, c, got), t, CacheEnter)
    ensures !Arrives(s, StepAdoptDrain(s, t, c, got), t, CacheEnter)
    ensures !Arrives(s, StepFresh(s, t, c), t, CacheEnter) && !Arrives(s, StepAwait(s, t, c), t, CacheEnter)
  {
    hide SlotCount, ClassSize, Shift, Pour, Free, AllSlots;
  }

  lemma DropStays(s: State, t: Tid, c: nat, p: Page, next: Cont)
    requires t in s.threads && s.threads[t].pool != CacheEnter
    ensures !Arrives(s, StepDrop(s, t, c), t, CacheEnter) && !Arrives(s, StepDropDrain(s, t, c), t, CacheEnter)
    ensures !Arrives(s, StepAbandon(s, t, c), t, CacheEnter) && !Arrives(s, StepDrain(s, t, p, next), t, CacheEnter)
    ensures !Arrives(s, StepPush(s, t), t, CacheEnter)
  {
    hide Shift, Pour;
  }

  lemma HandsOff(s: State, t: Tid, a: PagePlace, i: nat)
    requires t in s.threads && i < |At(s.pages, a)| && a != Raw(t) && At(s.pages, Raw(t)) == []
    ensures var s' := HandOff(s, t, a, i);
            && At(s'.pages, Raw(t)) == [At(s.pages, a)[i]] && s'.slabs == s.slabs - {At(s.pages, a)[i]}
            && s'.threads == s.threads[t := s.threads[t].(pool := CacheEnter)]
  {
    ShiftAt(s.pages, a, i, Raw(t));
    hide Shift;
  }

  lemma ScanGives(s: State, t: Tid, c: nat, k: nat)
    requires t in s.threads && s.threads[t].op == ScanJudge(c, k) && k < |At(s.pages, Full(t, c))|
    requires At(s.pages, Full(t, c))[k] in s.slabs && At(s.pages, Raw(t)) == [] && s.threads[t].pool == PIdle
    ensures var s', p := StepScanJudge(s, t, c, k), At(s.pages, Full(t, c))[k];
            if FullyFree(s, p) then GivesUp(s, s', t, p) else !Arrives(s, s', t, CacheEnter)
  {
    hide SlotCount, Shift, FullyFree, Free;
    HandsOff(s, t, Full(t, c), k);
    hide HandOff;
  }

  lemma AdoptGives(s: State, t: Tid, c: nat, got: bool)
    requires t in s.threads && s.threads[t].op == AdoptJudge(c, got) && At(s.pages, Hand(t)) != []
    requires At(s.pages, Hand(t))[0] in s.slabs && At(s.pages, Raw(t)) == [] && s.threads[t].pool == PIdle
    ensures var s', p := StepAdoptJudge(s, t, c, got), At(s.pages, Hand(t))[0];
            if FullyFree(s, p) then GivesUp(s, s', t, p) else !Arrives(s, s', t, CacheEnter)
  {
    hide SlotCount, ClassSize, Shift, FullyFree, Free;
    HandsOff(s, t, Hand(t), 0);
    hide HandOff;
  }

  lemma DropGives(s: State, t: Tid, c: nat)
    requires t in s.threads && s.threads[t].op == DropJudge(c) && At(s.pages, Hand(t)) != []
    requires At(s.pages, Hand(t))[0] in s.slabs && At(s.pages, Raw(t)) == [] && s.threads[t].pool == PIdle
    ensures var s', p := StepDropJudge(s, t, c), At(s.pages, Hand(t))[0];
            if FullyFree(s, p) then GivesUp(s, s', t, p) else !Arrives(s, s', t, CacheEnter)
  {
    hide SlotCount, Shift, FullyFree, Free;
    HandsOff(s, t, Hand(t), 0);
    hide HandOff;
  }

  /** The three positions that judge a slab. */
  lemma JudgeGives(s: State, w: Witness, t: Tid, p: Page)
    requires Inv(s, w) && t in s.threads && Judged(s, t) == Some(p)
    ensures if JudgedFree(s, t, p) then GivesUp(s, StepOp(s, t), t, p) else !Arrives(s, StepOp(s, t), t, CacheEnter)
  {
    hide Inv, FullyFree, Free, StepScanJudge, StepAdoptJudge, StepDropJudge, GivesUp, Arrives;
    JudgedSlab(s, w, t, p);
    match s.threads[t].op {
      case ScanJudge(c, k) => ScanGives(s, t, c, k);
      case AdoptJudge(c, got) => AdoptGives(s, t, c, got);
      case DropJudge(c) => DropGives(s, t, c);
    }
  }

  lemma JudgedSlab(s: State, w: Witness, t: Tid, p: Page)
    requires Inv(s, w) && t in s.threads && Judged(s, t) == Some(p)
    ensures p in s.slabs && At(s.pages, Raw(t)) == [] && s.threads[t].pool == PIdle
  {
    hide Inv, OpOK, Free, SlotCount;
    ThreadFacts(s, w, t);
    match s.threads[t].op {
      case ScanJudge(c, k) => PageAt(s, w, Full(t, c), k);
      case AdoptJudge(c, got) => PageAt(s, w, Hand(t), 0);
      case DropJudge(c) => PageAt(s, w, Hand(t), 0);
    }
  }

  /** A judging thread has a slab to judge, and is not inside the pool. */
  lemma HasSlab(s: State, w: Witness, t: Tid)
    requires Inv(s, w) && t in s.threads
    ensures (s.threads[t].op.ScanJudge? || s.threads[t].op.AdoptJudge? || s.threads[t].op.DropJudge?) ==>
              Judged(s, t).Some? && s.threads[t].pool == PIdle
    ensures InPool(s.threads[t]) ==> Judged(s, t).None?
  {
    hide Inv;
    ThreadFacts(s, w, t);
  }

  /** Another position outside the pool does not give up a page. */
  lemma OpStays(s: State, t: Tid)
    requires t in s.threads && s.threads[t].pool != CacheEnter
    requires var op := s.threads[t].op; !op.ScanJudge? && !op.AdoptJudge? && !op.DropJudge?
    ensures !Arrives(s, StepOp(s, t), t, CacheEnter)
  {
    hide StepAlloc, StepRetry, StepPartials, StepScan, StepScanSwap, StepScanJudge, StepAdoptLoad, StepAdoptTake,
         StepAdopt, StepAdoptDrain, StepAdoptJudge, StepFresh, StepAwait, StepDrain, StepPush, StepDrop,
         StepDropDrain, StepDropJudge, StepAbandon;
    match s.threads[t].op {
      case Idle =>
      case Crashed =>
      case Alloc(c, _) => AllocStays(s, t, c, 0);
      case Retry(c) => AllocStays(s, t, c, 0);
      case Partials(c) => AllocStays(s, t, c, 0);
      case Scan(c, k) => AllocStays(s, t, c, k);
      case ScanSwap(c, k) => AllocStays(s, t, c, k);
      case AdoptLoad(c) => AdoptStays(s, t, c, false);
      case AdoptTake(c) => AdoptStays(s, t, c, false);
      case Adopt(c, got) => AdoptStays(s, t, c, got);
      case AdoptDrain(c, got) => AdoptStays(s, t, c, got);
      case Fresh(c) => AdoptStays(s, t, c, false);
      case Await(c) => AdoptStays(s, t, c, false);
      case Drain(p, next) => DropStays(s, t, 0, p, next);
      case Push => DropStays(s, t, 0, 0, ToDrop(0));
      case Drop(c) => DropStays(s, t, c, 0, ToDrop(0));
      case DropDrain(c) => DropStays(s, t, c, 0, ToDrop(0));
      case Abandon(c) => DropStays(s, t, c, 0, ToDrop(0));
    }
  }

  /** A free of a block that is not in a queued slab of the thread's own. */
  lemma FreeStays(s: State, t: Tid, id: nat)
    requires Enabled(s, t, StartFree(id)) && At(s.slots, Live(id))[0].page in s.slabs
    requires var p := At(s.slots, Live(id))[0].page; !OwnQueued(s, t, id, s.slabs[p].sizeClass, p)
    ensures !Arrives(s, StepFree(s, t, id), t, CacheEnter)
  {
    hide SlotCount, ClassSize, Shift, FreeQueued;
  }

  lemma FreeGives(s: State, w: Witness, t: Tid, id: nat)
    requires Inv(s, w) && Enabled(s, t, StartFree(id))
    ensures var p := At(s.slots, Live(id))[0].page;
            if LastOut(s, t, StartFree(id), p) then GivesUp(s, StepFree(s, t, id), t, p)
            else !Arrives(s, StepFree(s, t, id), t, CacheEnter)
  {
    hide Inv, StepFree, SlotCount;
    SlotFacts(s, w, Live(id), 0);
    var p := At(s.slots, Live(id))[0].page;
    var c := s.slabs[p].sizeClass;
    if OwnQueued(s, t, id, c, p) { QueuedFreeStep(s, w, t, id, c, p); } else { FreeStays(s, t, id); }
  }

  /** The step finds every slot of `p` free: by judging the slab, or by freeing the last slot that was out. */
  ghost predicate FindsFree(s: State, t: Tid, e: Event, p: Page) {
    t in s.threads && ((e == Go && JudgedFree(s, t, p)) || LastOut(s, t, e, p))
  }

  lemma StepGives(s: State, w: Witness, t: Tid, e: Event)
    requires Inv(s, w) && Enabled(s, t, e)
    ensures Arrives(s, Next(s, t, e), t, CacheEnter) ==> exists p :: FindsFree(s, t, e, p)
    ensures forall p :: FindsFree(s, t, e, p) ==> GivesUp(s, Next(s, t, e), t, p)
  {
    hide Inv, StepFree, StepPool, StepOp, FullyFree, OwnQueued, GivesUp, Arrives;
    HasSlab(s, w, t);
    var s' := Next(s, t, e);
    match e {
      case Go =>
        if InPool(s.threads[t]) {
          InsideStays(s, w, t);
        } else if Judged(s, t).Some? {
          JudgeGives(s, w, t, Judged(s, t).value);
          assert JudgedFree(s, t, Judged(s, t).value) ==> FindsFree(s, t, e, Judged(s, t).value);
        } else {
          OpStays(s, t);
        }
      case StartFree(id) =>
        FreeGives(s, w, t, id);
        OneFreed(s, t, id);
        var p := At(s.slots, Live(id))[0].page;
        assert LastOut(s, t, e, p) ==> FindsFree(s, t, e, p);
      case _ => OthersStay(s, t, e);
    }
  }

  lemma OneFreed(s: State, t: Tid, id: nat)
    requires Enabled(s, t, StartFree(id))
    ensures forall p :: LastOut(s, t, StartFree(id), p) ==> p == At(s.slots, Live(id))[0].page
  {
  }

  lemma OthersStay(s: State, t: Tid, e: Event)
    requires Enabled(s, t, e) && !e.Go? && !e.StartFree?
    ensures !Arrives(s, Next(s, t, e), t, CacheEnter)
  {
  }

  lemma InsideStays(s: State, w: Witness, t: Tid)
    requires Inv(s, w) && t in s.threads && InPool(s.threads[t])
    ensures !Arrives(s, StepPool(s, t), t, CacheEnter)
  {
    hide Inv, StepDealloc, StepPurgeEnter, StepPurgeExit, StepAllocEnter, StepRegister, StepUnmap, Shift;
    match s.threads[t].pool {
      case DeallocEnter => DeallocDoors(s, w, t);
      case PurgeEnter => PurgeDoors(s, t);
      case PurgeExit => PurgeDoors(s, t);
      case AllocEnter => AllocDoors(s, t);
      case Register => RegisterDoors(s, t);
      case Unmap(refused) => UnmapDoors(s, t, refused);
      case _ =>
    }
  }

  /**
   In every run a step gives up a page if and only if it finds every slot of a slab free: the scan, the
   adoption or the exit has drained the slab, or a free has brought back its last slot. Such a slab ends.
   */
  lemma EndsWhenFree(tr: seq<State>, n: nat, t: Tid, e: Event)
    requires Run(tr) && n < |tr| && Enabled(tr[n], t, e)
    ensures var s, s' := tr[n], Next(tr[n], t, e);
            && (Arrives(s, s', t, CacheEnter) <==> exists p :: FindsFree(s, t, e, p))
            && forall p :: FindsFree(s, t, e, p) ==> GivesUp(s, s', t, p)
  {
    hide Run, Next, Enabled, Inv, Arrives, FindsFree;
    var w := RunInv(tr, n);
    StepGives(tr[n], w, t, e);
  }

  // ----- the scan judges every slab of the full queue

  /** Where `scan_full_list` of class `c` stands; `None` outside of it. */
  function ScanAt(op: Op, c: nat): Option<nat> {
    match op
    case Scan(d, k) => if c == d then Some(k) else None
    case ScanSwap(d, k) => if c == d then Some(k) else None
    case ScanJudge(d, k) => if c == d then Some(k) else None
    case Drain(_, ToScan(d, k)) => if c == d then Some(k) else None
    case _ => None
  }

  /** The scan still has this slab before it. */
  ghost predicate Ahead(s: State, t: Tid, c: nat, p: Page) {
    t in s.threads &&
    var full, at := At(s.pages, Full(t, c)), ScanAt(s.threads[t].op, c);
    at.Some? && at.value <= |full| && p in full[at.value..]
  }

  ghost predicate JudgesNow(s: State, t: Tid, e: Event, p: Page) {
    t in s.threads && e == Go && s.threads[t].op.ScanJudge? && Judged(s, t) == Some(p)
  }

  lemma ScanAhead(s: State, t: Tid, c: nat, k: nat, p: Page)
    requires t in s.threads && s.threads[t].op == Scan(c, k) && Ahead(s, t, c, p)
    ensures Ahead(StepScan(s, t, c, k), t, c, p)
  {
  }

  lemma SwapAhead(s: State, t: Tid, c: nat, k: nat, p: Page)
    requires t in s.threads && s.threads[t].op == ScanSwap(c, k) && Ahead(s, t, c, p)
    ensures Ahead(StepScanSwap(s, t, c, k), t, c, p)
  {
    hide Pour;
  }

  lemma DrainAhead(s: State, t: Tid, c: nat, k: nat, q: Page, p: Page)
    requires t in s.threads && s.threads[t].op == Drain(q, ToScan(c, k)) && Ahead(s, t, c, p)
    ensures Ahead(StepDrain(s, t, q, ToScan(c, k)), t, c, p)
  {
    hide Shift;
  }

  /** The judged slab leaves the queue or stays behind the scan. */
  lemma JudgeFull(s: State, t: Tid, c: nat, k: nat)
    requires t in s.threads && s.threads[t].op == ScanJudge(c, k) && k < |At(s.pages, Full(t, c))|
    requires At(s.pages, Full(t, c))[k] in s.slabs
    ensures var s', full := StepScanJudge(s, t, c, k), At(s.pages, Full(t, c));
            && t in s'.threads
            && ((s'.threads[t].op == Scan(c, k) && At(s'.pages, Full(t, c)) == Without(full, k)) ||
                (s'.threads[t].op == Scan(c, k + 1) && At(s'.pages, Full(t, c)) == full))
  {
    hide FullyFree, Free;
    ShiftAt(s.pages, Full(t, c), k, Raw(t));
    ShiftAt(s.pages, Full(t, c), k, Bin(t, c));
    ShiftAt(s.pages, Full(t, c), k, Partial(t, c));
    hide Shift, Without;
  }

  lemma JudgeAhead(s: State, t: Tid, c: nat, k: nat, p: Page)
    requires t in s.threads && s.threads[t].op == ScanJudge(c, k) && Ahead(s, t, c, p)
    requires At(s.pages, Full(t, c))[k] != p && At(s.pages, Full(t, c))[k] in s.slabs
    ensures Ahead(StepScanJudge(s, t, c, k), t, c, p)
  {
    JudgeFull(s, t, c, k);
    StillBehind(At(s.pages, Full(t, c)), k, p);
    hide StepScanJudge, Without;
  }

  lemma StillBehind(full: seq<Page>, k: nat, p: Page)
    requires k < |full| && p in full[k..] && full[k] != p
    ensures k <= |Without(full, k)| && p in Without(full, k)[k..] && p in full[k + 1..]
  {
    assert Without(full, k)[k..] == full[k + 1..];
    assert full[k..] == [full[k]] + full[k + 1..];
  }

  lemma PoolAhead(s: State, t: Tid, c: nat, p: Page)
    requires t in s.threads && InPool(s.threads[t]) && Ahead(s, t, c, p)
    ensures var s' := StepPool(s, t); t in s'.threads && (s'.threads[t].op.Crashed? || Ahead(s', t, c, p))
  {
    hide StepPool;
    PoolLower(s, t);
  }

  lemma OpAhead(s: State, w: Witness, t: Tid, c: nat, p: Page)
    requires Inv(s, w) && t in s.threads && Ahead(s, t, c, p) && !JudgesNow(s, t, Go, p)
    ensures Ahead(StepOp(s, t), t, c, p)
  {
    hide Inv, StepScan, StepScanSwap, StepScanJudge, StepDrain, OpOK, Free;
    match s.threads[t].op {
      case Scan(_, k) => hide Ahead; ScanAhead(s, t, c, k, p);
      case ScanSwap(_, k) => hide Ahead; SwapAhead(s, t, c, k, p);
      case ScanJudge(_, k) =>
        PageAt(s, w, Full(t, c), k);
        JudgeAhead(s, t, c, k, p);
      case Drain(q, ToScan(_, k)) => hide Ahead; DrainAhead(s, t, c, k, q, p);
    }
  }

  lemma AheadGoes(s: State, w: Witness, t: Tid, e: Event, c: nat, p: Page)
    requires Inv(s, w) && Enabled(s, t, e) && Ahead(s, t, c, p)
    ensures e == Go
  {
    hide Inv, HoldsOK, OpOK;
    ThreadFacts(s, w, t);
  }

  /** A step of the scanning thread judges the slab or leaves it ahead. */
  lemma StepAhead(s: State, w: Witness, t: Tid, e: Event, c: nat, p: Page)
    requires Inv(s, w) && Enabled(s, t, e) && Ahead(s, t, c, p)
    ensures JudgesNow(s, t, e, p) || Ahead(Next(s, t, e), t, c, p)
  {
    AheadGoes(s, w, t, e, c, p);
    var w' := StepInv(s, w, t, e);
    NeverCrashed(Next(s, t, e), w', t);
    hide Inv, StepPool, StepOp, Ahead, JudgesNow;
    if InPool(s.threads[t]) { PoolAhead(s, t, c, p); } else if !JudgesNow(s, t, e, p) { OpAhead(s, w, t, c, p); }
  }

  lemma OtherAhead(s: State, u: Tid, e: Event, t: Tid, c: nat, p: Page)
    requires Enabled(s, u, e) && u != t && Ahead(s, t, c, p)
    ensures Ahead(Next(s, u, e), t, c, p)
  {
    hide Next, Enabled;
    OtherThreadSame(s, u, e, t);
  }

  /**
   Over every history: a scan that began with `p` in the full queue and is over has judged `p`, that is,
   found it free and reclaimed it, found free slots and queued it, or found none.
   */
  lemma {:induction false} ScanJudgesAll(tr: seq<State>, ls: seq<Label>, t: Tid, c: nat, p: Page, i: nat, k: nat)
    returns (j: nat)
    requires History(tr, ls) && i <= k <= |ls| && Ahead(tr[i], t, c, p)
    requires t in tr[k].threads && ScanAt(tr[k].threads[t].op, c).None?
    ensures i <= j < k && ls[j].t == t && JudgesNow(tr[j], t, ls[j].e, p)
    decreases k - i
  {
    hide Init, Next, Enabled, Inv, JudgesNow;
    HistoryRuns(tr, ls);
    if i == k {
      assert false;
    } else {
      var s, u, e := tr[i], ls[i].t, ls[i].e;
      assert Enabled(s, u, e) && tr[i + 1] == Next(s, u, e);
      hide Ahead, Run;
      if u == t && JudgesNow(s, t, e, p) {
        j := i;
      } else {
        if u == t {
          var w := RunInv(tr, i);
          StepAhead(s, w, t, e, c, p);
        } else {
          OtherAhead(s, u, e, t, c, p);
        }
        j := ScanJudgesAll(tr, ls, t, c, p, i + 1, k);
      }
    }
  }

  // ----- exit is final

  /** The thread's heap is being dropped or is gone. */
  predicate Leaving(th: Thread) {
    th.heap.Destroyed? || (th.heap.Running? && Dying(th.op))
  }

  lemma DropLeaves(s: State, t: Tid, c: nat)
    requires t in s.threads && s.threads[t].heap.Running?
    ensures var s' := StepDrop(s, t, c);
            t in s'.threads && (s'.threads[t].op.Crashed? || Leaving(s'.threads[t]))
  {
    hide Shift, Pour;
  }

  lemma DropDrainLeaves(s: State, t: Tid, c: nat)
    requires t in s.threads && s.threads[t].heap.Running?
    ensures var s' := StepDropDrain(s, t, c);
            t in s'.threads && (s'.threads[t].op.Crashed? || Leaving(s'.threads[t]))
  {
    hide Shift, Pour;
  }

  lemma AbandonLeaves(s: State, t: Tid, c: nat)
    requires t in s.threads && s.threads[t].heap.Running?
    ensures var s' := StepAbandon(s, t, c);
            t in s'.threads && (s'.threads[t].op.Crashed? || Leaving(s'.threads[t]))
  {
    hide Shift, Pour;
  }

  lemma DrainLeaves(s: State, t: Tid, c: nat, p: Page)
    requires t in s.threads && s.threads[t].heap.Running? && s.threads[t].op == Drain(p, ToDrop(c))
    ensures var s' := StepDrain(s, t, p, ToDrop(c));
            t in s'.threads && (s'.threads[t].op.Crashed? || Leaving(s'.threads[t]))
  {
    hide Shift, Pour;
  }

  lemma DropJudgeLeaves(s: State, t: Tid, c: nat)
    requires t in s.threads && s.threads[t].heap.Running?
    ensures var s' := StepDropJudge(s, t, c);
            t in s'.threads && (s'.threads[t].op.Crashed? || Leaving(s'.threads[t]))
  {
    hide Shift, FullyFree;
  }

  lemma LeavingOp(s: State, w: Witness, t: Tid)
    requires Inv(s, w) && t in s.threads && Leaving(s.threads[t])
    ensures var s' := StepOp(s, t);
            t in s'.threads && (s'.threads[t].op.Crashed? || Leaving(s'.threads[t]))
  {
    hide StepDrop, StepDropDrain, StepDropJudge, StepAbandon, StepDrain, Inv, HoldsOK, Shift;
    ThreadFacts(s, w, t);
    match s.threads[t].op {
      case Idle =>
      case Push =>
      case Drop(c) => DropLeaves(s, t, c);
      case DropDrain(c) => DropDrainLeaves(s, t, c);
      case DropJudge(c) => DropJudgeLeaves(s, t, c);
      case Abandon(c) => AbandonLeaves(s, t, c);
      case Drain(p, ToDrop(c)) => DrainLeaves(s, t, c, p);
    }
  }

  /** The thread keeps its heap, and its position in heap.rs. */
  ghost predicate StaysWith(s: State, s': State, t: Tid) {
    && t in s.threads && t in s'.threads && s'.threads[t].heap == s.threads[t].heap
    && (s'.threads[t].op == s.threads[t].op || s'.threads[t].op.Crashed?)
  }

  lemma SectionStays(s: State, t: Tid, refused: bool)
    requires t in s.threads
    ensures StaysWith(s, StepDealloc(s, t), t)
    ensures StaysWith(s, StepPurgeEnter(s, t), t) && StaysWith(s, StepPurgeExit(s, t), t)
    ensures StaysWith(s, StepUnmap(s, t, refused), t)
  {
    hide DeallocSection, PurgeTake, PurgeReturn;
  }

  lemma ObtainStays(s: State, t: Tid)
    requires t in s.threads
    ensures StaysWith(s, StepAllocEnter(s, t), t) && StaysWith(s, StepRegister(s, t), t)
  {
    hide AllocSection, RegisterSection;
  }

  lemma PoolStays(s: State, t: Tid)
    requires t in s.threads
    ensures StaysWith(s, StepPool(s, t), t)
  {
    hide StepDealloc, StepPurgeEnter, StepPurgeExit, StepAllocEnter, StepRegister, StepUnmap, Shift;
    SectionStays(s, t, s.threads[t].pool == Unmap(true));
    ObtainStays(s, t);
  }

  lemma FreeLeaves(s: State, t: Tid, id: nat)
    requires Enabled(s, t, StartFree(id)) && s.threads[t].heap.Destroyed?
    ensures var s' := StepFree(s, t, id);
            t in s'.threads && s'.threads[t].heap == s.threads[t].heap
  {
    hide Shift, ClassSize;
  }

  lemma LeavingStep(s: State, w: Witness, t: Tid, e: Event)
    requires Inv(s, w) && Enabled(s, t, e) && Leaving(s.threads[t])
    ensures var s' := Next(s, t, e);
            t in s'.threads && (s'.threads[t].op.Crashed? || Leaving(s'.threads[t]))
  {
    hide Inv, StepOp, StepPool, StepFree, At;
    match e {
      case Go => if InPool(s.threads[t]) { PoolStays(s, t); } else { LeavingOp(s, w, t); }
      case StartFree(id) => FreeLeaves(s, t, id);
      case _ =>
    }
  }

  /** Thread `t` has begun to exit at step `i`. */
  lemma {:induction false} Leaves(tr: seq<State>, ls: seq<Label>, t: Tid, i: nat, k: nat)
    requires History(tr, ls) && i < k <= |ls| && ls[i] == Label(t, Exit)
    ensures t in tr[k].threads && Leaving(tr[k].threads[t])
  {
    hide Init, Next, Enabled, Inv, Leaving;
    HistoryRuns(tr, ls);
    var j := k - 1;
    var s, u, e := tr[j], ls[j].t, ls[j].e;
    assert Enabled(s, u, e) && tr[k] == Next(s, u, e);
    if j == i {
      ExitLeaves(s, t);
    } else {
      Leaves(tr, ls, t, i, j);
      var w := RunInv(tr, j);
      if u == t {
        LeavingStep(s, w, t, e);
        var w' := RunInv(tr, k);
        NeverCrashed(tr[k], w', t);
      } else {
        OtherThreadSame(s, u, e, t);
        hide SamePages;
      }
    }
  }

  lemma ExitLeaves(s: State, t: Tid)
    requires Enabled(s, t, Exit)
    ensures t in Next(s, t, Exit).threads && Leaving(Next(s, t, Exit).threads[t])
  {
  }

  /**
   Over every history: a thread that has begun to exit never gets a heap again and begins no further
   allocation or exit; when it is at rest, its heap is destroyed.
   */
  lemma ExitIsFinal(tr: seq<State>, ls: seq<Label>, t: Tid, i: nat, k: nat)
    requires History(tr, ls) && i < k <= |ls| && ls[i] == Label(t, Exit)
    ensures t in tr[k].threads
    ensures AtRest(tr[k].threads[t]) ==> tr[k].threads[t].heap.Destroyed?
    ensures k < |ls| && ls[k].t == t ==> ls[k].e == Go || ls[k].e.StartFree?
  {
    hide Init, Next, Inv, HoldsOK;
    Leaves(tr, ls, t, i, k);
    HistoryRuns(tr, ls);
    var w := RunInv(tr, k);
    hide Run;
    ThreadFacts(tr[k], w, t);
  }
}
