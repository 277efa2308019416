/**
 Steps that create, give up, claim or free into a slab.
 */
module SlabSteps {
  import opened Places
  import opened Tiling
  import opened PoolSections
  import opened PoolInvariant
  import opened PoolSteps
  import opened SizeClasses
  import opened SlabGeometry
  import opened System
  import opened SystemInvariant
  import opened Frames
  import opened ControlSteps
  import opened SlotSteps
  import opened PageSteps

  // ----- a fully free slab stops being a slab

  lemma HandOffSlots(s: State, s': State, v: map<Slot, SlotPlace>, t: Tid, p: Page)
    requires Tiled(s.slots, v) && SlotsOK(s, v) && p in s.slabs && FullyFree(s, p)
    requires t in s.threads && t in s'.threads && s'.threads == s.threads[t := s'.threads[t]]
    requires At(s.slots, Draining(t)) == [] && s'.nextId == s.nextId
    requires s'.slabs == s.slabs - {p} && s'.slots == s.slots[Local(p) := []][Virgin(p) := []]
    ensures Tiled(s'.slots, Cleared(v, Local(p), Virgin(p)))
    ensures SlotsOK(s', Cleared(v, Local(p), Virgin(p)))
  {
    FreeBound(s, v, p);
    ClearTiled(s.slots, v, Local(p), Virgin(p));
    NobodyAt(s.slots, v, Draining(t));
    hide Tiled, SlotCount, FullyFree;
    var v' := Cleared(v, Local(p), Virgin(p));
    forall x | x in v' ensures SlotOK(s', x, v'[x]) {
      assert SlotOK(s, x, v[x]);
    }
    forall x: Slot | x.page in s'.slabs && x.idx < SlotCount(s'.slabs[x.page].sizeClass) ensures x in v' {
      assert x in v && SlotOK(s, x, v[x]);
    }
    assert forall id :: At(s'.slots, Live(id)) == At(s.slots, Live(id));
  }

  /**
   `cache_slab` is justified: a slab is handed over only when no slot of it is live, remote, or in
   some thread's hands. `s0` is `s` after an optional local free into the slab.
   */
  lemma HandOffOK(s: State, s0: State, w: Witness, v: map<Slot, SlotPlace>, t: Tid, a: PagePlace, i: nat, op: Op)
    requires Inv(s, w) && t in s.threads && i < |At(s.pages, a)|
    requires s0 == s.(slots := s0.slots, freeBytes := s0.freeBytes) && Tiled(s0.slots, v) && SlotsOK(s0, v)
    requires forall u: Tid :: At(s0.slots, Draining(u)) == At(s.slots, Draining(u))
    requires forall u: Tid :: At(s0.slots, Pushing(u)) == At(s.slots, Pushing(u))
    requires SlabsSame(s, s0, {At(s.pages, a)[i]})
    requires At(s.pages, a)[i] in s.slabs && FullyFree(s0, At(s.pages, a)[i]) && At(s.slots, Draining(t)) == []
    requires a.Slab() && a.Mine(t) && (a == Hand(t) ==> i == 0)
    requires SmoothBut(s, t, op, At(s.pages, a)[i]) && (Claiming(s.threads[t].op) ==> a == Hand(t))
    requires ThreadOK(SetOp(HandOff(s0, t, a, i), t, op), t)
    ensures var p := At(s.pages, a)[i];
            Inv(SetOp(HandOff(s0, t, a, i), t, op), W(w.pages[p := Raw(t)], Cleared(v, Local(p), Virgin(p)), w.spans))
  {
    hide Inv, ThreadOK, SmoothBut, SlotCount, FullyFree, Tiled, SlotsOK;
    var p := At(s.pages, a)[i];
    var s' := SetOp(HandOff(s0, t, a, i), t, op);
    HandOffSlots(s0, s', v, t, p);
    assert SlabsSame(s, s', {p}) by { HandOffSlabs(s, s0, s', p); }
    assert PlaceOK(s', p, Raw(t));
    PageMove(s, s', w, W(w.pages[p := Raw(t)], Cleared(v, Local(p), Virgin(p)), w.spans), t, a, i, Raw(t));
  }

  lemma HandOffSlabs(s: State, s0: State, s': State, p: Page)
    requires SlabsSame(s, s0, {p}) && s0.slabs == s.slabs
    requires s'.slabs == s0.slabs - {p} && s'.slots == s0.slots[Local(p) := []][Virgin(p) := []]
    ensures SlabsSame(s, s', {p})
  {
    forall q: Page | q !in {p} ensures Free(s', q) == Free(s, q) {
      assert Free(s0, q) == Free(s, q);
    }
  }

  lemma InvSlots(s: State, w: Witness)
    requires Inv(s, w)
    ensures Tiled(s.slots, w.slots) && SlotsOK(s, w.slots)
  {
  }

  lemma ScanHandOffOK(s: State, w: Witness, t: Tid, c: nat, k: nat)
    requires Inv(s, w) && t in s.threads && s.threads[t].op == ScanJudge(c, k) && k < |At(s.pages, Full(t, c))|
    requires var p := At(s.pages, Full(t, c))[k]; p in s.slabs && FullyFree(s, p)
    ensures var p := At(s.pages, Full(t, c))[k];
            Inv(StepScanJudge(s, t, c, k), W(w.pages[p := Raw(t)], Cleared(w.slots, Local(p), Virgin(p)), w.spans))
  {
    hide Inv, SlotCount, ClassSize, Tiled, SlotsOK, FullyFree;
    ThreadFacts(s, w, t);
    InvSlots(s, w);
    assert StepScanJudge(s, t, c, k) == SetOp(HandOff(s, t, Full(t, c), k), t, Scan(c, k));
    ScanHandOffThread(s, t, c, k);
    hide ThreadOK, SmoothBut, Shift, StepScanJudge;
    HandOffOK(s, s, w, w.slots, t, Full(t, c), k, Scan(c, k));
  }

  lemma ScanHandOffThread(s: State, t: Tid, c: nat, k: nat)
    requires t in s.threads && ThreadOK(s, t) && s.threads[t].op == ScanJudge(c, k) && k < |At(s.pages, Full(t, c))|
    ensures ThreadOK(SetOp(HandOff(s, t, Full(t, c), k), t, Scan(c, k)), t)
    ensures SmoothBut(s, t, Scan(c, k), At(s.pages, Full(t, c))[k]) && At(s.slots, Draining(t)) == []
    ensures !Claiming(s.threads[t].op)
  {
    ShiftAt(s.pages, Full(t, c), k, Raw(t));
    hide Shift;
  }

  lemma AdoptHandOffOK(s: State, w: Witness, t: Tid, c: nat, got: bool)
    requires Inv(s, w) && t in s.threads && s.threads[t].op == AdoptJudge(c, got) && At(s.pages, Hand(t)) != []
    requires var p := At(s.pages, Hand(t))[0]; p in s.slabs && FullyFree(s, p)
    ensures var p := At(s.pages, Hand(t))[0];
            Inv(StepAdoptJudge(s, t, c, got), W(w.pages[p := Raw(t)], Cleared(w.slots, Local(p), Virgin(p)), w.spans))
  {
    hide Inv, SlotCount, ClassSize, Tiled, SlotsOK, FullyFree;
    ThreadFacts(s, w, t);
    InvSlots(s, w);
    assert StepAdoptJudge(s, t, c, got) == SetOp(HandOff(s, t, Hand(t), 0), t, Adopt(c, got));
    AdoptHandOffThread(s, t, c, got);
    AdoptSmooth(s, t, c, got);
    hide ThreadOK, SmoothBut, Shift, StepAdoptJudge;
    HandOffOK(s, s, w, w.slots, t, Hand(t), 0, Adopt(c, got));
  }

  lemma AdoptHandOffThread(s: State, t: Tid, c: nat, got: bool)
    requires t in s.threads && ThreadOK(s, t) && s.threads[t].op == AdoptJudge(c, got) && At(s.pages, Hand(t)) != []
    ensures ThreadOK(SetOp(HandOff(s, t, Hand(t), 0), t, Adopt(c, got)), t)
  {
    AdoptHandOffHolds(s, t, c, got);
    ShiftAt(s.pages, Hand(t), 0, Raw(t));
    hide Shift, HoldsOK;
  }

  lemma AdoptHandOffHolds(s: State, t: Tid, c: nat, got: bool)
    requires t in s.threads && HoldsOK(s, t) && PoolOpOK(s.threads[t]) && s.threads[t].op == AdoptJudge(c, got) &&
             At(s.pages, Hand(t)) != []
    ensures HoldsOK(SetOp(HandOff(s, t, Hand(t), 0), t, Adopt(c, got)), t)
  {
    ShiftAt(s.pages, Hand(t), 0, Raw(t));
    hide Shift;
  }

  lemma DropHandOffOK(s: State, w: Witness, t: Tid, c: nat)
    requires Inv(s, w) && t in s.threads && s.threads[t].op == DropJudge(c) && At(s.pages, Hand(t)) != []
    requires var p := At(s.pages, Hand(t))[0]; p in s.slabs && FullyFree(s, p)
    ensures var p := At(s.pages, Hand(t))[0];
            Inv(StepDropJudge(s, t, c), W(w.pages[p := Raw(t)], Cleared(w.slots, Local(p), Virgin(p)), w.spans))
  {
    hide Inv, SlotCount, ClassSize, Tiled, SlotsOK, FullyFree;
    ThreadFacts(s, w, t);
    InvSlots(s, w);
    assert StepDropJudge(s, t, c) == SetOp(HandOff(s, t, Hand(t), 0), t, Drop(c));
    DropHandOffThread(s, t, c);
    DropSmooth(s, t, c);
    hide ThreadOK, SmoothBut, Shift, StepDropJudge;
    HandOffOK(s, s, w, w.slots, t, Hand(t), 0, Drop(c));
  }

  lemma DropHandOffThread(s: State, t: Tid, c: nat)
    requires t in s.threads && ThreadOK(s, t) && s.threads[t].op == DropJudge(c) && At(s.pages, Hand(t)) != []
    ensures ThreadOK(SetOp(HandOff(s, t, Hand(t), 0), t, Drop(c)), t)
  {
    ShiftAt(s.pages, Hand(t), 0, Raw(t));
    EmptyBelowFrame(s.pages, Shift(s.pages, Hand(t), 0, Raw(t)), t, c);
    hide Shift, EmptyBelow;
  }

  // ----- Heap::dealloc on a slab in a queue

  lemma FullFacts(s: State, w: Witness, t: Tid, c: nat, i: nat)
    requires Inv(s, w) && i < |At(s.pages, Full(t, c))|
    ensures var p := At(s.pages, Full(t, c))[i]; PlaceOK(s, p, Full(t, c)) && w.pages[p] == Full(t, c)
  {
    hide Inv;
    PageAt(s, w, Full(t, c), i);
  }

  /** State after `dealloc_local`. */
  function Freed(s: State, id: nat): State
    requires At(s.slots, Live(id)) != []
  {
    var p := At(s.slots, Live(id))[0].page;
    s.(freeBytes := s.freeBytes + (if p in s.slabs then ClassSize(s.slabs[p].sizeClass) else 0),
       slots := Shift(s.slots, Live(id), 0, Local(p)))
  }

  lemma FreedFrame(s: State, t: Tid, id: nat)
    requires At(s.slots, Live(id)) != [] && t in s.threads
    ensures var s1, x := Freed(s, id), At(s.slots, Live(id))[0];
            && OnlyThread(s, s1, t) && SlabsSame(s, s1, {x.page})
            && Free(s1, x.page) == Free(s, x.page) + 1
            && (forall u: Tid :: At(s1.slots, Draining(u)) == At(s.slots, Draining(u)))
            && (forall u: Tid :: At(s1.slots, Pushing(u)) == At(s.slots, Pushing(u)))
            && (forall n :: |At(s1.slots, Live(n))| <= |At(s.slots, Live(n))|)
  {
    var x := At(s.slots, Live(id))[0];
    ShiftAt(s.slots, Live(id), 0, Local(x.page));
    hide Shift, ClassSize;
  }

  lemma FreedSlots(s: State, w: Witness, t: Tid, id: nat)
    requires Inv(s, w) && Enabled(s, t, StartFree(id))
    ensures var x := At(s.slots, Live(id))[0];
            && x.page in s.slabs && x.page in w.pages && w.pages[x.page].Slab() && At(s.slots, Draining(t)) == []
            && Tiled(Freed(s, id).slots, w.slots[x := Local(x.page)])
            && SlotsOK(Freed(s, id), w.slots[x := Local(x.page)])
  {
    hide Inv, SlotCount, ClassSize, Tiled, OnlyThread, SlabsSame, Free;
    ThreadFacts(s, w, t);
    SlotFacts(s, w, Live(id), 0);
    InvSlots(s, w);
    hide ThreadOK;
    var x := At(s.slots, Live(id))[0];
    ShiftTiled(s.slots, w.slots, Live(id), 0, Local(x.page));
    hide Shift;
    FreedFrame(s, t, id);
    FreedStep(s, w, t, id, x);
  }

  lemma FreedStep(s: State, w: Witness, t: Tid, id: nat, x: Slot)
    requires SlotsOK(s, w.slots) && Tiled(s.slots, w.slots) && t in s.threads && At(s.slots, Draining(t)) == []
    requires At(s.slots, Live(id)) != [] && x == At(s.slots, Live(id))[0] && x in w.slots && SlotOK(s, x, Live(id))
    requires OnlyThread(s, Freed(s, id), t)
    requires forall n :: |At(Freed(s, id).slots, Live(n))| <= |At(s.slots, Live(n))|
    ensures SlotsOK(Freed(s, id), w.slots[x := Local(x.page)])
  {
    hide Tiled, SlotCount, ClassSize, Shift;
    NobodyAt(s.slots, w.slots, Draining(t));
    forall n ensures |At(Freed(s, id).slots, Live(n))| <= 1 {
      assert |At(s.slots, Live(n))| <= 1;
    }
    SlotsStep(s, Freed(s, id), w.slots, w.slots[x := Local(x.page)], t, {x});
  }

  /** The header says "mine" and the slab is not active: the slab is in one of our two queues. */
  lemma QueuedFacts(s: State, w: Witness, t: Tid, p: Page)
    requires Inv(s, w) && t in s.threads && AtRest(s.threads[t]) && s.threads[t].heap.Running?
    requires p in s.slabs && s.slabs[p].heapId == s.threads[t].heap.id
    requires At(s.pages, Bin(t, s.slabs[p].sizeClass)) != [p]
    ensures var c := s.slabs[p].sizeClass;
            var a := QueueOf(s, t, c, p);
            p in w.pages && w.pages[p] == a && p in At(s.pages, a) && PlaceOK(s, p, a)
  {
    hide PoolInv, SpansOK, SlotsOK, IdsOK, ThreadsOK, Tiled, SlotCount;
    SlabPlaced(s, w.pages, p);
    var c := s.slabs[p].sizeClass;
    assert OwnedBy(s, t, p, w.pages[p]);
    if w.pages[p].Bin? { BinFacts(s, w, t, p, c); }
    ListedAt(s, w, p);
    if p in At(s.pages, Full(t, c)) { ListedOnce(s, w, p, Full(t, c)); }
  }

  lemma ListedAt(s: State, w: Witness, p: Page)
    requires Inv(s, w) && p in w.pages && InUsePlace(w.pages[p])
    ensures p in At(s.pages, w.pages[p])
  {
    hide PoolInv, SpansOK, SlotsOK, IdsOK, ThreadsOK, PagesOK, OwnersOK;
    var m := PageLists(s.pool, s.pages);
    assert p in At(m, w.pages[p]);
    assert At(m, w.pages[p]) == At(s.pages, w.pages[p]);
  }

  lemma ListedOnce(s: State, w: Witness, p: Page, a: PagePlace)
    requires Inv(s, w) && InUsePlace(a) && p in At(s.pages, a)
    ensures p in w.pages && w.pages[p] == a
  {
    hide PoolInv, SpansOK, SlotsOK, IdsOK, ThreadsOK, PagesOK, OwnersOK;
    var m := PageLists(s.pool, s.pages);
    assert At(m, a) == At(s.pages, a);
    assert p in At(m, a);
  }

  /** The slab is fully free now: it is unlinked and its page goes to the cache. */
  lemma FreeReclaimOK(s: State, w: Witness, t: Tid, id: nat, p: Page, a: PagePlace, i: nat)
    requires Inv(s, w) && Enabled(s, t, StartFree(id)) && p == At(s.slots, Live(id))[0].page
    requires s.threads[t].heap.Running? && p in s.slabs && a.Slab() && a.Mine(t) && !a.Hand?
    requires i < |At(s.pages, a)| && At(s.pages, a)[i] == p && FullyFree(Freed(s, id), p)
    ensures var v := w.slots[At(s.slots, Live(id))[0] := Local(p)];
            Inv(HandOff(Freed(s, id), t, a, i), W(w.pages[p := Raw(t)], Cleared(v, Local(p), Virgin(p)), w.spans))
  {
    hide Inv, SlotCount, ClassSize, Tiled, SlotsOK, FullyFree;
    ThreadFacts(s, w, t);
    FreedSlots(s, w, t, id);
    FreedFrame(s, t, id);
    ShiftAt(s.pages, a, i, Raw(t));
    var s1 := Freed(s, id);
    var s' := HandOff(s1, t, a, i);
    assert SetOp(s', t, Idle) == s' by { hide Shift; assert s'.threads[t].op == Idle; }
    assert ThreadOK(s', t) by { FreedHandOffThread(s, t, id, a, i); }
    hide Shift, ThreadOK, SlabsSame, OnlyThread, Free;
    assert SmoothBut(s, t, Idle, p);
    HandOffOK(s, s1, w, w.slots[At(s.slots, Live(id))[0] := Local(p)], t, a, i, Idle);
  }

  lemma FreedHandOffThread(s: State, t: Tid, id: nat, a: PagePlace, i: nat)
    requires t in s.threads && ThreadOK(s, t) && AtRest(s.threads[t]) && At(s.slots, Live(id)) != []
    requires a.Slab() && a.Mine(t) && !a.Hand? && i < |At(s.pages, a)|
    ensures ThreadOK(HandOff(Freed(s, id), t, a, i), t)
  {
    hide ClassSize;
    ShiftAt(s.pages, a, i, Raw(t));
    ShiftAt(s.slots, Live(id), 0, Local(At(s.slots, Live(id))[0].page));
    hide Shift;
  }

  /** The slab was full: it gains its first free slot and becomes active or partial. */
  lemma FreePromoteOK(s: State, w: Witness, t: Tid, id: nat, p: Page, c: nat, i: nat, b: PagePlace)
    requires Inv(s, w) && Enabled(s, t, StartFree(id)) && p == At(s.slots, Live(id))[0].page
    requires s.threads[t].heap.Running? && p in s.slabs && i < |At(s.pages, Full(t, c))| &&
             At(s.pages, Full(t, c))[i] == p
    requires !FullyFree(Freed(s, id), p) && b == if At(s.pages, Bin(t, c)) == [] then Bin(t, c) else Partial(t, c)
    ensures Inv(MovePage(Freed(s, id), Full(t, c), i, b),
                w.(pages := w.pages[p := b], slots := w.slots[At(s.slots, Live(id))[0] := Local(p)]))
  {
    hide Inv, SlotCount, ClassSize, Tiled, SlotsOK;
    ThreadFacts(s, w, t);
    FreedSlots(s, w, t, id);
    FreedFrame(s, t, id);
    FullFacts(s, w, t, c, i);
    var s1, x := Freed(s, id), At(s.slots, Live(id))[0];
    var v := w.slots[x := Local(p)];
    FreeBound(s1, v, p);
    var s' := MovePage(s1, Full(t, c), i, b);
    assert ThreadOK(s', t) by { FreedMoveThread(s, t, id, c, i, b); }
    assert PlaceOK(s', p, b) by { assert Free(s', p) == Free(s1, p); }
    assert s'.threads == s.threads[t := s'.threads[t]];
    assert SlabsSame(s, s', {p}) by { MovedSlabs(s, s1, s', p); }
    SlotsSame(s1, s', v);
    hide ThreadOK, SlabsSame, OnlyThread, PlaceOK;
    PageMove(s, s', w, w.(pages := w.pages[p := b], slots := v), t, Full(t, c), i, b);
  }

  lemma MovedSlabs(s: State, s1: State, s': State, p: Page)
    requires SlabsSame(s, s1, {p}) && s'.slabs == s1.slabs && s'.slots == s1.slots
    ensures SlabsSame(s, s', {p})
  {
    forall q: Page ensures Free(s', q) == Free(s1, q) {}
  }

  lemma SlotsSame(s: State, s': State, v: map<Slot, SlotPlace>)
    requires SlotsOK(s, v) && s'.slots == s.slots && s'.slabs == s.slabs && s'.threads == s.threads &&
             s'.nextId == s.nextId
    ensures SlotsOK(s', v)
  {
    hide SlotCount;
    forall x | x in v ensures SlotOK(s', x, v[x]) { assert SlotOK(s, x, v[x]); }
  }

  lemma FreedMoveThread(s: State, t: Tid, id: nat, c: nat, i: nat, b: PagePlace)
    requires t in s.threads && ThreadOK(s, t) && AtRest(s.threads[t]) && At(s.slots, Live(id)) != []
    requires i < |At(s.pages, Full(t, c))| && b == if At(s.pages, Bin(t, c)) == [] then Bin(t, c) else Partial(t, c)
    ensures ThreadOK(MovePage(Freed(s, id), Full(t, c), i, b), t)
  {
    hide ClassSize;
    ShiftAt(s.pages, Full(t, c), i, b);
    ShiftAt(s.slots, Live(id), 0, Local(At(s.slots, Live(id))[0].page));
    hide Shift;
  }

  /** The slab was partial and stays partial. */
  lemma FreeStayOK(s: State, w: Witness, t: Tid, id: nat, p: Page, c: nat)
    requires Inv(s, w) && Enabled(s, t, StartFree(id)) && p == At(s.slots, Live(id))[0].page
    requires s.threads[t].heap.Running? && p in s.slabs && p in w.pages && w.pages[p] == Partial(t, c) &&
             PlaceOK(s, p, Partial(t, c))
    requires !FullyFree(Freed(s, id), p)
    ensures Inv(Freed(s, id), w.(slots := w.slots[At(s.slots, Live(id))[0] := Local(p)]))
  {
    hide Inv, SlotCount, ClassSize, Tiled, SlotsOK;
    ThreadFacts(s, w, t);
    SlotFacts(s, w, Live(id), 0);
    FreedSlots(s, w, t, id);
    FreedFrame(s, t, id);
    var s1, x := Freed(s, id), At(s.slots, Live(id))[0];
    FreeBound(s1, w.slots[x := Local(p)], p);
    assert s1.threads == s.threads[t := s1.threads[t]];
    assert PlaceOK(s1, p, Partial(t, c));
    assert ThreadOK(s1, t);
    SlotMove(s, s1, w, t, Live(id), Local(p));
  }

  /**
   `dealloc` on a queued slab of ours. The promotion test `free_count() == 1` holds exactly for the
   slabs of the full queue, so the list the back pointer removes from is the full queue.
   */
  lemma FreeQueuedOK(s: State, w: Witness, t: Tid, id: nat, p: Page) returns (w': Witness)
    requires Inv(s, w) && Enabled(s, t, StartFree(id)) && p == At(s.slots, Live(id))[0].page
    requires s.threads[t].heap.Running? && p in s.slabs && s.slabs[p].heapId == s.threads[t].heap.id
    requires At(s.pages, Bin(t, s.slabs[p].sizeClass)) != [p]
    ensures Inv(StepFree(s, t, id), w')
    ensures Free(Freed(s, id), p) == 1 <==> p in At(s.pages, Full(t, s.slabs[p].sizeClass))
  {
    hide Inv, SlotCount, ClassSize, Tiled, SlotsOK, FullyFree;
    QueuedFacts(s, w, t, p);
    FreedFrame(s, t, id);
    hide SlabsSame, OnlyThread;
    var c := s.slabs[p].sizeClass;
    var a := QueueOf(s, t, c, p);
    var i := IndexOf(At(s.pages, a), p);
    var x := At(s.slots, Live(id))[0];
    var v := w.slots[x := Local(p)];
    var s1 := Freed(s, id);
    ThreadFacts(s, w, t);
    assert StepFree(s, t, id) == FreeQueued(s1, t, c, p);
    if FullyFree(s1, p) {
      FreeReclaimOK(s, w, t, id, p, a, i);
      w' := W(w.pages[p := Raw(t)], Cleared(v, Local(p), Virgin(p)), w.spans);
    } else if a.Full? {
      var b := if At(s.pages, Bin(t, c)) == [] then Bin(t, c) else Partial(t, c);
      FreePromoteOK(s, w, t, id, p, c, i, b);
      w' := w.(pages := w.pages[p := b], slots := v);
    } else {
      FreeStayOK(s, w, t, id, p, c);
      w' := w.(slots := v);
    }
  }
}
