/**
 Steps that move slots: allocation from a slab, local and remote frees, drains.
 */
module SlotSteps {
  import opened Places
  import opened Tiling
  import opened PoolSections
  import opened PoolInvariant
  import opened PoolSteps
  import opened SizeClasses
  import opened SlabGeometry
  import opened System
  import opened SystemInvariant
  import opened Frames
  import opened ControlSteps

  /** The list belongs to thread `t` or to no thread. */
  predicate NotForeign(a: SlotPlace, t: Tid) {
    (a.Draining? ==> a.t == t) && (a.Pushing? ==> a.t == t)
  }

  predicate Counts(a: SlotPlace) {
    a.Local? || a.Virgin?
  }

  /** The page of a slot whose move changes a free count. */
  function Touched(a: SlotPlace, b: SlotPlace, p: Page): set<Page> {
    if Counts(a) || Counts(b) then {p} else {}
  }

  lemma SlotFacts(s: State, w: Witness, a: SlotPlace, i: nat)
    requires Inv(s, w) && i < |At(s.slots, a)|
    ensures At(s.slots, a)[i] in w.slots && w.slots[At(s.slots, a)[i]] == a
    ensures SlotOK(s, At(s.slots, a)[i], a)
    ensures At(s.slots, a)[i].page in w.pages && w.pages[At(s.slots, a)[i].page].Slab()
  {
    hide PoolInv, ThreadsOK, SpansOK, OwnersOK, SlotOK, PlaceOK;
    FoundAt(s.slots, w.slots, a, i);
    hide Tiled;
    var x := At(s.slots, a)[i];
    assert SlotOK(s, x, a);
    assert x.page in s.slabs by { assert SlotOK(s, x, a); SlotPage(s, x, a); }
    SlabPlaced(s, w.pages, x.page);
  }

  lemma SlotPage(s: State, x: Slot, a: SlotPlace)
    requires SlotOK(s, x, a)
    ensures x.page in s.slabs
  {
  }

  lemma SlabPlaced(s: State, w: map<Page, PagePlace>, p: Page)
    requires PagesOK(s, w) && p in s.slabs
    ensures p in w && PlaceOK(s, p, w[p]) && w[p].Slab()
  {
  }

  /** Everything a one-slot move has to show. */
  ghost predicate SlotMoveOK(s: State, s': State, w: Witness, t: Tid, a: SlotPlace, b: SlotPlace) {
    && t in s.threads && t in s'.threads && At(s.slots, a) != [] && a != b
    && var x := At(s.slots, a)[0];
    && s' == s.(slots := Shift(s.slots, a, 0, b), threads := s.threads[t := s'.threads[t]], nextId := s'.nextId,
                allocBytes := s'.allocBytes, freeBytes := s'.freeBytes, lostBytes := s'.lostBytes)
    && s'.threads[t].heap == s.threads[t].heap && s'.nextId >= s.nextId
    && NotForeign(a, t) && NotForeign(b, t)
    && (b.Live? ==> At(s.slots, b) == [])
    && (|At(s.slots, Draining(t))| == (if a == Draining(t) then 1 else 0)
        || (s.threads[t].op.Drain? && s'.threads[t].op == s.threads[t].op))
    && (a.Local? ==> a.p == x.page) && (b.Local? ==> b.p == x.page) && (a.Virgin? ==> a.p == x.page) && !b.Virgin?
    && Smooth(s, t, s'.threads[t].op)
  }

  lemma SlotMoveFrame(s: State, s': State, w: Witness, t: Tid, a: SlotPlace, b: SlotPlace)
    requires SlotMoveOK(s, s', w, t, a, b)
    ensures OnlyThread(s, s', t)
    ensures SlabsSame(s, s', Touched(a, b, At(s.slots, a)[0].page))
    ensures (forall id :: |At(s.slots, Live(id))| <= 1) ==> forall id :: |At(s'.slots, Live(id))| <= 1
  {
    hide Smooth;
    var x := At(s.slots, a)[0];
    assert forall c: SlotPlace :: c != a && c != b ==> At(s'.slots, c) == At(s.slots, c);
  }

  lemma SlotMove(s: State, s': State, w: Witness, t: Tid, a: SlotPlace, b: SlotPlace)
    requires Inv(s, w) && SlotMoveOK(s, s', w, t, a, b) && ThreadOK(s', t)
    requires SlotOK(s', At(s.slots, a)[0], b)
    requires Counts(a) || Counts(b) ==>
               At(s.slots, a)[0].page in w.pages && PlaceOK(s', At(s.slots, a)[0].page, w.pages[At(s.slots, a)[0].page])
    ensures Inv(s', w.(slots := w.slots[At(s.slots, a)[0] := b]))
  {
    hide PoolInv, ThreadOK, OpFits, PlaceOK, SlotOK, Apart, PageLists, Tiled, SlabsSame, OwnedBy, OnlyThread, Free;
    var x := At(s.slots, a)[0];
    var ps := Touched(a, b, x.page);
    ShiftTiled(s.slots, w.slots, a, 0, b);
    SlotMoveFrame(s, s', w, t, a, b);
    assert PagesOK(s', w.pages) by {
      forall q | q in w.pages && q !in ps && w.pages[q].Mine(t) ensures OpFits(s, s', t, q, w.pages[q]) {
        FreeSame(s, s', ps, q);
        SmoothFits(s, s', w, t, q);
      }
      PagesStep(s, s', w.pages, w.pages, t, ps);
    }
    assert SlotsOK(s', w.slots[x := b]) by {
      DrainingSlots(s, w, t, a);
      SlotsStep(s, s', w.slots, w.slots[x := b], t, {x});
    }
    assert OwnersOK(s', w.pages) by {
      SmoothOwners(s, s', w, t);
    }
    assert ThreadsOK(s') by { OtherThreads(s, s', t); }
  }

  lemma FreeSame(s: State, s': State, ps: set<Page>, q: Page)
    requires SlabsSame(s, s', ps) && q !in ps
    ensures Free(s', q) == Free(s, q)
  {
  }

  /** The only slots a thread is draining are the ones on its list. */
  lemma DrainingSlots(s: State, w: Witness, t: Tid, a: SlotPlace)
    requires Tiled(s.slots, w.slots) && At(s.slots, a) != []
    ensures |At(s.slots, Draining(t))| == (if a == Draining(t) then 1 else 0) ==>
              forall x :: x in w.slots && w.slots[x] == Draining(t) ==> x == At(s.slots, a)[0]
  {
    forall x | x in w.slots && w.slots[x] == Draining(t) ensures x in At(s.slots, Draining(t)) {
      assert x in At(s.slots, w.slots[x]);
    }
  }

  lemma SmoothOwners(s: State, s': State, w: Witness, t: Tid)
    requires Inv(s, w) && OnlyThread(s, s', t) && s'.pages == s.pages && s'.slabs == s.slabs
    requires s'.threads[t].heap == s.threads[t].heap && Smooth(s, t, s'.threads[t].op)
    ensures OwnersOK(s', w.pages)
  {
    hide PoolInv, Tiled, ThreadsOK, SpansOK, SlotsOK, PlaceOK;
    OwnersStep(s, s', w.pages, w.pages, t, {});
  }

  // ----- the steps

  /** A fresh allocation number names no slot yet. */
  lemma FreshId(s: State, w: Witness)
    requires Inv(s, w)
    ensures At(s.slots, Live(s.nextId)) == []
  {
    hide Inv, SlotOK;
    if At(s.slots, Live(s.nextId)) != [] {
      SlotFacts(s, w, Live(s.nextId), 0);
      LiveBelow(s, At(s.slots, Live(s.nextId))[0], s.nextId);
    }
  }

  lemma LiveBelow(s: State, x: Slot, id: nat)
    requires SlotOK(s, x, Live(id))
    ensures id < s.nextId
  {
  }

  function Source(s: State, p: Page): SlotPlace {
    if At(s.slots, Local(p)) != [] then Local(p) else Virgin(p)
  }

  /** `slab.alloc()` on the active slab. */
  lemma AllocHitOK(s: State, w: Witness, t: Tid, c: nat, p: Page)
    requires Inv(s, w) && t in s.threads && (s.threads[t].op.Alloc? || s.threads[t].op.Retry?) && s.threads[t].op.c == c
    requires At(s.pages, Bin(t, c)) == [p] && p in s.slabs && Free(s, p) > 0
    ensures Inv(SetOp(SlabAlloc(s, p), t, Idle), w.(slots := w.slots[At(s.slots, Source(s, p))[0] := Live(s.nextId)]))
  {
    hide Inv, SlotCount, ClassSize;
    ThreadFacts(s, w, t);
    FreshId(s, w);
    var a, b := Source(s, p), Live(s.nextId);
    SlotFacts(s, w, a, 0);
    PageAt(s, w, Bin(t, c), 0);
    BinFacts(s, w, t, p, c);
    var s' := SetOp(SlabAlloc(s, p), t, Idle);
    assert PlaceOK(s', p, Bin(t, c));
    SlotMove(s, s', w, t, a, b);
  }

  lemma PageAt(s: State, w: Witness, a: PagePlace, i: nat)
    requires Inv(s, w) && !a.Uncarved? && !a.Dirty? && !a.Clean? && i < |At(s.pages, a)|
    ensures At(s.pages, a)[i] in w.pages && w.pages[At(s.pages, a)[i]] == a
    ensures PlaceOK(s, At(s.pages, a)[i], a)
  {
    hide PoolInv, ThreadsOK, SpansOK, OwnersOK, SlotsOK, PlaceOK, Tiled;
    assert At(PageLists(s.pool, s.pages), a) == At(s.pages, a);
    FoundAt(PageLists(s.pool, s.pages), w.pages, a, i);
  }

  /** One slot of a drained chain reaches the local list. */
  lemma DrainMoveOK(s: State, w: Witness, t: Tid, p: Page, next: Cont)
    requires Inv(s, w) && t in s.threads && s.threads[t].op == Drain(p, next) && At(s.slots, Draining(t)) != []
    ensures Inv(StepDrain(s, t, p, next), w.(slots := w.slots[At(s.slots, Draining(t))[0] := Local(p)]))
  {
    hide Inv, SlotCount, ClassSize;
    ThreadFacts(s, w, t);
    SlotFacts(s, w, Draining(t), 0);
    var s' := StepDrain(s, t, p, next);
    assert s'.threads[t] == s.threads[t];
    match next {
      case ToRetry(c) => PageAt(s, w, Bin(t, c), 0);
      case ToScan(c, k) => PageAt(s, w, Full(t, c), k);
      case ToAdopt(c, _) => PageAt(s, w, Hand(t), 0);
      case ToDrop(c) => PageAt(s, w, Hand(t), 0);
    }
    assert PlaceOK(s', p, w.pages[p]);
    assert s'.threads == s.threads[t := s'.threads[t]];
    SlotMove(s, s', w, t, Draining(t), Local(p));
  }

  /** `dealloc` on the active slab. */
  lemma FreeBinOK(s: State, w: Witness, t: Tid, id: nat, c: nat, p: Page)
    requires Inv(s, w) && Enabled(s, t, StartFree(id)) && p == At(s.slots, Live(id))[0].page
    requires At(s.pages, Bin(t, c)) == [p] && s.threads[t].heap.Running?
    ensures p in s.slabs && s.slabs[p].sizeClass == c
    ensures Inv(StepFree(s, t, id), w.(slots := w.slots[At(s.slots, Live(id))[0] := Local(p)]))
  {
    hide Inv, SlotCount, ClassSize;
    ThreadFacts(s, w, t);
    SlotFacts(s, w, Live(id), 0);
    PageAt(s, w, Bin(t, c), 0);
    var s' := StepFree(s, t, id);
    assert PlaceOK(s', p, Bin(t, c));
    assert s'.threads == s.threads[t := s'.threads[t]];
    SlotMove(s, s', w, t, Live(id), Local(p));
  }

  /** `dealloc` on a slab of another heap, or without a heap. */
  lemma FreeRemoteOK(s: State, s0: State, w: Witness, t: Tid, id: nat)
    requires Inv(s, w) && Enabled(s, t, StartFree(id))
    requires s0 == s.(freeBytes := s0.freeBytes, lostBytes := s0.lostBytes)
    ensures Inv(FreeRemote(s0, t, id), w.(slots := w.slots[At(s.slots, Live(id))[0] := Pushing(t)]))
  {
    hide Inv, SlotCount, ClassSize;
    ThreadFacts(s, w, t);
    SlotFacts(s, w, Live(id), 0);
    SlotMove(s, FreeRemote(s0, t, id), w, t, Live(id), Pushing(t));
  }

  /** The slot reaches the remote stack of its slab. */
  lemma PushOK(s: State, w: Witness, t: Tid)
    requires Inv(s, w) && t in s.threads && s.threads[t].op.Push?
    ensures At(s.slots, Pushing(t)) != []
    ensures var x := At(s.slots, Pushing(t))[0];
            Inv(StepPush(s, t), w.(slots := w.slots[x := Remote(x.page)]))
  {
    hide Inv, SlotCount, ClassSize;
    ThreadFacts(s, w, t);
    SlotFacts(s, w, Pushing(t), 0);
    SlotMove(s, StepPush(s, t), w, t, Pushing(t), Remote(At(s.slots, Pushing(t))[0].page));
  }

  // ----- drain_remote: the swap

  lemma SwapFrame(s: State, t: Tid, p: Page, next: Cont)
    requires t in s.threads
    ensures OnlyThread(s, SwapRemote(s, t, p, next), t)
    ensures SlabsSame(s, SwapRemote(s, t, p, next), {})
  {
  }

  lemma SwapSlots(s: State, s': State, w: Witness, t: Tid, p: Page)
    requires SlotsOK(s, w.slots) && OnlyThread(s, s', t) && s'.nextId == s.nextId && s'.slabs == s.slabs
    requires Tiled(s.slots, w.slots) && At(s.slots, Draining(t)) == [] &&
             s'.slots == Pour(s.slots, Remote(p), Draining(t))
    requires s'.threads[t].op.Drain? && s'.threads[t].op.p == p
    ensures SlotsOK(s', Renamed(w.slots, Remote(p), Draining(t)))
  {
    NobodyAt(s.slots, w.slots, Draining(t));
    hide Tiled;
    var xs := set x | x in w.slots && w.slots[x] == Remote(p);
    var w' := Renamed(w.slots, Remote(p), Draining(t));
    forall x | x in xs && x in w.slots ensures SlotOK(s', x, w'[x]) {
      assert SlotOK(s, x, w.slots[x]);
    }
    assert forall id :: At(s'.slots, Live(id)) == At(s.slots, Live(id));
    SlotsStep(s, s', w.slots, w', t, xs);
  }

  /** The whole remote stack changes hands in one swap. */
  lemma SwapOK(s: State, w: Witness, t: Tid, p: Page, next: Cont)
    requires Inv(s, w) && t in s.threads && At(s.slots, Draining(t)) == []
    requires ThreadOK(SwapRemote(s, t, p, next), t) && Smooth(s, t, Drain(p, next))
    ensures Inv(SwapRemote(s, t, p, next), w.(slots := Renamed(w.slots, Remote(p), Draining(t))))
  {
    hide PoolInv, ThreadOK, OpFits, PlaceOK, SlotOK, Apart, PageLists, Tiled, SlabsSame, OwnedBy, OnlyThread, Free,
         Smooth;
    var s' := SwapRemote(s, t, p, next);
    SwapFrame(s, t, p, next);
    PourTiled(s.slots, w.slots, Remote(p), Draining(t));
    assert PagesOK(s', w.pages) by {
      forall q | q in w.pages && w.pages[q].Mine(t) ensures OpFits(s, s', t, q, w.pages[q]) {
        FreeSame(s, s', {}, q);
        SmoothFits(s, s', w, t, q);
      }
      PagesStep(s, s', w.pages, w.pages, t, {});
    }
    assert SlotsOK(s', Renamed(w.slots, Remote(p), Draining(t))) by { SwapSlots(s, s', w, t, p); }
    assert OwnersOK(s', w.pages) by { SmoothOwners(s, s', w, t); }
    assert ThreadsOK(s') by { OtherThreads(s, s', t); }
  }

  lemma AllocSwapOK(s: State, w: Witness, t: Tid, c: nat, again: bool)
    requires Inv(s, w) && t in s.threads && s.threads[t].op == Alloc(c, again)
    requires At(s.pages, Bin(t, c)) != [] && Free(s, At(s.pages, Bin(t, c))[0]) == 0
    ensures var p := At(s.pages, Bin(t, c))[0];
            Inv(SwapRemote(s, t, p, ToRetry(c)), w.(slots := Renamed(w.slots, Remote(p), Draining(t))))
  {
    hide Inv, SlotCount, ClassSize;
    ThreadFacts(s, w, t);
    SwapOK(s, w, t, At(s.pages, Bin(t, c))[0], ToRetry(c));
  }

  lemma ScanSwapOK(s: State, w: Witness, t: Tid, c: nat, k: nat)
    requires Inv(s, w) && t in s.threads && s.threads[t].op == ScanSwap(c, k)
    ensures k < |At(s.pages, Full(t, c))|
    ensures var p := At(s.pages, Full(t, c))[k];
            Inv(SwapRemote(s, t, p, ToScan(c, k)), w.(slots := Renamed(w.slots, Remote(p), Draining(t))))
  {
    hide Inv, SlotCount, ClassSize;
    ThreadFacts(s, w, t);
    SwapOK(s, w, t, At(s.pages, Full(t, c))[k], ToScan(c, k));
  }

  lemma AdoptDrainOK(s: State, w: Witness, t: Tid, c: nat, got: bool)
    requires Inv(s, w) && t in s.threads && s.threads[t].op == AdoptDrain(c, got)
    ensures At(s.pages, Hand(t)) != []
    ensures var p := At(s.pages, Hand(t))[0];
            Inv(SwapRemote(s, t, p, ToAdopt(c, got)), w.(slots := Renamed(w.slots, Remote(p), Draining(t))))
  {
    hide Inv, SlotCount, ClassSize;
    ThreadFacts(s, w, t);
    SwapOK(s, w, t, At(s.pages, Hand(t))[0], ToAdopt(c, got));
  }

  lemma DropDrainOK(s: State, w: Witness, t: Tid, c: nat)
    requires Inv(s, w) && t in s.threads && s.threads[t].op == DropDrain(c)
    ensures At(s.pages, Hand(t)) != []
    ensures var p := At(s.pages, Hand(t))[0];
            Inv(SwapRemote(s, t, p, ToDrop(c)), w.(slots := Renamed(w.slots, Remote(p), Draining(t))))
  {
    hide Inv, SlotCount, ClassSize;
    ThreadFacts(s, w, t);
    SwapOK(s, w, t, At(s.pages, Hand(t))[0], ToDrop(c));
  }
}
