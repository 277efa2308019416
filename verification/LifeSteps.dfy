/**
 Steps that start and end the life of heaps and slabs: bulk adoption, initialisation, heap birth
 and heap death.
 */
module LifeSteps {
  import opened Places
  import opened Tiling
  import opened PoolSections
  import opened PoolInvariant
  import opened PoolSteps
  import opened SizeClasses
  import opened SlabGeometry
  import opened System
  import opened SystemInvariant
  import opened Frames
  import opened ControlSteps
  import opened SlotSteps
  import opened PageSteps
  import opened SlabSteps
  import opened PoolOpSteps

  // ----- adopt_all: the swap

  lemma PourPageLists(o: Pool, m: Lists, a: PagePlace, b: PagePlace)
    requires InUsePlace(a) && InUsePlace(b)
    ensures At(PageLists(o, m), b) == At(m, b)
    ensures PageLists(o, Pour(m, a, b)) == Pour(PageLists(o, m), a, b)
  {
    hide Range;
  }

  lemma CountedRenamed(segs: seq<nat>, out: seq<nat>, w: map<Page, PagePlace>, a: PagePlace, b: PagePlace)
    requires Counted(segs, out, w) && InUsePlace(a) && InUsePlace(b)
    ensures Counted(segs, out, Renamed(w, a, b)) && InUse(Renamed(w, a, b)) == InUse(w)
  {
    forall i | 0 <= i < |segs| ensures out[i] == |OutIn(Renamed(w, a, b), segs[i])| {
      assert OutIn(Renamed(w, a, b), segs[i]) == OutIn(w, segs[i]);
    }
  }

  lemma PoolInvRenamed(o: Pool, w: map<Page, PagePlace>, a: PagePlace, b: PagePlace)
    requires PoolInv(o, w) && InUsePlace(a) && InUsePlace(b)
    ensures PoolInv(o, Renamed(w, a, b))
  {
    hide Counted, InUse, AllApart;
    CountedRenamed(o.segs, o.out, w, a, b);
  }

  lemma PooledPour(o: Pool, m: Lists, w: map<Page, PagePlace>, a: PagePlace, b: PagePlace)
    requires Pooled(o, m, w) && InUsePlace(a) && InUsePlace(b) && a != b && At(m, b) == []
    ensures Pooled(o, Pour(m, a, b), Renamed(w, a, b))
  {
    hide Tiled, PoolInv;
    PourPageLists(o, m, a, b);
    PourTiled(PageLists(o, m), w, a, b);
    PoolInvRenamed(o, w, a, b);
  }

  lemma TakeShape(s: State, t: Tid, c: nat)
    requires t in s.threads && ThreadOK(s, t) && s.threads[t].op == AdoptTake(c)
    ensures var s' := StepAdoptTake(s, t, c);
            && ThreadOK(s', t) && OnlyThread(s, s', t) && SlabsSame(s, s', {})
            && c < NUM_CLASSES && s.threads[t].heap.Running?
            && At(s.slots, Draining(t)) == [] && At(s.pages, Hand(t)) == []
  {
  }

  lemma TakenPlace(s: State, t: Tid, c: nat, q: Page)
    requires t in s.threads && s.threads[t].heap.Running? && PlaceOK(s, q, Abandoned(c))
    ensures PlaceOK(StepAdoptTake(s, t, c), q, Hand(t))
  {
  }

  lemma SlabsSameMore(s: State, s': State, ps: set<Page>)
    requires SlabsSame(s, s', {})
    ensures SlabsSame(s, s', ps)
  {
    hide Free;
  }

  lemma TakePages(s: State, w: Witness, t: Tid, c: nat)
    requires PagesOK(s, w.pages) && t in s.threads && s.threads[t].op == AdoptTake(c) && c < NUM_CLASSES
    requires s.threads[t].heap.Running? && OnlyThread(s, StepAdoptTake(s, t, c), t) &&
             SlabsSame(s, StepAdoptTake(s, t, c), {})
    requires forall q :: q in w.pages ==> w.pages[q] != Hand(t)
    ensures PagesOK(StepAdoptTake(s, t, c), Renamed(w.pages, Abandoned(c), Hand(t)))
  {
    hide SlabsSame, PlaceOK, Free, OnlyThread;
    var s' := StepAdoptTake(s, t, c);
    var w' := Renamed(w.pages, Abandoned(c), Hand(t));
    var ps := set q | q in w.pages && w.pages[q] == Abandoned(c);
    forall q | q in ps && q in w' ensures PlaceOK(s', q, w'[q]) {
      TakenPlace(s, t, c, q);
    }
    SlabsSameMore(s, s', ps);
    PagesStep(s, s', w.pages, w', t, ps);
  }

  lemma TakeOwners(s: State, w: Witness, t: Tid, c: nat)
    requires PagesOK(s, w.pages) && OwnersOK(s, w.pages) && t in s.threads && s.threads[t].op == AdoptTake(c)
    requires OnlyThread(s, StepAdoptTake(s, t, c), t)
    requires forall q :: q in w.pages ==> w.pages[q] != Hand(t)
    ensures OwnersOK(StepAdoptTake(s, t, c), Renamed(w.pages, Abandoned(c), Hand(t)))
  {
    hide PagesOK, OwnersOK, OnlyThread;
    var ps := set q | q in w.pages && w.pages[q] == Abandoned(c);
    OwnersStep(s, StepAdoptTake(s, t, c), w.pages, Renamed(w.pages, Abandoned(c), Hand(t)), t, ps);
  }

  /** The whole abandoned stack of the class changes hands in one swap. */
  lemma AdoptTakeOK(s: State, w: Witness, t: Tid, c: nat)
    requires Inv(s, w) && t in s.threads && s.threads[t].op == AdoptTake(c)
    ensures Inv(StepAdoptTake(s, t, c), w.(pages := Renamed(w.pages, Abandoned(c), Hand(t))))
  {
    hide PoolInv, Tiled, PlaceOK, Apart, SlotOK, ThreadOK, PageLists, OnlyThread, SlabsSame, Pooled, OwnersOK,
         PagesOK, SlotsOK;
    var s' := StepAdoptTake(s, t, c);
    ThreadFacts(s, w, t);
    TakeShape(s, t, c);
    NoPageAt(s, w, Hand(t));
    PooledPour(s.pool, s.pages, w.pages, Abandoned(c), Hand(t));
    TakePages(s, w, t, c);
    TakeOwners(s, w, t, c);
    StillSlots(s, s', w, t);
    OtherThreads(s, s', t);
    SpansKept(s, s', w.spans);
  }

  lemma StillSlots(s: State, s': State, w: Witness, t: Tid)
    requires SlotsOK(s, w.slots) && Tiled(s.slots, w.slots) && OnlyThread(s, s', t)
    requires s'.slots == s.slots && s'.nextId == s.nextId && At(s.slots, Draining(t)) == []
    requires s'.slabs.Keys == s.slabs.Keys
    requires forall p :: p in s.slabs ==> s'.slabs[p].sizeClass == s.slabs[p].sizeClass
    ensures SlotsOK(s', w.slots)
  {
    NobodyAt(s.slots, w.slots, Draining(t));
    hide Tiled, SlotCount;
    SlotsStep(s, s', w.slots, w.slots, t, {});
  }

  // ----- try_adopt: claim a slab

  lemma ClaimShape(s: State, t: Tid, c: nat, got: bool)
    requires t in s.threads && ThreadOK(s, t) && s.threads[t].op == Adopt(c, got) && s.threads[t].pool.PIdle?
    requires At(s.pages, Hand(t)) != [] && At(s.pages, Hand(t))[0] in s.slabs
    ensures var s', p := StepAdopt(s, t, c, got), At(s.pages, Hand(t))[0];
            && ThreadOK(s', t) && OnlyThread(s, s', t) && SlabsSame(s, s', {p}) && s.threads[t].heap.Running?
            && s' == s.(slabs := s.slabs[p := Header(s.slabs[p].sizeClass, s.threads[t].heap.id)],
                        threads := s.threads[t := s.threads[t].(op := AdoptDrain(c, got))])
            && At(s.slots, Draining(t)) == []
  {
  }

  lemma ClaimPages(s: State, w: Witness, t: Tid, c: nat, got: bool)
    requires Inv(s, w) && t in s.threads && ThreadOK(s, t) && s.threads[t].op == Adopt(c, got) &&
             s.threads[t].pool.PIdle?
    requires At(s.pages, Hand(t)) != [] && At(s.pages, Hand(t))[0] in s.slabs
    ensures PagesOK(StepAdopt(s, t, c, got), w.pages)
  {
    hide Inv, Tiled, SlotCount, OnlyThread, SlabsSame, PagesOK;
    var s', p := StepAdopt(s, t, c, got), At(s.pages, Hand(t))[0];
    ClaimShape(s, t, c, got);
    PageAt(s, w, Hand(t), 0);
    assert PlaceOK(s', p, Hand(t));
    forall q | q in w.pages && q !in {p} && w.pages[q].Mine(t) ensures OpFits(s, s', t, q, w.pages[q]) {
      FreeSame(s, s', {p}, q);
      if w.pages[q].Hand? { HandFacts(s, w, t, q); HeaderSame(s, s', {p}, q); }
    }
    InvPages(s, w);
    PagesStep(s, s', w.pages, w.pages, t, {p});
  }

  lemma InvPages(s: State, w: Witness)
    requires Inv(s, w)
    ensures PagesOK(s, w.pages) && OwnersOK(s, w.pages) && IdsOK(s) && ThreadsOK(s)
  {
  }

  lemma ClaimOwners(s: State, w: Witness, t: Tid, c: nat, got: bool)
    requires PagesOK(s, w.pages) && OwnersOK(s, w.pages) && IdsOK(s)
    requires t in s.threads && s.threads[t].op == Adopt(c, got) && s.threads[t].heap.Running?
    requires At(s.pages, Hand(t)) != [] && At(s.pages, Hand(t))[0] in s.slabs
    requires At(s.pages, Hand(t))[0] in w.pages && w.pages[At(s.pages, Hand(t))[0]] == Hand(t)
    ensures OwnersOK(StepAdopt(s, t, c, got), w.pages) && IdsOK(StepAdopt(s, t, c, got))
  {
    hide PlaceOK;
    var s', p := StepAdopt(s, t, c, got), At(s.pages, Hand(t))[0];
    forall u, q | u in s'.threads && Active(s'.threads[u]) && q in s'.slabs && q in w.pages
                  && s'.slabs[q].heapId == s'.threads[u].heap.id
      ensures OwnedBy(s', u, q, w.pages[q])
    {
      if q != p { assert OwnedBy(s, u, q, w.pages[q]); }
    }
  }

  /** The slab takes the adopting heap's id: from here on the header names its owner. */
  lemma AdoptClaimOK(s: State, w: Witness, t: Tid, c: nat, got: bool)
    requires Inv(s, w) && t in s.threads && s.threads[t].op == Adopt(c, got) && s.threads[t].pool.PIdle?
    requires At(s.pages, Hand(t)) != []
    ensures At(s.pages, Hand(t))[0] in s.slabs && s.threads[t].heap.Running?
    ensures Inv(StepAdopt(s, t, c, got), w)
  {
    hide PoolInv, Tiled, PlaceOK, Apart, SlotOK, ThreadOK, PageLists, OnlyThread, SlabsSame, Pooled, OwnersOK,
         PagesOK, SlotsOK, IdsOK, ThreadsOK;
    var s' := StepAdopt(s, t, c, got);
    ThreadFacts(s, w, t);
    PageAt(s, w, Hand(t), 0);
    PlacedSlab(s, At(s.pages, Hand(t))[0], Hand(t));
    ClaimShape(s, t, c, got);
    ClaimPages(s, w, t, c, got);
    ClaimOwners(s, w, t, c, got);
    StillSlots(s, s', w, t);
    OtherThreads(s, s', t);
    SpansKept(s, s', w.spans);
  }

  // ----- a slot out of a slab, beside other changes

  lemma TookFrame(s: State, t: Tid, p: Page)
    requires t in s.threads && p in s.slabs && Free(s, p) > 0 && At(s.slots, Live(s.nextId)) == []
    ensures var s1 := SlabAlloc(s, p);
            && OnlyThread(s, s1, t) && SlabsSame(s, s1, {p})
            && (forall u: Tid :: At(s1.slots, Draining(u)) == At(s.slots, Draining(u)))
            && (forall u: Tid :: At(s1.slots, Pushing(u)) == At(s.slots, Pushing(u)))
            && (forall n :: |At(s1.slots, Live(n))| <= 1 || At(s1.slots, Live(n)) == At(s.slots, Live(n)))
  {
    hide ClassSize;
    ShiftAt(s.slots, Source(s, p), 0, Live(s.nextId));
    hide Shift;
  }

  lemma TookSlots(s: State, w: map<Slot, SlotPlace>, t: Tid, p: Page)
    requires Tiled(s.slots, w) && SlotsOK(s, w) && t in s.threads && p in s.slabs && Free(s, p) > 0
    requires At(s.slots, Draining(t)) == [] && At(s.slots, Live(s.nextId)) == []
    ensures var x := At(s.slots, Source(s, p))[0];
            && Tiled(SlabAlloc(s, p).slots, w[x := Live(s.nextId)])
            && SlotsOK(SlabAlloc(s, p), w[x := Live(s.nextId)])
  {
    hide Tiled, SlotCount, ClassSize;
    var x := At(s.slots, Source(s, p))[0];
    ShiftTiled(s.slots, w, Source(s, p), 0, Live(s.nextId));
    hide Shift;
    NobodyAt(s.slots, w, Draining(t));
    assert SlotOK(s, x, w[x]);
    TookFrame(s, t, p);
    hide SlabsSame, OnlyThread;
    forall n ensures |At(SlabAlloc(s, p).slots, Live(n))| <= 1 { assert |At(s.slots, Live(n))| <= 1; }
    SlotsStep(s, SlabAlloc(s, p), w, w[x := Live(s.nextId)], t, {x});
  }

  ghost predicate CanAdoptAlloc(s: State, t: Tid, c: nat) {
    && t in s.threads && s.threads[t].op == AdoptJudge(c, false) && At(s.pages, Hand(t)) != []
    && var p := At(s.pages, Hand(t))[0]; p in s.slabs && Free(s, p) > 0 && !FullyFree(s, p)
  }

  lemma AdoptAllocSlots(s: State, w: Witness, t: Tid, c: nat)
    requires Inv(s, w) && CanAdoptAlloc(s, t, c)
    ensures At(s.slots, Live(s.nextId)) == []
    ensures var v := w.slots[At(s.slots, Source(s, At(s.pages, Hand(t))[0]))[0] := Live(s.nextId)];
            && Tiled(StepAdoptJudge(s, t, c, false).slots, v) && SlotsOK(StepAdoptJudge(s, t, c, false), v)
  {
    hide Inv, SlotCount, ClassSize, Tiled, SlotsOK, FullyFree;
    var p := At(s.pages, Hand(t))[0];
    ThreadFacts(s, w, t);
    FreshId(s, w);
    InvSlots(s, w);
    var s1 := SlabAlloc(s, p);
    TookSlots(s, w.slots, t, p);
    TookFrame(s, t, p);
    hide SlabAlloc, ThreadOK, OnlyThread, SlabsSame;
    ReopSlots(s1, StepAdoptJudge(s, t, c, false), w.slots[At(s.slots, Source(s, p))[0] := Live(s.nextId)], t);
  }

  lemma AdoptAllocPlaces(s: State, w: Witness, t: Tid, c: nat)
    requires Inv(s, w) && CanAdoptAlloc(s, t, c) && At(s.slots, Live(s.nextId)) == []
    ensures var s', p := StepAdoptJudge(s, t, c, false), At(s.pages, Hand(t))[0];
            && At(s.pages, Bin(t, c)) == [] && ThreadOK(s', t) && PlaceOK(s', p, Bin(t, c))
            && PageMoveOK(s, s', t, Hand(t), 0, Bin(t, c))
  {
    hide Inv, SlotCount, ClassSize, FullyFree;
    var s', p := StepAdoptJudge(s, t, c, false), At(s.pages, Hand(t))[0];
    ThreadFacts(s, w, t);
    PageAt(s, w, Hand(t), 0);
    ClaimedFacts(s, w, t, p);
    AdoptAllocThread(s, t, c);
    assert PlaceOK(s', p, Bin(t, c));
    assert SmoothBut(s, t, Adopt(c, true), p);
    hide ThreadOK, PlaceOK, SmoothBut;
    TookFrame(s, t, p);
    hide SlabsSame;
    MovedSlabs(s, SlabAlloc(s, p), s', p);
  }

  /** The first adopted slab with a free slot becomes active and serves the allocation. */
  lemma AdoptAllocOK(s: State, w: Witness, t: Tid, c: nat)
    requires Inv(s, w) && CanAdoptAlloc(s, t, c)
    ensures var p := At(s.pages, Hand(t))[0];
            && At(s.pages, Bin(t, c)) == []
            && Inv(StepAdoptJudge(s, t, c, false),
                   w.(pages := w.pages[p := Bin(t, c)],
                       slots := w.slots[At(s.slots, Source(s, p))[0] := Live(s.nextId)]))
  {
    hide Inv, SlotCount, ClassSize, Tiled, SlotsOK, FullyFree, ThreadOK, PlaceOK, PageMoveOK;
    var p := At(s.pages, Hand(t))[0];
    AdoptAllocSlots(s, w, t, c);
    AdoptAllocPlaces(s, w, t, c);
    PageMove(s, StepAdoptJudge(s, t, c, false), w,
             w.(pages := w.pages[p := Bin(t, c)], slots := w.slots[At(s.slots, Source(s, p))[0] := Live(s.nextId)]),
             t, Hand(t), 0, Bin(t, c));
  }

  lemma ReopSlots(s: State, s': State, v: map<Slot, SlotPlace>, t: Tid)
    requires SlotsOK(s, v) && Tiled(s.slots, v) && s'.slots == s.slots && s'.slabs == s.slabs && s'.nextId == s.nextId
    requires t in s.threads && t in s'.threads && s'.threads == s.threads[t := s'.threads[t]] &&
             At(s.slots, Draining(t)) == []
    ensures SlotsOK(s', v)
  {
    NobodyAt(s.slots, v, Draining(t));
    hide SlotCount, Tiled;
    forall x | x in v ensures SlotOK(s', x, v[x]) { assert SlotOK(s, x, v[x]); }
  }

  lemma AdoptAllocThread(s: State, t: Tid, c: nat)
    requires t in s.threads && ThreadOK(s, t) && s.threads[t].op == AdoptJudge(c, false) && At(s.pages, Hand(t)) != []
    requires var p := At(s.pages, Hand(t))[0]; p in s.slabs && Free(s, p) > 0 && !FullyFree(s, p)
    requires At(s.slots, Live(s.nextId)) == []
    ensures ThreadOK(StepAdoptJudge(s, t, c, false), t)
  {
    hide ClassSize, FullyFree, SlotCount, Free;
    AdoptAllocHolds(s, t, c);
    ShiftAt(s.pages, Hand(t), 0, Bin(t, c));
    hide Shift, SlabAlloc, HoldsOK;
  }

  lemma AdoptAllocHolds(s: State, t: Tid, c: nat)
    requires t in s.threads && HoldsOK(s, t) && PoolOpOK(s.threads[t]) && s.threads[t].op == AdoptJudge(c, false) &&
             At(s.pages, Hand(t)) != []
    requires var p := At(s.pages, Hand(t))[0]; p in s.slabs && Free(s, p) > 0 && !FullyFree(s, p)
    requires At(s.slots, Live(s.nextId)) == []
    ensures t in StepAdoptJudge(s, t, c, false).threads && HoldsOK(StepAdoptJudge(s, t, c, false), t)
  {
    hide ClassSize, FullyFree, SlotCount, Free;
    TookFrame(s, t, At(s.pages, Hand(t))[0]);
    ShiftAt(s.pages, Hand(t), 0, Bin(t, c));
    hide Shift, SlabAlloc;
  }

  // ----- Slab::init

  /** A page that carries no slab has no slots on any list of its own. */
  lemma NoSlots(s: State, w: Witness, p: Page)
    requires Inv(s, w) && p !in s.slabs
    ensures At(s.slots, Local(p)) == [] && At(s.slots, Virgin(p)) == []
    ensures forall x :: x in w.slots ==> x.page != p
  {
    hide Inv, SlotCount, SlotOK;
    if At(s.slots, Local(p)) != [] {
      SlotFacts(s, w, Local(p), 0);
      SlotHome(s, At(s.slots, Local(p))[0], Local(p), p);
    }
    if At(s.slots, Virgin(p)) != [] {
      SlotFacts(s, w, Virgin(p), 0);
      SlotHome(s, At(s.slots, Virgin(p))[0], Virgin(p), p);
    }
    InvSlots(s, w);
    hide Tiled;
    forall x | x in w.slots ensures x.page != p { SlotPage(s, x, w.slots[x]); }
  }

  lemma SlotHome(s: State, x: Slot, a: SlotPlace, p: Page)
    requires SlotOK(s, x, a) && (a == Local(p) || a == Virgin(p))
    ensures p in s.slabs
  {
  }

  /** The state in which the fresh slab exists and nothing has been allocated from it. */
  function Inited(s: State, p: Page, c: nat, id: nat): State {
    s.(slabs := s.slabs[p := Header(c, id)], slots := s.slots[Virgin(p) := AllSlots(p, c)])
  }

  lemma InitedSlots(s: State, w: Witness, p: Page, c: nat, id: nat)
    requires Inv(s, w) && p !in s.slabs
    ensures var v := Joined(w.slots, Virgin(p), AllSlots(p, c));
            && Tiled(Inited(s, p, c, id).slots, v) && SlotsOK(Inited(s, p, c, id), v)
  {
    hide Inv, SlotCount, AllSlots;
    NoSlots(s, w, p);
    InvSlots(s, w);
    InitedTiled(s, w.slots, p, c);
    hide Tiled;
    InitedDomain(s, w.slots, p, c, id);
  }

  lemma InitedTiled(s: State, w: map<Slot, SlotPlace>, p: Page, c: nat)
    requires Tiled(s.slots, w) && At(s.slots, Virgin(p)) == [] && forall x :: x in w ==> x.page != p
    ensures Tiled(s.slots[Virgin(p) := AllSlots(p, c)], Joined(w, Virgin(p), AllSlots(p, c)))
  {
    hide Tiled, SlotCount;
    var q := AllSlots(p, c);
    assert forall i :: 0 <= i < |q| ==> q[i] == Slot(p, i);
    assert q + At(s.slots, Virgin(p)) == q;
    GrowTiled(s.slots, w, Virgin(p), q);
  }

  lemma InitedDomain(s: State, w: map<Slot, SlotPlace>, p: Page, c: nat, id: nat)
    requires SlotsOK(s, w) && p !in s.slabs && forall x :: x in w ==> x.page != p
    ensures SlotsOK(Inited(s, p, c, id), Joined(w, Virgin(p), AllSlots(p, c)))
  {
    hide SlotCount;
    var s1, q, v := Inited(s, p, c, id), AllSlots(p, c), Joined(w, Virgin(p), AllSlots(p, c));
    assert forall i :: 0 <= i < |q| ==> q[i] == Slot(p, i);
    forall x | x in v ensures SlotOK(s1, x, v[x]) {
      if x !in q { assert SlotOK(s, x, w[x]); }
    }
    forall x: Slot | x.page in s1.slabs && x.idx < SlotCount(s1.slabs[x.page].sizeClass) ensures x in v {
      if x.page == p { assert q[x.idx] == x; }
    }
    assert forall n :: At(s1.slots, Live(n)) == At(s.slots, Live(n));
  }

  ghost predicate CanInit(s: State, t: Tid, c: nat) {
    t in s.threads && s.threads[t].op == Await(c) && s.threads[t].pool.Got?
  }

  lemma InitFacts(s: State, w: Witness, t: Tid, c: nat)
    requires Inv(s, w) && CanInit(s, t, c)
    ensures ThreadOK(s, t) && |At(s.pages, Raw(t))| == 1 && s.threads[t].heap.Running? && c < NUM_CLASSES
    ensures var p := At(s.pages, Raw(t))[0];
            && p in w.pages && w.pages[p] == Raw(t) && p !in s.slabs
            && At(s.slots, Local(p)) == [] && At(s.slots, Virgin(p)) == []
            && At(s.slots, Live(s.nextId)) == [] && At(s.slots, Draining(t)) == []
            && At(s.pages, Bin(t, c)) == []
            && StepAwait(s, t, c) == SetOp(SetPool(MovePage(SlabAlloc(Inited(s, p, c, s.threads[t].heap.id), p),
                                                            Raw(t), 0, Bin(t, c)), t, PIdle), t, Idle)
  {
    hide Inv, SlotCount, ClassSize;
    ThreadFacts(s, w, t);
    PageAt(s, w, Raw(t), 0);
    NoSlots(s, w, At(s.pages, Raw(t))[0]);
    FreshId(s, w);
    hide Shift, AllSlots;
  }

  ghost function InitWhere(s: State, w: map<Slot, SlotPlace>, p: Page, c: nat): map<Slot, SlotPlace> {
    Joined(w, Virgin(p), AllSlots(p, c))[AllSlots(p, c)[0] := Live(s.nextId)]
  }

  lemma InitSlots(s: State, w: Witness, t: Tid, c: nat)
    requires Inv(s, w) && CanInit(s, t, c) && At(s.pages, Raw(t)) != []
    ensures var v := InitWhere(s, w.slots, At(s.pages, Raw(t))[0], c);
            Tiled(StepAwait(s, t, c).slots, v) && SlotsOK(StepAwait(s, t, c), v)
  {
    hide Inv, SlotCount, ClassSize, Tiled, SlotsOK, AllSlots, ThreadOK;
    InitFacts(s, w, t, c);
    var p, id := At(s.pages, Raw(t))[0], s.threads[t].heap.id;
    var s0 := Inited(s, p, c, id);
    InitedSlots(s, w, p, c, id);
    assert At(s0.slots, Local(p)) == [] && At(s0.slots, Virgin(p)) == AllSlots(p, c);
    assert At(s0.slots, Draining(t)) == [] && At(s0.slots, Live(s0.nextId)) == [];
    TookSlots(s0, Joined(w.slots, Virgin(p), AllSlots(p, c)), t, p);
    TookFrame(s0, t, p);
    var s1 := SlabAlloc(s0, p);
    hide OnlyThread, SlabsSame, StepAwait;
    assert At(s1.slots, Draining(t)) == [];
    hide SlabAlloc;
    ReopSlots(s1, StepAwait(s, t, c), InitWhere(s, w.slots, p, c), t);
  }

  lemma InitShape(s: State, w: Witness, t: Tid, c: nat)
    requires Inv(s, w) && CanInit(s, t, c) && At(s.pages, Raw(t)) != []
    ensures var s', p := StepAwait(s, t, c), At(s.pages, Raw(t))[0];
            && PageMoveOK(s, s', t, Raw(t), 0, Bin(t, c)) && ThreadOK(s', t) && PlaceOK(s', p, Bin(t, c))
  {
    hide Inv, SlotCount, ClassSize, AllSlots, ThreadOK, PlaceOK;
    InitFacts(s, w, t, c);
    var s', p := StepAwait(s, t, c), At(s.pages, Raw(t))[0];
    var s0 := Inited(s, p, c, s.threads[t].heap.id);
    hide StepAwait;
    assert At(s0.slots, Live(s0.nextId)) == [];
    TookFrame(s0, t, p);
    var s1 := SlabAlloc(s0, p);
    assert s1.slabs == s0.slabs && s1.pages == s.pages && s1.threads == s.threads && s1.spans == s.spans
           && s1.pool == s.pool && s1.mapped == s.mapped && s1.nextHeap == s.nextHeap;
    assert forall u: Tid ::
        At(s0.slots, Draining(u)) == At(s.slots, Draining(u)) && At(s0.slots, Pushing(u)) == At(s.slots, Pushing(u));
    hide SlabAlloc, OnlyThread, Shift;
    InitSlabs(s, s1, s', p, c, s.threads[t].heap.id);
    hide SlabsSame;
    InitThread(s, s1, s', t, c);
    InitPlace(s', t, p, c);
    assert SmoothBut(s, t, Idle, p) by { InitSmooth(s, t, c, p); }
  }

  lemma InitPlace(s: State, t: Tid, p: Page, c: nat)
    requires t in s.threads && s.threads[t].heap.Running? && s.threads[t].op.Idle? && c < NUM_CLASSES
    requires p in s.slabs && s.slabs[p] == Header(c, s.threads[t].heap.id)
    ensures PlaceOK(s, p, Bin(t, c))
  {
  }

  lemma InitSmooth(s: State, t: Tid, c: nat, p: Page)
    requires CanInit(s, t, c) && ThreadOK(s, t)
    ensures SmoothBut(s, t, Idle, p)
  {
  }

  lemma InitThread(s: State, s1: State, s': State, t: Tid, c: nat)
    requires CanInit(s, t, c) && ThreadOK(s, t) && s1.pages == s.pages && s1.threads == s.threads && s1.spans == s.spans
    requires At(s1.slots, Draining(t)) == At(s.slots, Draining(t)) &&
             At(s1.slots, Pushing(t)) == At(s.slots, Pushing(t))
    requires |At(s.pages, Raw(t))| == 1 && At(s.pages, Bin(t, c)) == []
    requires s' == SetOp(SetPool(MovePage(s1, Raw(t), 0, Bin(t, c)), t, PIdle), t, Idle)
    ensures ThreadOK(s', t)
  {
    ShiftAt(s.pages, Raw(t), 0, Bin(t, c));
    hide Shift;
  }

  lemma InitSlabs(s: State, s1: State, s': State, p: Page, c: nat, id: nat)
    requires SlabsSame(Inited(s, p, c, id), s1, {p}) && s1.slabs == s'.slabs && s1.slots == s'.slots &&
             s1.slabs == Inited(s, p, c, id).slabs
    ensures SlabsSame(s, s', {p})
  {
    var s0 := Inited(s, p, c, id);
    forall q: Page | q !in {p} ensures Free(s', q) == Free(s, q) {
      assert Free(s', q) == Free(s1, q) && Free(s1, q) == Free(s0, q) && Free(s0, q) == Free(s, q);
    }
  }

  lemma InitOwners(s: State, s': State, w: map<Page, PagePlace>, t: Tid, p: Page, c: nat)
    requires OwnersOK(s, w) && IdsOK(s) && OnlyThread(s, s', t) && PagesOK(s, w)
    requires s.threads[t].heap.Running? && s'.threads[t].heap == s.threads[t].heap && s.threads[t].op.Await? &&
             s'.threads[t].op.Idle?
    requires s'.slabs == s.slabs[p := Header(c, s.threads[t].heap.id)] && s'.nextHeap == s.nextHeap
    ensures OwnersOK(s', w[p := Bin(t, c)]) && IdsOK(s')
  {
    hide PlaceOK;
    var w' := w[p := Bin(t, c)];
    forall u, q | u in s'.threads && Active(s'.threads[u]) && q in s'.slabs && q in w'
                  && s'.slabs[q].heapId == s'.threads[u].heap.id
      ensures OwnedBy(s', u, q, w'[q])
    {
      if q != p {
        assert OwnedBy(s, u, q, w[q]);
        if u != t { assert At(s'.pages, Hand(u)) == At(s.pages, Hand(u)); }
      }
    }
  }

  /** A fresh page becomes a slab, serves one slot and fills the empty bin. */
  lemma InitOK(s: State, w: Witness, t: Tid, c: nat)
    requires Inv(s, w) && CanInit(s, t, c)
    ensures |At(s.pages, Raw(t))| == 1 && At(s.pages, Bin(t, c)) == []
    ensures var p := At(s.pages, Raw(t))[0];
            Inv(StepAwait(s, t, c), w.(pages := w.pages[p := Bin(t, c)], slots := InitWhere(s, w.slots, p, c)))
  {
    hide SlotCount, ClassSize, Tiled, SlotsOK, ThreadOK, PlaceOK, PoolInv, PageLists, Pooled, PagesOK, OwnersOK,
         IdsOK, InitWhere, SpansOK, Free, Shift, SlabsSame;
    InitFacts(s, w, t, c);
    var s', p := StepAwait(s, t, c), At(s.pages, Raw(t))[0];
    hide StepAwait;
    InitSlots(s, w, t, c);
    InitShape(s, w, t, c);
    assert s'.slabs == s.slabs[p := Header(c, s.threads[t].heap.id)] && s'.threads[t].op.Idle?;
    hide SlabAlloc, AllSlots;
    assert OnlyThread(s, s', t) by { MoveOnlyThread(s, s', t, Raw(t), 0, Bin(t, c)); }
    hide OnlyThread;
    assert PagesOK(s', w.pages[p := Bin(t, c)]) by { MovePages(s, s', w, t, Raw(t), 0, Bin(t, c)); }
    InitOwners(s, s', w.pages, t, p, c);
    PooledMove(s.pool, s.pages, w.pages, Raw(t), 0, Bin(t, c));
    assert ThreadsOK(s') by { OtherThreads(s, s', t); }
    assert SpansOK(s', w.spans) by { SpansKept(s, s', w.spans); }
  }

  lemma MoveOnlyThread(s: State, s': State, t: Tid, a: PagePlace, i: nat, b: PagePlace)
    requires PageMoveOK(s, s', t, a, i, b)
    ensures OnlyThread(s, s', t)
  {
    hide SlabsSame, SmoothBut;
  }

  // ----- heap birth and death

  lemma NewHeapOK(s: State, w: Witness, t: Tid)
    requires Inv(s, w) && Enabled(s, t, NewHeap)
    ensures Inv(Next(s, t, NewHeap), w)
  {
    hide SlotCount, Tiled, ThreadOK, PoolInv, PageLists, Pooled, Apart, SlotOK;
    var s' := Next(s, t, NewHeap);
    assert OnlyThread(s, s', t);
    ThreadFacts(s, w, t);
    assert ThreadOK(s', t) by { NewHeapThread(s, t); }
    assert ThreadsOK(s') by { OtherThreads(s, s', t); }
    assert SpansOK(s', w.spans) by { SpansKept(s, s', w.spans); }
    assert SlotsOK(s', w.slots) by { hide PagesOK, ThreadsOK, OwnersOK; IdleSlots(s, s', w.slots, t); }
    assert PagesOK(s', w.pages) by {
      hide SlotsOK, ThreadsOK, OwnersOK, IdsOK;
      forall p | p in w.pages ensures PlaceOK(s', p, w.pages[p]) {
        assert PlaceOK(s, p, w.pages[p]);
        NewHeapPlace(s, t, p, w.pages[p]);
      }
    }
    assert OwnersOK(s', w.pages) by { hide SlotsOK, ThreadsOK, PlaceOK; }
  }

  lemma NewHeapThread(s: State, t: Tid)
    requires Enabled(s, t, NewHeap) && ThreadOK(s, t)
    ensures ThreadOK(Next(s, t, NewHeap), t)
  {
  }

  lemma NewHeapPlace(s: State, t: Tid, p: Page, a: PagePlace)
    requires Enabled(s, t, NewHeap) && PlaceOK(s, p, a)
    ensures PlaceOK(Next(s, t, NewHeap), p, a)
  {
    hide SlotCount;
    assert Free(Next(s, t, NewHeap), p) == Free(s, p);
  }

  lemma IdleSlots(s: State, s': State, w: map<Slot, SlotPlace>, t: Tid)
    requires SlotsOK(s, w) && s'.slots == s.slots && s'.slabs == s.slabs && s'.nextId == s.nextId
    requires t in s.threads && t in s'.threads && s'.threads == s.threads[t := s'.threads[t]] && !s.threads[t].op.Drain?
    ensures SlotsOK(s', w)
  {
    hide SlotCount;
    forall x | x in w ensures SlotOK(s', x, w[x]) { assert SlotOK(s, x, w[x]); }
  }

  ghost predicate CanEnd(s: State, t: Tid) {
    t in s.threads && s.threads[t].op == Drop(NUM_CLASSES) && s.threads[t].pool.PIdle?
  }

  /** When `drop` is through with all classes, no page is filed under the heap any more. */
  lemma NothingLeft(s: State, w: Witness, t: Tid, p: Page)
    requires Inv(s, w) && CanEnd(s, t) && p in w.pages
    ensures !w.pages[p].Mine(t)
  {
    hide Inv, Tiled, SlotCount, ThreadsOK, OwnersOK, IdsOK, OpOK;
    ThreadFacts(s, w, t);
    NoPageAt(s, w, Purging(t));
    NoPageAt(s, w, Raw(t));
    NoPageAt(s, w, Hand(t));
    InvPages(s, w);
    assert PlaceOK(s, p, w.pages[p]);
    hide HoldsOK, PagesOK;
    match w.pages[p] {
      case Bin(u, c) => if u == t { ClassGone(s, w, t, c); }
      case Full(u, c) => if u == t { ClassGone(s, w, t, c); }
      case Partial(u, c) => if u == t { ClassGone(s, w, t, c); }
      case _ =>
    }
  }

  lemma ClassGone(s: State, w: Witness, t: Tid, c: nat)
    requires Inv(s, w) && CanEnd(s, t) && c < NUM_CLASSES
    ensures forall q :: q in w.pages ==>
               w.pages[q] != Bin(t, c) && w.pages[q] != Full(t, c) && w.pages[q] != Partial(t, c)
  {
    hide Inv, HoldsOK;
    ThreadFacts(s, w, t);
    assert ClassEmpty(s.pages, t, c);
    NoPageAt(s, w, Bin(t, c));
    NoPageAt(s, w, Full(t, c));
    NoPageAt(s, w, Partial(t, c));
  }

  lemma DropEndOK(s: State, w: Witness, t: Tid)
    requires Inv(s, w) && CanEnd(s, t)
    ensures Inv(StepDrop(s, t, NUM_CLASSES), w)
  {
    hide SlotCount, Tiled, ThreadOK, PoolInv, PageLists, Pooled, Apart, SlotOK;
    var s' := StepDrop(s, t, NUM_CLASSES);
    assert OnlyThread(s, s', t);
    ThreadFacts(s, w, t);
    assert ThreadOK(s', t) by { DropEndThread(s, t); }
    assert ThreadsOK(s') by { OtherThreads(s, s', t); }
    assert SpansOK(s', w.spans) by { SpansKept(s, s', w.spans); }
    assert SlotsOK(s', w.slots) by { hide PagesOK, ThreadsOK, OwnersOK; IdleSlots(s, s', w.slots, t); }
    assert PagesOK(s', w.pages) by {
      hide SlotsOK, ThreadsOK, OwnersOK, IdsOK, PlaceOK, OnlyThread;
      forall p | p in w.pages ensures PlaceOK(s', p, w.pages[p]) {
        NothingLeft(s, w, t, p);
        DropEndPlace(s, t, p, w.pages[p]);
      }
    }
    assert OwnersOK(s', w.pages) by { hide SlotsOK, ThreadsOK, PlaceOK; DropEndOwners(s, w.pages, t); }
  }

  lemma DropEndThread(s: State, t: Tid)
    requires CanEnd(s, t) && ThreadOK(s, t)
    ensures ThreadOK(StepDrop(s, t, NUM_CLASSES), t)
  {
  }

  lemma DropEndPlace(s: State, t: Tid, p: Page, a: PagePlace)
    requires CanEnd(s, t) && PlaceOK(s, p, a) && !a.Mine(t)
    ensures PlaceOK(StepDrop(s, t, NUM_CLASSES), p, a)
  {
    hide SlotCount;
    assert Free(StepDrop(s, t, NUM_CLASSES), p) == Free(s, p);
  }

  lemma DropEndOwners(s: State, w: map<Page, PagePlace>, t: Tid)
    requires CanEnd(s, t) && OwnersOK(s, w)
    ensures OwnersOK(StepDrop(s, t, NUM_CLASSES), w)
  {
    var s' := StepDrop(s, t, NUM_CLASSES);
    forall u, q | u in s'.threads && Active(s'.threads[u]) && q in s'.slabs && q in w
                  && s'.slabs[q].heapId == s'.threads[u].heap.id
      ensures OwnedBy(s', u, q, w[q])
    {
      assert OwnedBy(s, u, q, w[q]);
    }
  }
}
