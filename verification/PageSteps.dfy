/**
 Steps that move a page between the lists of a heap, the abandoned stacks and the page cache.
 */
module PageSteps {
  import opened Places
  import opened Tiling
  import opened PoolSections
  import opened PoolInvariant
  import opened PoolSteps
  import opened SizeClasses
  import opened SlabGeometry
  import opened System
  import opened SystemInvariant
  import opened Frames
  import opened ControlSteps
  import opened SlotSteps

  /** A place outside the pool lock whose pages are in use. */
  predicate InUsePlace(a: PagePlace) {
    a.Out() && !a.Purging?
  }

  lemma ShiftPageLists(o: Pool, m: Lists, a: PagePlace, i: nat, b: PagePlace)
    requires InUsePlace(a) && InUsePlace(b) && i < |At(m, a)|
    ensures At(PageLists(o, m), a) == At(m, a)
    ensures PageLists(o, Shift(m, a, i, b)) == Shift(PageLists(o, m), a, i, b)
  {
    hide Range;
    assert At(PageLists(o, m), b) == At(m, b);
  }

  lemma PooledMove(o: Pool, m: Lists, w: map<Page, PagePlace>, a: PagePlace, i: nat, b: PagePlace)
    requires Pooled(o, m, w) && InUsePlace(a) && InUsePlace(b) && a != b && i < |At(m, a)|
    ensures At(m, a)[i] in w && w[At(m, a)[i]] == a
    ensures Pooled(o, Shift(m, a, i, b), w[At(m, a)[i] := b])
  {
    hide Tiled, PoolInv;
    ShiftPageLists(o, m, a, i, b);
    ShiftTiled(PageLists(o, m), w, a, i, b);
    PoolInvMove(o, w, At(m, a)[i], b);
  }

  /** The move of `p` and the new position of `t` keep the promises made to `t`'s other pages. */
  ghost predicate SmoothBut(s: State, t: Tid, op': Op, p: Page)
    requires t in s.threads
  {
    var op := s.threads[t].op;
    && (forall c :: Ready(op', c) ==> Ready(op, c) || At(s.pages, Bin(t, c)) == [])
    && (forall c :: ScanPos(op, c).Some? && ScanPos(op, c).value < |At(s.pages, Full(t, c))| ==>
                      At(s.pages, Full(t, c))[ScanPos(op, c).value] == p)
    && (At(s.pages, Hand(t)) == [] || At(s.pages, Hand(t)) == [p] || Discarding(op')
        || (!Discarding(op) && forall c :: Adopting(op, c) ==> Adopting(op', c)))
    && (Dying(op) ==> Dying(op')) && !Claiming(op')
  }

  lemma OnlyHand(s: State, w: Witness, t: Tid, q: Page)
    requires Inv(s, w) && q in w.pages && w.pages[q] == Hand(t)
    ensures q in At(s.pages, Hand(t))
  {
    hide PoolInv, ThreadsOK, SpansOK, OwnersOK, SlotsOK, PlaceOK;
    assert q in At(PageLists(s.pool, s.pages), Hand(t));
  }

  lemma MoveFits(s: State, s': State, w: Witness, t: Tid, q: Page, p: Page)
    requires Inv(s, w) && t in s.threads && t in s'.threads && q != p
    requires Free(s', q) == Free(s, q)
    requires q in s'.slabs ==> q in s.slabs && s'.slabs[q].sizeClass == s.slabs[q].sizeClass
    requires SmoothBut(s, t, s'.threads[t].op, p)
    requires q in w.pages && w.pages[q].Mine(t)
    ensures OpFits(s, s', t, q, w.pages[q])
  {
    hide Inv, Free;
    match w.pages[q]
    case Bin(_, c) => BinFacts(s, w, t, q, c);
    case Hand(_) =>
      HandFacts(s, w, t, q);
      OnlyHand(s, w, t, q);
    case _ =>
  }

  /** Everything a one-page move has to show. */
  ghost predicate PageMoveOK(s: State, s': State, t: Tid, a: PagePlace, i: nat, b: PagePlace) {
    && t in s.threads && t in s'.threads && i < |At(s.pages, a)| && a != b
    && InUsePlace(a) && InUsePlace(b) && !a.Foreign(t) && !b.Foreign(t)
    && s'.pages == Shift(s.pages, a, i, b) && s'.pool == s.pool && s'.spans == s.spans && s'.mapped == s.mapped
    && s'.nextHeap == s.nextHeap && s'.threads == s.threads[t := s'.threads[t]]
    && s'.threads[t].heap == s.threads[t].heap
    && (forall u: Tid :: u != t ==> At(s'.slots, Draining(u)) == At(s.slots, Draining(u)))
    && (forall u: Tid :: u != t ==> At(s'.slots, Pushing(u)) == At(s.slots, Pushing(u)))
    && SlabsSame(s, s', {At(s.pages, a)[i]})
    && SmoothBut(s, t, s'.threads[t].op, At(s.pages, a)[i])
  }

  predicate HeaderKept(s: State, s': State, p: Page) {
    p in s'.slabs ==> p in s.slabs && s'.slabs[p] == s.slabs[p]
  }

  /** A slab a running heap owns stays its own, unless it stops being a slab. */
  predicate KeepsOwner(s: State, s': State, t: Tid, a: PagePlace, b: PagePlace)
    requires t in s.threads && t in s'.threads
  {
    && (Active(s'.threads[t]) && a.Mine(t) && b.Slab() ==> b.Bin? || b.Full? || b.Partial?)
    && (Active(s'.threads[t]) && Claiming(s.threads[t].op) ==> a == Hand(t))
  }

  lemma MoveOwners(s: State, s': State, w: Witness, t: Tid, a: PagePlace, i: nat, b: PagePlace)
    requires Inv(s, w) && PageMoveOK(s, s', t, a, i, b) && OnlyThread(s, s', t)
    requires At(s.pages, a)[i] in w.pages && w.pages[At(s.pages, a)[i]] == a
    requires KeepsOwner(s, s', t, a, b) && (a == Hand(t) ==> i == 0)
    requires (At(s.pages, a)[i] in s'.slabs ==> b.Slab()) && HeaderKept(s, s', At(s.pages, a)[i])
    ensures OwnersOK(s', w.pages[At(s.pages, a)[i] := b])
  {
    hide PoolInv, Tiled, ThreadsOK, SpansOK, SlotsOK, PlaceOK, Free;
    var p := At(s.pages, a)[i];
    OwnersStep(s, s', w.pages, w.pages[p := b], t, {p});
  }

  lemma PageMove(s: State, s': State, w: Witness, w': Witness, t: Tid, a: PagePlace, i: nat, b: PagePlace)
    requires Inv(s, w) && PageMoveOK(s, s', t, a, i, b) && ThreadOK(s', t)
    requires w' == w.(pages := w.pages[At(s.pages, a)[i] := b], slots := w'.slots)
    requires Tiled(s'.slots, w'.slots) && SlotsOK(s', w'.slots)
    requires PlaceOK(s', At(s.pages, a)[i], b) && HeaderKept(s, s', At(s.pages, a)[i])
    requires KeepsOwner(s, s', t, a, b) && (a == Hand(t) ==> i == 0)
    ensures Inv(s', w')
  {
    hide PoolInv, ThreadOK, OpFits, PlaceOK, Apart, Tiled, SlabsSame, OwnedBy, Free, SmoothBut, SlotsOK, PageLists;
    var p := At(s.pages, a)[i];
    assert OnlyThread(s, s', t);
    hide OnlyThread;
    PooledMove(s.pool, s.pages, w.pages, a, i, b);
    hide Shift, Pooled;
    assert PagesOK(s', w'.pages) by {
      MovePages(s, s', w, t, a, i, b);
    }
    assert OwnersOK(s', w'.pages) by {
      assert p in s'.slabs ==> b.Slab() by { PlacedSlab(s', p, b); }
      MoveOwners(s, s', w, t, a, i, b);
    }
    assert ThreadsOK(s') by { OtherThreads(s, s', t); }
    assert IdsOK(s') by { MoveIds(s, s', t, p); }
  }

  lemma PlacedSlab(s: State, p: Page, a: PagePlace)
    requires PlaceOK(s, p, a)
    ensures p in s.slabs <==> a.Slab()
  {
  }

  lemma MoveIds(s: State, s': State, t: Tid, p: Page)
    requires IdsOK(s) && t in s.threads && t in s'.threads && SlabsSame(s, s', {p}) && s'.nextHeap == s.nextHeap
    requires p in s'.slabs ==> p in s.slabs && s'.slabs[p] == s.slabs[p]
    requires s'.threads == s.threads[t := s'.threads[t]] && s'.threads[t].heap == s.threads[t].heap
    ensures IdsOK(s')
  {
  }

  lemma MovePages(s: State, s': State, w: Witness, t: Tid, a: PagePlace, i: nat, b: PagePlace)
    requires Inv(s, w) && PageMoveOK(s, s', t, a, i, b) && OnlyThread(s, s', t)
    requires At(s.pages, a)[i] in w.pages && PlaceOK(s', At(s.pages, a)[i], b)
    ensures PagesOK(s', w.pages[At(s.pages, a)[i] := b])
  {
    hide PoolInv, ThreadOK, OpFits, PlaceOK, Tiled, OwnedBy, OnlyThread, Free, SmoothBut, SlotsOK, SlabsSame,
         ThreadsOK, SpansOK, Shift;
    var p := At(s.pages, a)[i];
    forall q | q in w.pages && q !in {p} && w.pages[q].Mine(t) ensures OpFits(s, s', t, q, w.pages[q]) {
      FreeSame(s, s', {p}, q);
      HeaderSame(s, s', {p}, q);
      MoveFits(s, s', w, t, q, p);
    }
    PagesStep(s, s', w.pages, w.pages[p := b], t, {p});
  }

  lemma HeaderSame(s: State, s': State, ps: set<Page>, q: Page)
    requires SlabsSame(s, s', ps) && q !in ps
    ensures q in s'.slabs ==> q in s.slabs && s'.slabs[q] == s.slabs[q]
  {
  }

  // ----- moves that leave slots and headers alone

  lemma PlainMove(s: State, s': State, w: Witness, t: Tid, a: PagePlace, i: nat, b: PagePlace)
    requires Inv(s, w) && t in s.threads && t in s'.threads && i < |At(s.pages, a)| && a != b
    requires s' == s.(pages := Shift(s.pages, a, i, b), threads := s.threads[t := s'.threads[t]])
    requires InUsePlace(a) && InUsePlace(b) && !a.Foreign(t) && !b.Foreign(t)
    requires s'.threads[t].heap == s.threads[t].heap
    requires SmoothBut(s, t, s'.threads[t].op, At(s.pages, a)[i])
    requires ThreadOK(s', t) && PlaceOK(s', At(s.pages, a)[i], b) && At(s.slots, Draining(t)) == []
    requires KeepsOwner(s, s', t, a, b) && (a == Hand(t) ==> i == 0)
    ensures Inv(s', w.(pages := w.pages[At(s.pages, a)[i] := b]))
  {
    hide PoolInv, ThreadOK, OpFits, PlaceOK, Apart, Tiled, OwnedBy, SmoothBut, PageLists, ThreadsOK, SpansOK, SlotOK;
    assert OnlyThread(s, s', t);
    NobodyAt(s.slots, w.slots, Draining(t));
    SlotsStep(s, s', w.slots, w.slots, t, {});
    hide SlotsOK, OnlyThread;
    PageMove(s, s', w, w.(pages := w.pages[At(s.pages, a)[i] := b]), t, a, i, b);
  }

  /** `retire_active`. */
  lemma RetireOK(s: State, w: Witness, t: Tid, c: nat)
    requires Inv(s, w) && t in s.threads && s.threads[t].op == Retry(c)
    requires At(s.pages, Bin(t, c)) != [] && Free(s, At(s.pages, Bin(t, c))[0]) == 0
    ensures Inv(SetOp(MovePage(s, Bin(t, c), 0, Full(t, c)), t, Partials(c)),
                w.(pages := w.pages[At(s.pages, Bin(t, c))[0] := Full(t, c)]))
  {
    hide Inv, SlotCount, ClassSize;
    ThreadFacts(s, w, t);
    PageAt(s, w, Bin(t, c), 0);
    var s' := SetOp(MovePage(s, Bin(t, c), 0, Full(t, c)), t, Partials(c));
    assert PlaceOK(s', At(s.pages, Bin(t, c))[0], Full(t, c));
    RetireThread(s, t, c);
    hide ThreadOK, PlaceOK, Shift, SmoothBut;
    PlainMove(s, s', w, t, Bin(t, c), 0, Full(t, c));
  }

  lemma RetireThread(s: State, t: Tid, c: nat)
    requires t in s.threads && ThreadOK(s, t) && s.threads[t].op == Retry(c) && At(s.pages, Bin(t, c)) != []
    ensures ThreadOK(SetOp(MovePage(s, Bin(t, c), 0, Full(t, c)), t, Partials(c)), t)
    ensures SmoothBut(s, t, Partials(c), At(s.pages, Bin(t, c))[0]) && At(s.slots, Draining(t)) == []
  {
    ShiftAt(s.pages, Bin(t, c), 0, Full(t, c));
    hide Shift;
  }

  /** `try_partial`: the bin was empty, and what it gets has a free slot. */
  lemma PartialsHitOK(s: State, w: Witness, t: Tid, c: nat)
    requires Inv(s, w) && t in s.threads && s.threads[t].op == Partials(c) && At(s.pages, Partial(t, c)) != []
    ensures At(s.pages, Bin(t, c)) == []
    ensures Inv(SetOp(MovePage(s, Partial(t, c), 0, Bin(t, c)), t, Alloc(c, true)),
                w.(pages := w.pages[At(s.pages, Partial(t, c))[0] := Bin(t, c)]))
  {
    hide Inv, SlotCount, ClassSize;
    ThreadFacts(s, w, t);
    PageAt(s, w, Partial(t, c), 0);
    PlainMove(s, SetOp(MovePage(s, Partial(t, c), 0, Bin(t, c)), t, Alloc(c, true)), w, t, Partial(t, c), 0, Bin(t, c));
  }

  lemma ScanMoveOK(s: State, w: Witness, t: Tid, c: nat, k: nat)
    requires Inv(s, w) && t in s.threads && s.threads[t].op == ScanJudge(c, k) && k < |At(s.pages, Full(t, c))|
    requires var p := At(s.pages, Full(t, c))[k]; p in s.slabs && Free(s, p) > 0 && !FullyFree(s, p)
    ensures var to := if At(s.pages, Bin(t, c)) == [] then Bin(t, c) else Partial(t, c);
            Inv(StepScanJudge(s, t, c, k), w.(pages := w.pages[At(s.pages, Full(t, c))[k] := to]))
  {
    hide Inv, SlotCount, ClassSize;
    ThreadFacts(s, w, t);
    PageAt(s, w, Full(t, c), k);
    FreeBoundInv(s, w, At(s.pages, Full(t, c))[k]);
    var to := if At(s.pages, Bin(t, c)) == [] then Bin(t, c) else Partial(t, c);
    var s' := StepScanJudge(s, t, c, k);
    assert s' == SetOp(MovePage(s, Full(t, c), k, to), t, Scan(c, k));
    assert PlaceOK(s', At(s.pages, Full(t, c))[k], to);
    ScanMoveThread(s, t, c, k);
    hide ThreadOK, PlaceOK, Shift, SmoothBut, StepScanJudge;
    PlainMove(s, s', w, t, Full(t, c), k, to);
  }

  lemma ScanMoveThread(s: State, t: Tid, c: nat, k: nat)
    requires t in s.threads && ThreadOK(s, t) && s.threads[t].op == ScanJudge(c, k) && k < |At(s.pages, Full(t, c))|
    ensures var to := if At(s.pages, Bin(t, c)) == [] then Bin(t, c) else Partial(t, c);
            ThreadOK(SetOp(MovePage(s, Full(t, c), k, to), t, Scan(c, k)), t)
    ensures SmoothBut(s, t, Scan(c, k), At(s.pages, Full(t, c))[k]) && At(s.slots, Draining(t)) == []
  {
    ShiftAt(s.pages, Full(t, c), k, if At(s.pages, Bin(t, c)) == [] then Bin(t, c) else Partial(t, c));
    hide Shift;
  }

  /** An adopted slab joins the partial or the full queue. */
  lemma AdoptQueueOK(s: State, w: Witness, t: Tid, c: nat, got: bool)
    requires Inv(s, w) && t in s.threads && s.threads[t].op == AdoptJudge(c, got) && At(s.pages, Hand(t)) != []
    requires var p := At(s.pages, Hand(t))[0]; p in s.slabs && !FullyFree(s, p) && (got || Free(s, p) == 0)
    ensures var p := At(s.pages, Hand(t))[0];
            Inv(StepAdoptJudge(s, t, c, got),
                w.(pages := w.pages[p := if Free(s, p) > 0 then Partial(t, c) else Full(t, c)]))
  {
    hide Inv, SlotCount, ClassSize;
    ThreadFacts(s, w, t);
    var p := At(s.pages, Hand(t))[0];
    PageAt(s, w, Hand(t), 0);
    ClaimedFacts(s, w, t, p);
    FreeBoundInv(s, w, p);
    var b := if Free(s, p) > 0 then Partial(t, c) else Full(t, c);
    var s' := StepAdoptJudge(s, t, c, got);
    assert s' == SetOp(MovePage(s, Hand(t), 0, b), t, Adopt(c, got));
    assert PlaceOK(s', p, b);
    AdoptQueueThread(s, t, c, got, b);
    AdoptSmooth(s, t, c, got);
    hide ThreadOK, PlaceOK, Shift, SmoothBut, StepAdoptJudge;
    PlainMove(s, s', w, t, Hand(t), 0, b);
  }

  lemma AdoptQueueThread(s: State, t: Tid, c: nat, got: bool, b: PagePlace)
    requires t in s.threads && ThreadOK(s, t) && s.threads[t].op == AdoptJudge(c, got) && At(s.pages, Hand(t)) != []
    requires (b == Partial(t, c) && got) || b == Full(t, c)
    ensures ThreadOK(SetOp(MovePage(s, Hand(t), 0, b), t, Adopt(c, got)), t)
  {
    ShiftAt(s.pages, Hand(t), 0, b);
    hide Shift;
  }

  lemma AdoptSmooth(s: State, t: Tid, c: nat, got: bool)
    requires t in s.threads && ThreadOK(s, t) && s.threads[t].op == AdoptJudge(c, got) && At(s.pages, Hand(t)) != []
    ensures SmoothBut(s, t, Adopt(c, got), At(s.pages, Hand(t))[0]) && At(s.slots, Draining(t)) == []
  {
  }

  lemma DropTakeOK(s: State, w: Witness, t: Tid, c: nat, a: PagePlace)
    requires Inv(s, w) && t in s.threads && s.threads[t].op == Drop(c) && s.threads[t].pool.PIdle? && c < NUM_CLASSES
    requires a in {Bin(t, c), Full(t, c), Partial(t, c)} && At(s.pages, a) != []
    ensures Inv(SetOp(MovePage(s, a, 0, Hand(t)), t, DropDrain(c)), w.(pages := w.pages[At(s.pages, a)[0] := Hand(t)]))
  {
    hide Inv, SlotCount, ClassSize;
    ThreadFacts(s, w, t);
    PageAt(s, w, a, 0);
    var s' := SetOp(MovePage(s, a, 0, Hand(t)), t, DropDrain(c));
    DropTakeThread(s, t, c, a);
    TakeSmooth(s, t, c, At(s.pages, a)[0]);
    hide ThreadOK, Shift, SmoothBut;
    PlainMove(s, s', w, t, a, 0, Hand(t));
  }

  lemma TakeSmooth(s: State, t: Tid, c: nat, p: Page)
    requires t in s.threads && ThreadOK(s, t) && s.threads[t].op == Drop(c)
    ensures SmoothBut(s, t, DropDrain(c), p) && At(s.slots, Draining(t)) == []
  {
  }

  lemma DropTakeThread(s: State, t: Tid, c: nat, a: PagePlace)
    requires t in s.threads && ThreadOK(s, t) && s.threads[t].op == Drop(c) && s.threads[t].pool.PIdle? &&
             c < NUM_CLASSES
    requires a in {Bin(t, c), Full(t, c), Partial(t, c)} && At(s.pages, a) != []
    ensures ThreadOK(SetOp(MovePage(s, a, 0, Hand(t)), t, DropDrain(c)), t)
  {
    ShiftAt(s.pages, a, 0, Hand(t));
    EmptyBelowFrame(s.pages, Shift(s.pages, a, 0, Hand(t)), t, c);
    hide Shift, EmptyBelow;
  }

  lemma EmptyBelowFrame(m: Lists, m': Lists, t: Tid, c: nat)
    requires EmptyBelow(m, t, c)
    requires forall d: nat :: d < c ==> At(m', Bin(t, d)) == At(m, Bin(t, d)) && At(m', Full(t, d)) == At(m, Full(t, d))
                                        && At(m', Partial(t, d)) == At(m, Partial(t, d))
    ensures EmptyBelow(m', t, c)
  {
    forall d | 0 <= d < c ensures ClassEmpty(m', t, d) {
      assert ClassEmpty(m, t, d);
    }
  }

  /** `abandon_slab`. */
  lemma AbandonOK(s: State, w: Witness, t: Tid, c: nat)
    requires Inv(s, w) && t in s.threads && s.threads[t].op == Abandon(c)
    ensures At(s.pages, Hand(t)) != [] && At(s.pages, Hand(t))[0] in s.slabs
    ensures var p := At(s.pages, Hand(t))[0];
            Inv(StepAbandon(s, t, c), w.(pages := w.pages[p := Abandoned(s.slabs[p].sizeClass)]))
  {
    hide Inv, SlotCount, ClassSize;
    ThreadFacts(s, w, t);
    PageAt(s, w, Hand(t), 0);
    var to := Abandoned(s.slabs[At(s.pages, Hand(t))[0]].sizeClass);
    var s' := StepAbandon(s, t, c);
    assert s' == SetOp(MovePage(s, Hand(t), 0, to), t, Drop(c));
    assert PlaceOK(s', At(s.pages, Hand(t))[0], to);
    AbandonThread(s, t, c, to);
    DropSmooth(s, t, c);
    hide ThreadOK, PlaceOK, Shift, SmoothBut, StepAbandon;
    PlainMove(s, s', w, t, Hand(t), 0, to);
  }

  lemma DropSmooth(s: State, t: Tid, c: nat)
    requires t in s.threads && ThreadOK(s, t) && s.threads[t].op in {DropJudge(c), Abandon(c)} &&
             At(s.pages, Hand(t)) != []
    ensures SmoothBut(s, t, Drop(c), At(s.pages, Hand(t))[0]) && At(s.slots, Draining(t)) == []
  {
  }

  lemma AbandonThread(s: State, t: Tid, c: nat, to: PagePlace)
    requires t in s.threads && ThreadOK(s, t) && s.threads[t].op == Abandon(c) && At(s.pages, Hand(t)) != [] &&
             to.Abandoned?
    ensures ThreadOK(SetOp(MovePage(s, Hand(t), 0, to), t, Drop(c)), t)
  {
    ShiftAt(s.pages, Hand(t), 0, to);
    EmptyBelowFrame(s.pages, Shift(s.pages, Hand(t), 0, to), t, c);
    hide Shift, EmptyBelow;
  }

  /** While a thread is inside the pool no scan, claim or drain of its heap is half done. */
  lemma PoolSmooth(s: State, t: Tid, p: Page)
    requires t in s.threads && PoolOpOK(s.threads[t]) && !s.threads[t].pool.PIdle?
    ensures SmoothBut(s, t, s.threads[t].op, p) && !s.threads[t].op.Drain? && !s.threads[t].op.Push?
    ensures !Claiming(s.threads[t].op) && !Discarding(s.threads[t].op)
    ensures forall c :: ScanPos(s.threads[t].op, c).None?
  {
  }

  /** The compare-exchange of `cache_slab`. */
  lemma CachePushOK(s: State, w: Witness, t: Tid)
    requires Inv(s, w) && t in s.threads && s.threads[t].pool.CachePush?
    ensures At(s.pages, Raw(t)) != []
    ensures Inv(StepPool(s, t), w.(pages := w.pages[At(s.pages, Raw(t))[0] := Cached]))
  {
    hide Inv, SlotCount, ClassSize;
    ThreadFacts(s, w, t);
    PageAt(s, w, Raw(t), 0);
    ShiftAt(s.pages, Raw(t), 0, Cached);
    hide Shift;
    var s' := StepPool(s, t);
    OpKept(s, s', t);
    PoolSmooth(s, t, At(s.pages, Raw(t))[0]);
    hide OpOK, SmoothBut, PoolInv;
    PlainMove(s, s', w, t, Raw(t), 0, Cached);
  }

  /** The pop of `uncache_slab`. */
  lemma UncacheOK(s: State, w: Witness, t: Tid, c: nat)
    requires Inv(s, w) && t in s.threads && s.threads[t].op == Fresh(c) && At(s.pages, Cached) != []
    ensures Inv(StepFresh(s, t, c), w.(pages := w.pages[At(s.pages, Cached)[0] := Raw(t)]))
  {
    hide Inv, SlotCount, ClassSize;
    ThreadFacts(s, w, t);
    PageAt(s, w, Cached, 0);
    var s' := StepFresh(s, t, c);
    assert s' == SetOp(SetPool(MovePage(s, Cached, 0, Raw(t)), t, UncacheCount), t, Await(c));
    assert PlaceOK(s', At(s.pages, Cached)[0], Raw(t));
    UncacheThread(s, t, c);
    FreshSmooth(s, t, c);
    hide ThreadOK, PlaceOK, Shift, SmoothBut, StepFresh;
    PlainMove(s, s', w, t, Cached, 0, Raw(t));
  }

  lemma FreshSmooth(s: State, t: Tid, c: nat)
    requires t in s.threads && ThreadOK(s, t) && s.threads[t].op == Fresh(c) && At(s.pages, Cached) != []
    ensures SmoothBut(s, t, Await(c), At(s.pages, Cached)[0]) && At(s.slots, Draining(t)) == []
  {
  }

  lemma UncacheThread(s: State, t: Tid, c: nat)
    requires t in s.threads && ThreadOK(s, t) && s.threads[t].op == Fresh(c) && At(s.pages, Cached) != []
    ensures ThreadOK(SetOp(SetPool(MovePage(s, Cached, 0, Raw(t)), t, UncacheCount), t, Await(c)), t)
  {
    ShiftAt(s.pages, Cached, 0, Raw(t));
    hide Shift;
  }

  // ----- free counts

  ghost function PageSlots(p: Page, n: nat): set<Slot> {
    set i | 0 <= i < n :: Slot(p, i)
  }

  lemma {:induction false} PageSlotsSize(p: Page, n: nat)
    ensures |PageSlots(p, n)| == n
  {
    if n > 0 {
      PageSlotsSize(p, n - 1);
      assert PageSlots(p, n) == PageSlots(p, n - 1) + {Slot(p, n - 1)};
    }
  }

  /**
   `free_count` never exceeds `slot_count`; when it reaches it, every slot of the slab is on its
   local list or in its bump region, so none is live and no thread is inside a free of one.
   */
  lemma FreeBound(s: State, w: map<Slot, SlotPlace>, p: Page)
    requires Tiled(s.slots, w) && SlotsOK(s, w) && p in s.slabs
    ensures Free(s, p) <= SlotCount(s.slabs[p].sizeClass)
    ensures FullyFree(s, p) ==> forall x :: x in w && x.page == p ==> w[x] == Local(p) || w[x] == Virgin(p)
  {
    hide SlotCount;
    var n := SlotCount(s.slabs[p].sizeClass);
    var dom := PageSlots(p, n);
    PageSlotsSize(p, n);
    forall x | x in At(s.slots, Local(p)) || x in At(s.slots, Virgin(p)) ensures x in dom {
      assert x in w && SlotOK(s, x, w[x]);
      assert x == Slot(p, x.idx);
    }
    TwoListsCover(s.slots, w, Local(p), Virgin(p), dom);
    forall x | x in w && x.page == p ensures x in dom {
      assert SlotOK(s, x, w[x]);
      assert x == Slot(p, x.idx);
    }
  }

  lemma FreeBoundInv(s: State, w: Witness, p: Page)
    requires Inv(s, w) && p in s.slabs
    ensures Free(s, p) <= SlotCount(s.slabs[p].sizeClass)
  {
    hide Tiled, PoolInv, ThreadsOK, SpansOK, OwnersOK, SlotsOK, PagesOK;
    FreeBound(s, w.slots, p);
  }

  /** The slab at the head of the chain carries the adopting heap's id. */
  lemma ClaimedFacts(s: State, w: Witness, t: Tid, p: Page)
    requires Inv(s, w) && t in s.threads && Claiming(s.threads[t].op)
    requires At(s.pages, Hand(t)) != [] && At(s.pages, Hand(t))[0] == p
    ensures p in s.slabs && s.threads[t].heap.Running? && s.slabs[p].heapId == s.threads[t].heap.id
  {
    hide Inv, SlotCount, ClassSize;
    PageAt(s, w, Hand(t), 0);
  }
}
