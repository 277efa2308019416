/**
 Steps of a thread inside pool.rs.
 */
module PoolOpSteps {
  import opened Places
  import opened Tiling
  import opened PoolSections
  import opened PoolInvariant
  import opened PoolSteps
  import opened SizeClasses
  import opened SlabGeometry
  import opened System
  import opened SystemInvariant
  import opened Frames
  import opened ControlSteps
  import opened SlotSteps
  import opened PageSteps

  /** A step that leaves heaps, slabs and slots alone. */
  ghost predicate InPoolOnly(s: State, s': State, t: Tid) {
    && t in s.threads && t in s'.threads && !s.threads[t].pool.PIdle?
    && s' == s.(pool := s'.pool, pages := s'.pages, spans := s'.spans, mapped := s'.mapped, maps := s'.maps,
                threads := s.threads[t := s.threads[t].(pool := s'.threads[t].pool)])
    && SameQueues(s.pages, s'.pages, t) && At(s'.pages, Hand(t)) == At(s.pages, Hand(t))
    && (forall a: PagePlace :: a.Foreign(t) ==> At(s'.pages, a) == At(s.pages, a))
    && (forall u: Tid :: u != t ==> At(s'.spans, Flight(u)) == At(s.spans, Flight(u)))
  }

  /** The pages a pool step moves are no slabs, before and after. */
  ghost predicate RawPages(s: State, w': map<Page, PagePlace>, t: Tid, ps: set<Page>) {
    forall q :: q in ps ==> q !in s.slabs
                            && (q in w' ==> !w'[q].Slab() && !w'[q].Foreign(t))
  }

  lemma PoolStepPages(s: State, s': State, w: Witness, w': map<Page, PagePlace>, t: Tid, ps: set<Page>)
    requires Inv(s, w) && InPoolOnly(s, s', t) && OnlyThread(s, s', t) && PoolOpOK(s.threads[t])
    requires PlacesSame(w.pages, w', ps) && RawPages(s, w', t, ps)
    ensures PagesOK(s', w')
  {
    hide PoolInv, SpansOK, SlotsOK, IdsOK, Tiled, SlotCount, ThreadsOK, OwnersOK, OnlyThread;
    PoolSmooth(s, t, 0);
    hide SmoothBut;
    assert SlabsSame(s, s', ps);
    forall q | q in w.pages && q !in ps && w.pages[q].Mine(t) ensures OpFits(s, s', t, q, w.pages[q]) {
      PoolFits(s, s', w, t, q);
    }
    PagesStep(s, s', w.pages, w', t, ps);
  }

  lemma PoolFits(s: State, s': State, w: Witness, t: Tid, q: Page)
    requires Inv(s, w) && InPoolOnly(s, s', t) && q in w.pages && w.pages[q].Mine(t)
    requires forall c :: ScanPos(s.threads[t].op, c).None?
    ensures OpFits(s, s', t, q, w.pages[q])
  {
    hide PoolInv, SpansOK, SlotsOK, IdsOK, Tiled, SlotCount, ThreadsOK, OwnersOK;
    assert PlaceOK(s, q, w.pages[q]);
    assert Free(s', q) == Free(s, q);
  }

  lemma PoolStepOwners(s: State, s': State, w: Witness, w': map<Page, PagePlace>, t: Tid, ps: set<Page>)
    requires Inv(s, w) && InPoolOnly(s, s', t) && OnlyThread(s, s', t)
    requires PlacesSame(w.pages, w', ps) && RawPages(s, w', t, ps)
    ensures OwnersOK(s', w')
  {
    hide PoolInv, SpansOK, SlotsOK, IdsOK, Tiled, SlotCount, ThreadsOK, PlaceOK;
    forall u, q | u in s'.threads && Active(s'.threads[u]) && q in s'.slabs && q in w'
                  && s'.slabs[q].heapId == s'.threads[u].heap.id
      ensures OwnedBy(s', u, q, w'[q])
    {
      assert q !in ps && OwnedBy(s, u, q, w.pages[q]);
      assert At(s'.pages, Hand(u)) == At(s.pages, Hand(u));
    }
  }

  lemma PoolStep(s: State, s': State, w: Witness, w': Witness, t: Tid, ps: set<Page>)
    requires Inv(s, w) && InPoolOnly(s, s', t) && ThreadOK(s, t) && HoldsOK(s', t) && PoolOpOK(s'.threads[t])
    requires w'.slots == w.slots && Pooled(s'.pool, s'.pages, w'.pages) && SpansOK(s', w'.spans)
    requires PlacesSame(w.pages, w'.pages, ps) && RawPages(s, w'.pages, t, ps)
    ensures Inv(s', w')
  {
    hide Tiled, PoolInv, PlaceOK, OwnersOK, SlotCount, Apart, PageLists, PlacesSame, RawPages, Pooled, SpansOK,
         OpOK, HoldsOK;
    assert OnlyThread(s, s', t);
    assert ThreadOK(s', t) by { OpKept(s, s', t); }
    assert PagesOK(s', w'.pages) by { PoolStepPages(s, s', w, w'.pages, t, ps); }
    assert OwnersOK(s', w'.pages) by { PoolStepOwners(s, s', w, w'.pages, t, ps); }
    assert ThreadsOK(s') by { hide ThreadOK; OtherThreads(s, s', t); }
    assert SlotsOK(s', w'.slots) by {
      hide PagesOK, ThreadsOK, SlotOK;
      PoolSmooth(s, t, 0);
      assert forall x :: x in w.slots && w.slots[x] == Draining(t) ==> false by {
        assert At(s.slots, Draining(t)) == [] by { DrainingEmpty(s, t); }
        NobodyAt(s.slots, w.slots, Draining(t));
      }
      SlotsStep(s, s', w.slots, w.slots, t, {});
    }
  }

  /** A list a thread uses only inside the pool changes; its heap's lists do not. */
  lemma OwnListChanged(m: Lists, t: Tid, a: PagePlace, q: seq<Page>)
    requires a == Raw(t) || a == Purging(t)
    ensures SameQueues(m, m[a := q], t) && At(m[a := q], Hand(t)) == At(m, Hand(t)) && At(m[a := q], a) == q
    ensures forall b: PagePlace :: b.Foreign(t) ==> At(m[a := q], b) == At(m, b)
    ensures forall b: PagePlace :: b != a ==> At(m[a := q], b) == At(m, b)
  {
  }

  lemma DrainingEmpty(s: State, t: Tid)
    requires t in s.threads && HoldsOK(s, t) && !s.threads[t].op.Drain?
    ensures At(s.slots, Draining(t)) == []
  {
  }

  lemma PoolFacts(s: State, w: Witness)
    requires Inv(s, w)
    ensures Pooled(s.pool, s.pages, w.pages) && SpansOK(s, w.spans)
  {
  }

  /** A page the pool holds carries no slab. */
  lemma NoSlab(s: State, w: Witness, p: Page)
    requires Inv(s, w) && p in w.pages && !w.pages[p].Slab()
    ensures p !in s.slabs
  {
    hide PoolInv, SpansOK, SlotsOK, IdsOK, Tiled, SlotCount, ThreadsOK, OwnersOK;
    assert PlaceOK(s, p, w.pages[p]);
  }

  // ----- alloc_slab

  lemma AllocKeeps(o: Pool)
    requires AllocSection(o).AllocGot?
    ensures AllocSection(o).pool.segs == o.segs && |AllocSection(o).pool.dirty| <= |o.dirty|
  {
    hide FindSegment;
  }

  lemma SpansKept(s: State, s': State, w: map<nat, SpanPlace>)
    requires SpansOK(s, w) && s'.spans == s.spans && s'.pool.segs == s.pool.segs && s'.mapped == s.mapped
    requires s'.threads.Keys == s.threads.Keys
    ensures SpansOK(s', w)
  {
    hide Tiled, Apart;
  }

  lemma AllocGotOK(s: State, w: Witness, t: Tid)
    requires Inv(s, w) && t in s.threads && s.threads[t].pool.AllocEnter? && AllocSection(s.pool).AllocGot?
    ensures Inv(StepAllocEnter(s, t), w.(pages := w.pages[AllocSection(s.pool).page := Raw(t)]))
  {
    hide Inv, Tiled, PoolInv, PlacesSame, AllocSection, SpansOK;
    var AllocGot(o, p) := AllocSection(s.pool);
    var s' := StepAllocEnter(s, t);
    var w' := w.(pages := w.pages[p := Raw(t)]);
    ThreadFacts(s, w, t);
    PoolFacts(s, w);
    AllocSectionOK(s.pool, s.pages, w.pages, t);
    AllocKeeps(s.pool);
    SpansKept(s, s', w.spans);
    NoSlab(s, w, p);
    assert PlacesSame(w.pages, w'.pages, {p}) by { OneMoved(w.pages, p, Raw(t)); }
    AllocShape(s, t);
    hide Pooled, ThreadOK, HoldsOK, InPoolOnly;
    PoolStep(s, s', w, w', t, {p});
  }

  lemma AllocShape(s: State, t: Tid)
    requires t in s.threads && ThreadOK(s, t) && s.threads[t].pool.AllocEnter? && AllocSection(s.pool).AllocGot?
    ensures InPoolOnly(s, StepAllocEnter(s, t), t) && HoldsOK(StepAllocEnter(s, t), t) &&
            PoolOpOK(StepAllocEnter(s, t).threads[t])
  {
    hide AllocSection, OpOK;
    OwnListChanged(s.pages, t, Raw(t), [AllocSection(s.pool).page] + At(s.pages, Raw(t)));
    hide SameQueues;
  }

  lemma OneMoved(w: map<Page, PagePlace>, p: Page, a: PagePlace)
    requires p in w
    ensures PlacesSame(w, w[p := a], {p})
  {
  }

  lemma AllocNeverPanics(s: State, w: Witness, t: Tid)
    requires Inv(s, w) && t in s.threads && s.threads[t].pool.AllocEnter?
    ensures !AllocSection(s.pool).AllocPanic?
  {
    hide Inv, Tiled, PoolInv;
    PoolFacts(s, w);
    AllocSectionOK(s.pool, s.pages, w.pages, t);
  }

  // ----- dealloc_slab

  /** What `dealloc_slab` does to the thread and its lists, whatever becomes of the segment. */
  lemma DeallocShape(s: State, t: Tid)
    requires t in s.threads && ThreadOK(s, t) && s.threads[t].pool.DeallocEnter? && At(s.pages, Raw(t)) != []
    requires !DeallocSection(s.pool, At(s.pages, Raw(t))[0]).DeallocPanic?
    ensures InPoolOnly(s, StepDealloc(s, t), t) && HoldsOK(StepDealloc(s, t), t) &&
            PoolOpOK(StepDealloc(s, t).threads[t])
  {
    hide DeallocSection, OpOK;
    OwnListChanged(s.pages, t, Raw(t), At(s.pages, Raw(t))[1..]);
    hide SameQueues;
  }

  lemma DeallocKeptOK(s: State, w: Witness, t: Tid)
    requires Inv(s, w) && t in s.threads && s.threads[t].pool.DeallocEnter? && At(s.pages, Raw(t)) != []
    requires DeallocSection(s.pool, At(s.pages, Raw(t))[0]).DeallocKept?
    ensures Inv(StepDealloc(s, t), w.(pages := w.pages[At(s.pages, Raw(t))[0] := Dirty]))
  {
    hide Inv, Tiled, PoolInv, PlacesSame, DeallocSection, SpansOK, Returned;
    var p := At(s.pages, Raw(t))[0];
    var s' := StepDealloc(s, t);
    var w' := w.(pages := w.pages[p := Dirty]);
    ThreadFacts(s, w, t);
    PoolFacts(s, w);
    ReturnedOK(s.pool, s.pages, w.pages, t);
    ReturnedSection(s.pool, p, w'.pages);
    SpansKept(s, s', w.spans);
    NoSlab(s, w, p);
    assert PlacesSame(w.pages, w'.pages, {p}) by { OneMoved(w.pages, p, Dirty); }
    DeallocShape(s, t);
    hide Pooled, ThreadOK, HoldsOK, InPoolOnly;
    PoolStep(s, s', w, w', t, {p});
  }

  lemma SwapRemoveMembers(segs: seq<nat>, i: nat)
    requires i < |segs| && NoDup(segs)
    ensures var segs' := segs[i := segs[|segs| - 1]][..|segs| - 1];
            NoDup(segs') && forall b :: b in segs' <==> b in segs && b != segs[i]
  {
    var last := |segs| - 1;
    var segs' := segs[i := segs[last]][..last];
    forall b | b in segs && b != segs[i] ensures b in segs' {
      var j :| 0 <= j < |segs| && segs[j] == b;
      assert segs'[if j == last then i else j] == b;
    }
  }

  lemma SpanListsAt(s: State, t: Tid, q: seq<nat>, segs: seq<nat>)
    ensures At(SpanLists(s), Registered) == s.pool.segs && At(SpanLists(s), Flight(t)) == At(s.spans, Flight(t))
    ensures var m := s.spans[Flight(t) := q][Registered := segs];
            && At(m, Registered) == segs && At(m, Flight(t)) == q
            && forall a: SpanPlace :: a != Registered && a != Flight(t) ==> At(m, a) == At(SpanLists(s), a)
  {
  }

  /** A segment leaves the table for the hands of the thread that will unmap it. */
  lemma ReleasedSpans(s: State, s': State, w: map<nat, SpanPlace>, t: Tid, i: nat)
    requires SpansOK(s, w) && t in s.threads && i < |s.pool.segs| && At(s.spans, Flight(t)) == []
    requires s'.spans == s.spans[Flight(t) := [s.pool.segs[i]]]
    requires s'.pool.segs == s.pool.segs[i := s.pool.segs[|s.pool.segs| - 1]][..|s.pool.segs| - 1]
    requires s'.mapped == s.mapped && s'.threads.Keys == s.threads.Keys
    ensures SpansOK(s', w[s.pool.segs[i] := Flight(t)])
  {
    var segs, base := s.pool.segs, s.pool.segs[i];
    SpanListsAt(s, t, [base], s'.pool.segs);
    assert NoDup(At(SpanLists(s), Registered));
    FoundAt(SpanLists(s), w, Registered, i);
    SwapRemoveMembers(segs, i);
    hide SpanLists, Tiled, Apart;
    assert SpanLists(s') == s'.spans[Registered := s'.pool.segs] by { SpanListsDef(s'); }
    assert At(SpanLists(s'), Registered) == s'.pool.segs && At(SpanLists(s'), Flight(t)) == [base];
    assert At(SpanLists(s), Registered) == segs && At(SpanLists(s), Flight(t)) == [];
    hide At;
    MoveTiled(SpanLists(s), SpanLists(s'), w, Registered, Flight(t), base);
  }

  lemma SpanListsDef(s: State)
    ensures SpanLists(s) == s.spans[Registered := s.pool.segs]
  {
  }

  lemma OutsidePlaces(w: map<Page, PagePlace>, w1: map<Page, PagePlace>, p: Page, base: nat)
    requires p in w && w1 == w[p := Dirty] && InSegment(base, p)
    ensures PlacesSame(w, Outside(w1, base), SegmentPages(base))
    ensures forall q :: q in SegmentPages(base) ==> InSegment(base, q) && q !in Outside(w1, base)
  {
    SegmentSize(base);
  }

  /**
   Release safety: when a segment is given up, every page of it is on the dirty or the clean list,
   or is the one just coming back.
   */
  lemma ReleaseSafe(s: State, w: Witness, t: Tid) returns (i: nat)
    requires Inv(s, w) && t in s.threads && s.threads[t].pool.DeallocEnter? && At(s.pages, Raw(t)) != []
    requires DeallocSection(s.pool, At(s.pages, Raw(t))[0]).DeallocReleased?
    ensures var p, o := At(s.pages, Raw(t))[0], DeallocSection(s.pool, At(s.pages, Raw(t))[0]).pool;
            && i < |s.pool.segs| && InSegment(s.pool.segs[i], p) && p in w.pages
            && DeallocSection(s.pool, p).base == s.pool.segs[i]
            && o.segs == s.pool.segs[i := s.pool.segs[|s.pool.segs| - 1]][..|s.pool.segs| - 1]
            && Pooled(o, s.pages[Raw(t) := At(s.pages, Raw(t))[1..]], Outside(w.pages[p := Dirty], s.pool.segs[i]))
            && forall q: Page :: InSegment(s.pool.segs[i], q) ==>
                 q in w.pages && (w.pages[q] == Dirty || w.pages[q] == Clean || q == p)
  {
    hide Inv, Tiled, PoolInv, DeallocSection, SpansOK, Returned, Outside, FullyCarved;
    var p := At(s.pages, Raw(t))[0];
    PoolFacts(s, w);
    ReturnedOK(s.pool, s.pages, w.pages, t);
    var w1 := w.pages[p := Dirty];
    ReturnedSection(s.pool, p, w1);
    i := FindSegment(s.pool.segs, p).value;
    ReleaseOK(Returned(s.pool, p).value, s.pages[Raw(t) := At(s.pages, Raw(t))[1..]], w1, i);
  }

  lemma DeallocReleasedOK(s: State, w: Witness, t: Tid) returns (w': Witness)
    requires Inv(s, w) && t in s.threads && s.threads[t].pool.DeallocEnter? && At(s.pages, Raw(t)) != []
    requires DeallocSection(s.pool, At(s.pages, Raw(t))[0]).DeallocReleased?
    ensures Inv(StepDealloc(s, t), w')
  {
    hide Inv, Tiled, PoolInv, PlacesSame, DeallocSection, SpansOK, Outside, SegmentPages, Pooled;
    var p := At(s.pages, Raw(t))[0];
    var s' := StepDealloc(s, t);
    ThreadFacts(s, w, t);
    PoolFacts(s, w);
    var i := ReleaseSafe(s, w, t);
    var base, w1 := s.pool.segs[i], w.pages[p := Dirty];
    ReleasedSpans(s, s', w.spans, t, i);
    OutsidePlaces(w.pages, w1, p, base);
    w' := w.(pages := Outside(w1, base), spans := w.spans[base := Flight(t)]);
    assert RawPages(s, w'.pages, t, SegmentPages(base)) by {
      PageAt(s, w, Raw(t), 0);
      forall q | q in SegmentPages(base) ensures q !in s.slabs { NoSlab(s, w, q); }
    }
    DeallocShape(s, t);
    hide RawPages, ThreadOK, HoldsOK, InPoolOnly;
    PoolStep(s, s', w, w', t, SegmentPages(base));
  }

  // ----- purge_excess

  /** The first section: dirty pages move to the thread's buffer. */
  lemma PurgeEnterOK(s: State, w: Witness, t: Tid) returns (w': Witness)
    requires Inv(s, w) && t in s.threads && s.threads[t].pool.PurgeEnter?
    ensures PurgeTake(s.pool, []).Some?
    ensures Inv(StepPurgeEnter(s, t), w')
  {
    hide Inv, Tiled, PoolInv, PlacesSame, SpansOK, PurgeTake, Buffered, OpOK;
    ThreadFacts(s, w, t);
    PoolFacts(s, w);
    EmptyBuffer(s.pool, s.pages, w.pages, t);
    var v := PurgeTakeOK(s.pool, s.pages, w.pages, t, []);
    var s' := StepPurgeEnter(s, t);
    w' := w.(pages := v);
    SpansKept(s, s', w.spans);
    var ps := set q | q in w.pages && w.pages[q] == Dirty;
    assert PlacesSame(w.pages, v, ps) && RawPages(s, v, t, ps) by {
      BufferedPlaces(w.pages, v, t, ps);
      forall q | q in ps ensures q !in s.slabs { NoSlab(s, w, q); }
    }
    PurgeShape(s, t);
    hide Pooled, RawPages, HoldsOK, InPoolOnly, StepPurgeEnter;
    PoolStep(s, s', w, w', t, ps);
  }

  /** What the first section of a purge does to the thread and its lists. */
  lemma PurgeShape(s: State, t: Tid)
    requires t in s.threads && HoldsOK(s, t) && PoolOpOK(s.threads[t])
    requires s.threads[t].pool.PurgeEnter? && PurgeTake(s.pool, []).Some?
    ensures var s' := StepPurgeEnter(s, t); InPoolOnly(s, s', t) && HoldsOK(s', t) && PoolOpOK(s'.threads[t])
  {
    hide PurgeTake;
    OwnListChanged(s.pages, t, Purging(t), PurgeTake(s.pool, []).value.1);
    hide At, SameQueues;
  }

  /** What the second section of a purge does to the thread and its lists. */
  lemma ReturnShape(s: State, t: Tid)
    requires t in s.threads && HoldsOK(s, t) && PoolOpOK(s.threads[t])
    requires s.threads[t].pool.PurgeExit? && PurgeReturn(s.pool, At(s.pages, Purging(t))).Some?
    ensures var s' := StepPurgeExit(s, t); InPoolOnly(s, s', t) && HoldsOK(s', t) && PoolOpOK(s'.threads[t])
  {
    hide PurgeReturn;
    OwnListChanged(s.pages, t, Purging(t), []);
    hide At, SameQueues;
  }

  lemma EmptyBuffer(o: Pool, m: Lists, w: map<Page, PagePlace>, t: Tid)
    requires Pooled(o, m, w) && At(m, Purging(t)) == []
    ensures Pooled(o, m[Purging(t) := []], w)
  {
    hide Tiled, PoolInv, Range;
    var m0, m' := PageLists(o, m), PageLists(o, m[Purging(t) := []]);
    assert forall a: PagePlace :: At(m', a) == At(m0, a);
    SameTiled(m0, m', w);
  }

  lemma BufferedPlaces(w: map<Page, PagePlace>, w': map<Page, PagePlace>, t: Tid, ps: set<Page>)
    requires Buffered(w, w', t) && ps == set q | q in w && w[q] == Dirty
    ensures PlacesSame(w, w', ps)
    ensures forall q :: q in ps && q in w' ==> !w'[q].Slab() && !w'[q].Foreign(t)
    ensures forall q :: q in ps ==> q in w && !w[q].Slab()
  {
  }

  lemma PurgeExitOK(s: State, w: Witness, t: Tid) returns (w': Witness)
    requires Inv(s, w) && t in s.threads && s.threads[t].pool.PurgeExit?
    ensures PurgeReturn(s.pool, At(s.pages, Purging(t))).Some?
    ensures Inv(StepPurgeExit(s, t), w')
  {
    hide Inv, Tiled, PoolInv, PlacesSame, SpansOK, PurgeReturn, Cleaned, OpOK;
    ThreadFacts(s, w, t);
    PoolFacts(s, w);
    var buf := At(s.pages, Purging(t));
    FullBuffer(s.pool, s.pages, w.pages, t);
    var v := PurgeReturnOK(s.pool, s.pages, w.pages, t, buf);
    var s' := StepPurgeExit(s, t);
    w' := w.(pages := v);
    SpansKept(s, s', w.spans);
    var ps := set q | q in w.pages && w.pages[q] == Purging(t);
    assert PlacesSame(w.pages, v, ps) && RawPages(s, v, t, ps) by {
      CleanedPlaces(w.pages, v, t, ps);
      forall q | q in ps ensures q !in s.slabs { NoSlab(s, w, q); }
    }
    ReturnShape(s, t);
    hide Pooled, RawPages, HoldsOK, InPoolOnly, StepPurgeExit;
    PoolStep(s, s', w, w', t, ps);
  }

  lemma FullBuffer(o: Pool, m: Lists, w: map<Page, PagePlace>, t: Tid)
    requires Pooled(o, m, w)
    ensures Pooled(o, m[Purging(t) := At(m, Purging(t))], w)
  {
    hide Tiled, PoolInv, Range;
    var m0, m' := PageLists(o, m), PageLists(o, m[Purging(t) := At(m, Purging(t))]);
    assert forall a: PagePlace :: At(m', a) == At(m0, a);
    SameTiled(m0, m', w);
  }

  lemma CleanedPlaces(w: map<Page, PagePlace>, w': map<Page, PagePlace>, t: Tid, ps: set<Page>)
    requires Cleaned(w, w', t) && ps == set q | q in w && w[q] == Purging(t)
    ensures PlacesSame(w, w', ps)
    ensures forall q :: q in ps && q in w' ==> !w'[q].Slab() && !w'[q].Foreign(t)
    ensures forall q :: q in ps ==> q in w && !w[q].Slab()
  {
  }

  // ----- the page allocator

  lemma MappedOK(s: State, w: Witness, t: Tid, base: nat)
    requires Inv(s, w) && Enabled(s, t, Mapped(base))
    ensures base !in s.mapped
    ensures Inv(Next(s, t, Mapped(base)), w.(spans := Joined(w.spans, Flight(t), [base])))
  {
    hide Inv, Tiled, PoolInv, Pooled, PlacesSame, OpOK;
    ThreadFacts(s, w, t);
    PoolFacts(s, w);
    var s' := Next(s, t, Mapped(base));
    assert SpansOK(s', Joined(w.spans, Flight(t), [base])) by { MappedSpans(s, s', w.spans, t, base); }
    MappedNew(s, t, base);
    hide SpansOK;
    MappedShape(s, t, base);
    hide Next, HoldsOK, InPoolOnly, FreshSpan;
    assert PlacesSame(w.pages, w.pages, {}) by { NoneMoved(w.pages); }
    PoolStep(s, s', w, w.(spans := Joined(w.spans, Flight(t), [base])), t, {});
  }

  lemma MappedNew(s: State, t: Tid, base: nat)
    requires Enabled(s, t, Mapped(base))
    ensures base !in s.mapped
  {
  }

  /** What the page allocator's answer does to the thread. */
  lemma MappedShape(s: State, t: Tid, base: nat)
    requires Enabled(s, t, Mapped(base)) && HoldsOK(s, t) && PoolOpOK(s.threads[t])
    ensures var s' := Next(s, t, Mapped(base));
            && InPoolOnly(s, s', t) && HoldsOK(s', t) && PoolOpOK(s'.threads[t])
            && s'.pool == s.pool && s'.pages == s.pages
  {
  }

  lemma NoneMoved(w: map<Page, PagePlace>)
    ensures PlacesSame(w, w, {})
  {
  }

  lemma MappedSpans(s: State, s': State, w: map<nat, SpanPlace>, t: Tid, base: nat)
    requires SpansOK(s, w) && t in s.threads && FreshSpan(s, base) && At(s.spans, Flight(t)) == []
    requires s'.spans == s.spans[Flight(t) := [base]] && s'.pool == s.pool
    requires s'.mapped == s.mapped + {base} && s'.threads.Keys == s.threads.Keys
    ensures SpansOK(s', Joined(w, Flight(t), [base]))
  {
    hide Tiled, SpanLists;
    SpanListsGrow(s, s', t, base);
    GrowTiled(SpanLists(s), w, Flight(t), [base]);
  }

  lemma SpanListsGrow(s: State, s': State, t: Tid, base: nat)
    requires At(s.spans, Flight(t)) == [] && s'.spans == s.spans[Flight(t) := [base]] && s'.pool == s.pool
    ensures SpanLists(s') == SpanLists(s)[Flight(t) := [base] + At(SpanLists(s), Flight(t))]
  {
    assert [base] + At(SpanLists(s), Flight(t)) == [base];
  }

  lemma UnmapOK(s: State, w: Witness, t: Tid, refused: bool)
    requires Inv(s, w) && t in s.threads && s.threads[t].pool == Unmap(refused)
    ensures At(s.spans, Flight(t)) != [] && At(s.spans, Flight(t))[0] in s.mapped
    ensures At(s.spans, Flight(t))[0] !in s.pool.segs
    ensures Inv(StepUnmap(s, t, refused), w.(spans := Cleared(w.spans, Flight(t), Flight(t))))
  {
    hide Inv, Tiled, PoolInv, Pooled, PlacesSame;
    ThreadFacts(s, w, t);
    PoolFacts(s, w);
    FlightFacts(s, w.spans, t);
    var s' := StepUnmap(s, t, refused);
    assert SpansOK(s', Cleared(w.spans, Flight(t), Flight(t))) by { UnmapSpans(s, s', w.spans, t); }
    hide SpansOK;
    assert HoldsOK(s', t) && InPoolOnly(s, s', t);
    assert PlacesSame(w.pages, w.pages, {}) by { NoneMoved(w.pages); }
    PoolStep(s, s', w, w.(spans := Cleared(w.spans, Flight(t), Flight(t))), t, {});
  }

  lemma FlightFacts(s: State, w: map<nat, SpanPlace>, t: Tid)
    requires SpansOK(s, w) && At(s.spans, Flight(t)) != []
    ensures var b := At(s.spans, Flight(t))[0]; b in s.mapped && b in w && w[b] == Flight(t) && b !in s.pool.segs
  {
    SpanListsAt(s, t, [], []);
    FoundAt(SpanLists(s), w, Flight(t), 0);
    assert At(s.spans, Flight(t))[0] !in At(SpanLists(s), Registered);
  }

  lemma UnmapSpans(s: State, s': State, w: map<nat, SpanPlace>, t: Tid)
    requires SpansOK(s, w) && t in s.threads && |At(s.spans, Flight(t))| == 1
    requires s'.spans == s.spans[Flight(t) := []] && s'.pool == s.pool
    requires s'.mapped == s.mapped - {At(s.spans, Flight(t))[0]} && s'.threads.Keys == s.threads.Keys
    ensures SpansOK(s', Cleared(w, Flight(t), Flight(t)))
  {
    var m, b := SpanLists(s), At(s.spans, Flight(t))[0];
    assert At(m, Flight(t)) == [b];
    assert SpanLists(s') == m[Flight(t) := []][Flight(t) := []];
    assert forall x :: x in w && w[x] == Flight(t) <==> x == b by {
      FlightFacts(s, w, t);
      forall x | x in w && w[x] == Flight(t) ensures x == b { assert x in At(m, Flight(t)); }
    }
    hide SpanLists;
    ClearTiled(m, w, Flight(t), Flight(t));
    hide Tiled;
    assert Cleared(w, Flight(t), Flight(t)).Keys == s'.mapped;
  }

  lemma RegisterSpans(s: State, s': State, w: map<nat, SpanPlace>, t: Tid, base: nat)
    requires SpansOK(s, w) && t in s.threads && At(s.spans, Flight(t)) == [base]
    requires s'.spans == s.spans[Flight(t) := []] && s'.pool.segs == s.pool.segs + [base]
    requires s'.mapped == s.mapped && s'.threads.Keys == s.threads.Keys
    ensures forall i :: 0 <= i < |s.pool.segs| ==> Apart(s.pool.segs[i], base)
    ensures SpansOK(s', w[base := Registered])
  {
    SpanListsAt(s, t, [], s'.pool.segs);
    FlightFacts(s, w, t);
    assert NoDup(At(SpanLists(s), Registered));
    forall i | 0 <= i < |s.pool.segs| ensures Apart(s.pool.segs[i], base) { FoundAt(SpanLists(s), w, Registered, i); }
    NoDupConcat(s.pool.segs, [base]);
    hide SpanLists, Tiled, Apart;
    assert SpanLists(s') == s'.spans[Registered := s'.pool.segs] by { SpanListsDef(s'); }
    MoveTiled(SpanLists(s), SpanLists(s'), w, Flight(t), Registered, base);
  }

  lemma RegisterOpOK(s: State, w: Witness, t: Tid) returns (w': Witness)
    requires Inv(s, w) && t in s.threads && s.threads[t].pool.Register? && |s.pool.segs| < MAX_SEGMENTS
    ensures At(s.spans, Flight(t)) != [] && RegisterSection(s.pool, At(s.spans, Flight(t))[0]).Some?
    ensures Inv(StepRegister(s, t), w')
  {
    hide Inv, Tiled, PoolInv, PlacesSame, SpansOK, SegmentPages, Enlisted, Range, OpOK;
    ThreadFacts(s, w, t);
    PoolFacts(s, w);
    var base := At(s.spans, Flight(t))[0];
    var s' := StepRegister(s, t);
    RegisterSpans(s, s', w.spans, t, base);
    RegisterOK(s.pool, s.pages, w.pages, t, base);
    var v := Enlisted(s.pool, w.pages, base, t);
    w' := w.(pages := v, spans := w.spans[base := Registered]);
    assert PlacesSame(w.pages, v, SegmentPages(base)) && RawPages(s, v, t, SegmentPages(base)) by {
      EnlistedPlaces(s, w, t, base);
    }
    RegisterShape(s, t);
    hide Pooled, RegisterSection, RawPages, HoldsOK, InPoolOnly, StepRegister;
    PoolStep(s, s', w, w', t, SegmentPages(base));
  }

  lemma RegisterShape(s: State, t: Tid)
    requires t in s.threads && HoldsOK(s, t) && PoolOpOK(s.threads[t]) && s.threads[t].pool.Register?
    requires At(s.spans, Flight(t)) != [] && RegisterSection(s.pool, At(s.spans, Flight(t))[0]).Some?
    ensures var s' := StepRegister(s, t);
            InPoolOnly(s, s', t) && HoldsOK(s', t) && PoolOpOK(s'.threads[t])
  {
    hide RegisterSection;
    OwnListChanged(s.pages, t, Raw(t), [At(s.spans, Flight(t))[0]]);
    hide SameQueues;
  }

  lemma EnlistedPlaces(s: State, w: Witness, t: Tid, base: nat)
    requires Inv(s, w) && forall p: Page :: InSegment(base, p) ==> p !in w.pages
    ensures PlacesSame(w.pages, Enlisted(s.pool, w.pages, base, t), SegmentPages(base))
    ensures RawPages(s, Enlisted(s.pool, w.pages, base, t), t, SegmentPages(base))
  {
    hide PoolInv, Pooled, SpansOK, SlotsOK, IdsOK, Tiled, ThreadsOK, OwnersOK, PlaceOK, SegmentPages, Enlisted;
    SegmentSize(base);
    EnlistedPages(s.pool, w.pages, base, t);
  }
}
