/**
 Every critical section of the page pool keeps the page lists tiled and the counters exact,
 and none of them panics.
 */
module PoolSteps {
  import opened Places
  import opened PoolSections
  import opened PoolInvariant
  import opened Tiling

  type Lists = map<PagePlace, seq<Page>>

  ghost predicate Pooled(o: Pool, m: Lists, w: map<Page, PagePlace>) {
    Tiled(PageLists(o, m), w) && PoolInv(o, w)
  }

  /** Lists with the same contents tile alike. */
  lemma SameTiled(m: Lists, m': Lists, w: map<Page, PagePlace>)
    requires Tiled(m, w) && forall a: PagePlace :: At(m', a) == At(m, a)
    ensures Tiled(m', w)
  {
  }

  lemma PooledLengths(o: Pool, m: Lists, w: map<Page, PagePlace>)
    requires Pooled(o, m, w)
    ensures |o.out| == |o.segs|
  {
  }

  // ----- alloc_slab, first section

  function AllocSource(o: Pool): PagePlace {
    if o.dirty != [] then Dirty else if o.clean != [] then Clean else Uncarved
  }

  /** The head of the dirty, clean or uncarved list goes to the thread. */
  lemma TakeLists(o: Pool, o': Pool, m: Lists, t: Tid, from: PagePlace)
    requires from in {Dirty, Clean, Uncarved} && At(PageLists(o, m), from) != []
    requires o'.dirty == (if from == Dirty then o.dirty[1..] else o.dirty)
    requires o'.clean == (if from == Clean then o.clean[1..] else o.clean)
    requires Range(o'.cursor, o'.end)
             == (if from == Uncarved then Range(o.cursor, o.end)[1..] else Range(o.cursor, o.end))
    ensures var p := At(PageLists(o, m), from)[0];
            PageLists(o', m[Raw(t) := [p] + At(m, Raw(t))]) == Shift(PageLists(o, m), from, 0, Raw(t))
  {
    var m0 := PageLists(o, m);
    var rest := At(m0, from)[1..];
    assert Without(At(m0, from), 0) == rest && At(m0, Raw(t)) == At(m, Raw(t));
    Reordered(m, Raw(t), [At(m0, from)[0]] + At(m, Raw(t)), from, rest, o.dirty, o.clean, Range(o.cursor, o.end));
    hide Range, Without;
  }

  /** Writes to different lists commute, and a later write to a list replaces an earlier one. */
  lemma Reordered(m: Lists, r: PagePlace, x: seq<Page>, from: PagePlace, rest: seq<Page>,
                  d: seq<Page>, c: seq<Page>, u: seq<Page>)
    requires r.Raw? && from in {Dirty, Clean, Uncarved}
    ensures m[Dirty := d][Clean := c][Uncarved := u][from := rest][r := x]
         == m[r := x][Dirty := if from == Dirty then rest else d]
                     [Clean := if from == Clean then rest else c]
                     [Uncarved := if from == Uncarved then rest else u]
  {
  }

  lemma AllocLists(o: Pool, m: Lists, t: Tid)
    requires AllocSection(o).AllocGot?
    ensures var AllocGot(o', p) := AllocSection(o);
            var m0, from := PageLists(o, m), AllocSource(o);
            && At(m0, from) != [] && At(m0, from)[0] == p
            && PageLists(o', m[Raw(t) := [p] + At(m, Raw(t))]) == Shift(m0, from, 0, Raw(t))
  {
    hide FindSegment;
    var AllocGot(o', p) := AllocSection(o);
    var from := AllocSource(o);
    assert from.Uncarved? ==> Range(o'.cursor, o'.end) == Range(o.cursor, o.end)[1..];
    assert At(PageLists(o, m), from) != [] && At(PageLists(o, m), from)[0] == p;
    hide PageLists, Shift, Range;
    TakeLists(o, o', m, t, from);
  }

  /** A page leaves a free list: the counters follow it, whatever the lists are. */
  lemma ChargeCounts(o: Pool, o1: Pool, w: map<Page, PagePlace>, p: Page, t: Tid)
    requires PoolInv(o, w) && p in w && !w[p].Out()
    requires o1 == o.(dirty := o1.dirty, clean := o1.clean, outstanding := o.outstanding + 1)
    ensures Charge(o1, p).Some? && PoolInv(Charge(o1, p).value, w[p := Raw(t)])
  {
    hide Counted, Covers, InUse, AllApart, Charge;
    InUseMove(w, p, Raw(t));
    ChargeOK(o1, w, p, Raw(t));
  }

  lemma CarveCursor(o: Pool, out: seq<nat>)
    requires CursorOK(o) && o.cursor < o.end
    ensures o.carving < |o.segs| && InSegment(o.segs[o.carving], o.cursor)
    ensures CursorOK(o.(cursor := o.cursor + 1, outstanding := o.outstanding + 1, out := out))
  {
  }

  lemma CarveCounts(o: Pool, w: map<Page, PagePlace>, t: Tid)
    requires PoolInv(o, w) && o.cursor < o.end && o.cursor in w && !w[o.cursor].Out()
    ensures o.carving < |o.out|
    ensures PoolInv(o.(cursor := o.cursor + 1, outstanding := o.outstanding + 1,
                       out := o.out[o.carving := o.out[o.carving] + 1]), w[o.cursor := Raw(t)])
  {
    assert |o.segs| == |o.out|;
    CarveCursor(o, o.out[o.carving := o.out[o.carving] + 1]);
    hide Counted, Covers, InUse, AllApart, CursorOK, InSegment;
    InUseMove(w, o.cursor, Raw(t));
    CoversMove(o.segs, w, o.cursor, Raw(t));
    CountedFlip(o.segs, o.out, w, o.cursor, Raw(t), o.carving);
  }

  lemma AllocCounts(o: Pool, w: map<Page, PagePlace>, p: Page, t: Tid)
    requires PoolInv(o, w) && p in w && w[p] == AllocSource(o)
    requires o.dirty != [] ==> p == o.dirty[0]
    requires o.dirty == [] && o.clean != [] ==> p == o.clean[0]
    requires o.dirty == [] && o.clean == [] ==> p == o.cursor < o.end
    ensures AllocSection(o).AllocGot? && AllocSection(o).page == p
    ensures PoolInv(AllocSection(o).pool, w[p := Raw(t)])
  {
    hide PoolInv, Charge;
    if o.dirty != [] {
      ChargeCounts(o, o.(dirty := o.dirty[1..], outstanding := o.outstanding + 1), w, p, t);
    } else if o.clean != [] {
      ChargeCounts(o, o.(clean := o.clean[1..], outstanding := o.outstanding + 1), w, p, t);
    } else {
      CarveCounts(o, w, t);
    }
  }

  /** The page comes off a free list or the carving cursor. */
  lemma AllocSectionOK(o: Pool, m: Lists, w: map<Page, PagePlace>, t: Tid)
    requires Pooled(o, m, w)
    ensures !AllocSection(o).AllocPanic?
    ensures AllocSection(o).AllocGot? ==>
              var AllocGot(o', p) := AllocSection(o);
              && p in w && !w[p].Out()
              && Pooled(o', m[Raw(t) := [p] + At(m, Raw(t))], w[p := Raw(t)])
  {
    var m0, from := PageLists(o, m), AllocSource(o);
    if At(m0, from) != [] {
      var p := At(m0, from)[0];
      ShiftTiled(m0, w, from, 0, Raw(t));
      AllocCounts(o, w, p, t);
      AllocLists(o, m, t);
    }
  }

  // ----- dealloc_slab

  function Returned(o: Pool, p: Page): Option<Pool> {
    Discharge(o.(dirty := [p] + o.dirty, outstanding := o.outstanding - 1), p)
  }

  lemma DirtyLists(o: Pool, o': Pool, m: Lists, t: Tid)
    requires At(m, Raw(t)) != []
    requires o'.dirty == [At(m, Raw(t))[0]] + o.dirty && o'.clean == o.clean
    requires o'.cursor == o.cursor && o'.end == o.end
    ensures At(PageLists(o, m), Raw(t)) == At(m, Raw(t))
    ensures PageLists(o', m[Raw(t) := At(m, Raw(t))[1..]]) == Shift(PageLists(o, m), Raw(t), 0, Dirty)
  {
    assert Without(At(m, Raw(t)), 0) == At(m, Raw(t))[1..];
  }

  /** The page joins the dirty list and leaves the count of its segment. */
  lemma ReturnedOK(o: Pool, m: Lists, w: map<Page, PagePlace>, t: Tid)
    requires Pooled(o, m, w) && At(m, Raw(t)) != []
    ensures var p := At(m, Raw(t))[0];
            && p in w && w[p] == Raw(t)
            && Returned(o, p).Some?
            && Returned(o, p).value == o.(dirty := [p] + o.dirty, outstanding := o.outstanding - 1,
                                          out := Returned(o, p).value.out)
            && Pooled(Returned(o, p).value, m[Raw(t) := At(m, Raw(t))[1..]], w[p := Dirty])
  {
    hide Tiled, NoDup, Counted, Covers, InUse, AllApart;
    var p := At(m, Raw(t))[0];
    DirtyLists(o, o.(dirty := [p] + o.dirty), m, t);
    ShiftTiled(PageLists(o, m), w, Raw(t), 0, Dirty);
    InUseMove(w, p, Dirty);
    DischargeOK(o.(dirty := [p] + o.dirty, outstanding := o.outstanding - 1), w, p, Dirty);
    DirtyLists(o, Returned(o, p).value, m, t);
  }

  // ----- release of a segment

  ghost function Outside(w: map<Page, PagePlace>, base: nat): map<Page, PagePlace> {
    map p | p in w && !InSegment(base, p) :: w[p]
  }

  /** A segment nobody counts and the cursor is not in has all its pages on the two free lists. */
  lemma AllOnFreeLists(o: Pool, m: Lists, w: map<Page, PagePlace>, i: nat, p: Page)
    requires Pooled(o, m, w) && i < |o.segs|
    requires o.out[i] == 0 && FullyCarved(o, i) && InSegment(o.segs[i], p)
    ensures p in w && (w[p] == Dirty || w[p] == Clean)
  {
    assert p in w;
    var base := o.segs[i];
    assert w[p].Out() ==> p in OutIn(w, base);
    if w[p] == Uncarved {
      assert p in At(PageLists(o, m), Uncarved);
      OneSegment(o.segs, p, i);
      OneSegment(o.segs, p, o.carving);
    }
  }

  lemma {:induction false} OutsideNoDup(base: nat, q: seq<Page>)
    requires NoDup(q)
    ensures NoDup(OutsideOf(base, q))
  {
    if q != [] {
      OutsideNoDup(base, q[1..]);
    }
  }

  lemma FilterTiled(m: Lists, m': Lists, w: map<Page, PagePlace>, base: nat)
    requires Tiled(m, w)
    requires forall p: Page :: InSegment(base, p) && p in w ==> w[p] == Dirty || w[p] == Clean
    requires At(m', Dirty) == OutsideOf(base, At(m, Dirty)) && At(m', Clean) == OutsideOf(base, At(m, Clean))
    requires forall a: PagePlace :: a != Dirty && a != Clean ==> At(m', a) == At(m, a)
    ensures Tiled(m', Outside(w, base))
  {
    forall a: PagePlace ensures NoDup(At(m', a)) {
      assert NoDup(At(m, a));
      OutsideNoDup(base, At(m, a));
    }
    forall a: PagePlace, p: Page | p in At(m', a) ensures p in Outside(w, base) && Outside(w, base)[p] == a {
      assert p in At(m, a);
    }
    forall p | p in Outside(w, base) ensures p in At(m', w[p]) {
      assert p in At(m, w[p]);
    }
  }

  lemma ReleaseTiled(o: Pool, m: Lists, w: map<Page, PagePlace>, base: nat)
    requires Tiled(PageLists(o, m), w)
    requires forall p: Page :: InSegment(base, p) ==> p in w && (w[p] == Dirty || w[p] == Clean)
    ensures Tiled(PageLists(o.(dirty := OutsideOf(base, o.dirty), clean := OutsideOf(base, o.clean)), m),
            Outside(w, base))
  {
    hide Tiled, OutsideOf;
    var o' := o.(dirty := OutsideOf(base, o.dirty), clean := OutsideOf(base, o.clean));
    FilterTiled(PageLists(o, m), PageLists(o', m), w, base);
  }

  lemma SwapRemoveSegs(segs: seq<nat>, i: nat, segs': seq<nat>)
    requires i < |segs| && AllApart(segs)
    requires segs' == segs[i := segs[|segs| - 1]][..|segs| - 1]
    ensures AllApart(segs')
    ensures forall j :: 0 <= j < |segs'| ==> Apart(segs[i], segs'[j])
    ensures forall j :: 0 <= j < |segs| && j != i ==>
              segs[j] == segs'[if j == |segs| - 1 then i else j]
  {
  }

  lemma SwapRemoveCovers(segs: seq<nat>, i: nat, segs': seq<nat>, w: map<Page, PagePlace>)
    requires i < |segs| && AllApart(segs) && Covers(segs, w)
    requires segs' == segs[i := segs[|segs| - 1]][..|segs| - 1]
    ensures Covers(segs', Outside(w, segs[i]))
  {
    SwapRemoveSegs(segs, i, segs');
    var w' := Outside(w, segs[i]);
    forall p | p in w' ensures FindSegment(segs', p).Some? {
      var j := FindSegment(segs, p).value;
      assert InSegment(segs'[if j == |segs| - 1 then i else j], p);
    }
    forall j, p: Page | 0 <= j < |segs'| && InSegment(segs'[j], p) ensures p in w' {
      assert Apart(segs[i], segs'[j]);
      assert InSegment(segs[if j == i then |segs| - 1 else j], p);
    }
  }

  lemma SwapRemoveCounted(segs: seq<nat>, out: seq<nat>, i: nat, segs': seq<nat>, out': seq<nat>,
                          w: map<Page, PagePlace>)
    requires i < |segs| && AllApart(segs) && Counted(segs, out, w)
    requires segs' == segs[i := segs[|segs| - 1]][..|segs| - 1]
    requires out' == out[i := out[|segs| - 1]][..|segs| - 1]
    ensures Counted(segs', out', Outside(w, segs[i]))
  {
    SwapRemoveSegs(segs, i, segs');
    forall j | 0 <= j < |segs'| ensures out'[j] == |OutIn(Outside(w, segs[i]), segs'[j])| {
      assert Apart(segs[i], segs'[j]);
      assert OutIn(Outside(w, segs[i]), segs'[j]) == OutIn(w, segs'[j]);
    }
  }

  lemma ReleaseInUse(w: map<Page, PagePlace>, base: nat)
    requires forall p: Page :: InSegment(base, p) ==> p in w && (w[p] == Dirty || w[p] == Clean)
    ensures InUse(Outside(w, base)) == InUse(w)
  {
  }

  lemma ReleaseCursor(o: Pool, i: nat)
    requires i < |o.segs| == |o.out| && FullyCarved(o, i) && CursorOK(o)
    ensures CursorOK(ReleaseSegment(o, i))
  {
    hide OutsideOf;
  }

  lemma ReleaseCounts(o: Pool, w: map<Page, PagePlace>, i: nat)
    requires PoolInv(o, w) && i < |o.segs| && FullyCarved(o, i)
    requires forall p: Page :: InSegment(o.segs[i], p) ==> p in w && (w[p] == Dirty || w[p] == Clean)
    ensures PoolInv(ReleaseSegment(o, i), Outside(w, o.segs[i]))
  {
    assert |o.segs| == |o.out|;
    hide Counted, Covers, InUse, AllApart, CursorOK, Outside, OutsideOf;
    var o' := ReleaseSegment(o, i);
    ReleaseInUse(w, o.segs[i]);
    ReleaseCursor(o, i);
    SwapRemoveSegs(o.segs, i, o'.segs);
    SwapRemoveCovers(o.segs, i, o'.segs, w);
    SwapRemoveCounted(o.segs, o.out, i, o'.segs, o'.out, w);
  }

  /** The segment leaves with all its pages; every other page, count and index survives. */
  lemma ReleaseOK(o: Pool, m: Lists, w: map<Page, PagePlace>, i: nat)
    requires Pooled(o, m, w) && i < |o.segs|
    requires o.out[i] == 0 && FullyCarved(o, i)
    ensures Pooled(ReleaseSegment(o, i), m, Outside(w, o.segs[i]))
    ensures forall p: Page :: InSegment(o.segs[i], p) ==> p in w && (w[p] == Dirty || w[p] == Clean)
  {
    hide Tiled;
    forall p: Page | InSegment(o.segs[i], p) ensures p in w && (w[p] == Dirty || w[p] == Clean) {
      AllOnFreeLists(o, m, w, i, p);
    }
    ReleaseCounts(o, w, i);
    hide PoolInv;
    ReleaseTiled(o, m, w, o.segs[i]);
  }

  /** `dealloc_slab` once the page is on the dirty list. */
  lemma ReturnedSection(o: Pool, p: Page, w: map<Page, PagePlace>)
    requires Returned(o, p).Some? && PoolInv(Returned(o, p).value, w) && Returned(o, p).value.segs == o.segs
    ensures FindSegment(o.segs, p).Some?
    ensures var o', i := Returned(o, p).value, FindSegment(o.segs, p).value;
            i < |o'.segs| == |o'.out| &&
            DeallocSection(o, p) == if o'.out[i] == 0 && FullyCarved(o', i)
                                    then DeallocReleased(ReleaseSegment(o', i), o.segs[i])
                                    else DeallocKept(o', |o'.dirty| > PURGE_HIGH_WATER)
  {
    assert |Returned(o, p).value.segs| == |Returned(o, p).value.out|;
    hide PoolInv, ReleaseSegment, FullyCarved;
  }

  lemma DeallocDirty(o: Pool, p: Page)
    ensures DeallocSection(o, p).DeallocKept? ==>
              |DeallocSection(o, p).pool.dirty| == |o.dirty| + 1
              && DeallocSection(o, p).purge == (|o.dirty| + 1 > PURGE_HIGH_WATER)
    ensures DeallocSection(o, p).DeallocReleased? ==> |DeallocSection(o, p).pool.dirty| <= |o.dirty|
  {
    hide FindSegment;
    if DeallocSection(o, p).DeallocReleased? {
      var i := FindSegment(o.segs, p).value;
      assert InSegment(o.segs[i], p) by { FoundIn(o.segs, p); }
      DropsHead(o.segs[i], p, o.dirty);
    }
  }

  lemma FoundIn(segs: seq<nat>, p: Page)
    requires FindSegment(segs, p).Some?
    ensures InSegment(segs[FindSegment(segs, p).value], p)
  {
  }

  lemma DropsHead(base: nat, p: Page, q: seq<Page>)
    requires InSegment(base, p)
    ensures |OutsideOf(base, [p] + q)| <= |q|
  {
    assert ([p] + q)[1..] == q;
  }

  /** All pages of the segment but `p` are on the two free lists. */
  ghost predicate OthersFree(o: Pool, base: nat, p: Page) {
    forall q: Page :: InSegment(base, q) ==> q == p || q in o.dirty || q in o.clean
  }

  /** All pages of the segment are on the two free lists. */
  ghost predicate AllFree(o: Pool, base: nat) {
    forall q: Page :: InSegment(base, q) ==> q in o.dirty || q in o.clean
  }

  lemma FreeIsNotOut(o: Pool, m: Lists, w: map<Page, PagePlace>, q: Page)
    requires Tiled(PageLists(o, m), w) && (q in o.dirty || q in o.clean)
    ensures q in w && !w[q].Out()
  {
    hide Range, NoDup;
    assert q in At(PageLists(o, m), Dirty) || q in At(PageLists(o, m), Clean);
  }

  /** With every page of a segment dirty or clean, its counter is zero. */
  lemma FreeCountsZero(o: Pool, m: Lists, w: map<Page, PagePlace>, i: nat)
    requires Pooled(o, m, w) && i < |o.segs|
    requires AllFree(o, o.segs[i])
    ensures o.out[i] == 0
  {
    hide AllApart, Covers, CursorOK, InUse, InSegment;
    var base := o.segs[i];
    forall q: Page | q in w && InSegment(base, q) ensures !w[q].Out() {
      FreeIsNotOut(o, m, w, q);
    }
    hide Tiled;
    assert OutIn(w, base) == {};
  }

  /**
   `dealloc_slab` gives the segment of `p` back if and only if every other page of it is dirty or
   clean and the carving cursor does not stand in it. A cursor that has run to the end of the
   segment just below stands in this one, and keeps it.
   */
  lemma ReleasedExactly(o: Pool, m: Lists, w: map<Page, PagePlace>, t: Tid)
    requires Pooled(o, m, w) && At(m, Raw(t)) != []
    ensures var p := At(m, Raw(t))[0];
            && FindSegment(o.segs, p).Some?
            && var base := o.segs[FindSegment(o.segs, p).value];
               DeallocSection(o, p).DeallocReleased? <==> OthersFree(o, base, p) && !InSegment(base, o.cursor)
  {
    hide Tiled, PoolInv, DeallocSection, InSegment;
    var p := At(m, Raw(t))[0];
    ReturnedOK(o, m, w, t);
    var o1, m1, w1 := Returned(o, p).value, m[Raw(t) := At(m, Raw(t))[1..]], w[p := Dirty];
    ReturnedSection(o, p, w1);
    var i := FindSegment(o.segs, p).value;
    var base := o.segs[i];
    assert o1.dirty == [p] + o.dirty && o1.clean == o.clean && o1.segs == o.segs && o1.cursor == o.cursor;
    if o1.out[i] == 0 && FullyCarved(o1, i) {
      forall q: Page | InSegment(base, q) ensures q == p || q in o.dirty || q in o.clean {
        AllOnFreeLists(o1, m1, w1, i, q);
        OnFreeList(o1, m1, w1, q);
      }
    }
    if OthersFree(o, base, p) {
      assert AllFree(o1, base);
      FreeCountsZero(o1, m1, w1, i);
    }
  }

  lemma OnFreeList(o: Pool, m: Lists, w: map<Page, PagePlace>, q: Page)
    requires Tiled(PageLists(o, m), w) && q in w && (w[q] == Dirty || w[q] == Clean)
    ensures q in o.dirty || q in o.clean
  {
    assert q in At(PageLists(o, m), w[q]);
  }

  // ----- alloc_slab_slow, second section

  ghost function Enlisted(o: Pool, w: map<Page, PagePlace>, base: nat, t: Tid): map<Page, PagePlace> {
    Joined(Joined(w, Raw(t), [base]),
           if o.cursor < o.end then Clean else Uncarved,
           Range(base + 1, base + SLABS_PER_SEGMENT))
  }

  lemma RegisterLists(o: Pool, m: Lists, t: Tid, base: nat)
    requires |o.segs| < MAX_SEGMENTS && At(m, Raw(t)) == []
    ensures var m1 := PageLists(o, m)[Raw(t) := [base] + At(PageLists(o, m), Raw(t))];
            var rest := if o.cursor < o.end then Clean else Uncarved;
            PageLists(RegisterSection(o, base).value, m[Raw(t) := [base]])
            == m1[rest := Range(base + 1, base + SLABS_PER_SEGMENT) + At(m1, rest)]
  {
    var q := Range(base + 1, base + SLABS_PER_SEGMENT);
    assert q + [] == q;
    assert [base] + [] == [base];
  }

  lemma RegisterTiled(o: Pool, m: Lists, w: map<Page, PagePlace>, t: Tid, base: nat)
    requires Tiled(PageLists(o, m), w) && |o.segs| < MAX_SEGMENTS && At(m, Raw(t)) == []
    requires forall p: Page :: InSegment(base, p) ==> p !in w
    ensures Tiled(PageLists(RegisterSection(o, base).value, m[Raw(t) := [base]]), Enlisted(o, w, base, t))
  {
    hide Tiled;
    var m0 := PageLists(o, m);
    var rest := if o.cursor < o.end then Clean else Uncarved;
    var q := Range(base + 1, base + SLABS_PER_SEGMENT);
    assert InSegment(base, base);
    GrowTiled(m0, w, Raw(t), [base]);
    var m1 := m0[Raw(t) := [base] + At(m0, Raw(t))];
    forall k | k in q ensures k !in Joined(w, Raw(t), [base]) { assert InSegment(base, k); }
    GrowTiled(m1, Joined(w, Raw(t), [base]), rest, q);
    RegisterLists(o, m, t, base);
  }

  lemma EnlistedPages(o: Pool, w: map<Page, PagePlace>, base: nat, t: Tid)
    requires forall p: Page :: InSegment(base, p) ==> p !in w
    ensures forall p: Page :: p in Enlisted(o, w, base, t) <==> p in w || InSegment(base, p)
    ensures forall p :: p in w ==> Enlisted(o, w, base, t)[p] == w[p]
    ensures InSegment(base, base) && Enlisted(o, w, base, t)[base] == Raw(t)
    ensures forall p: Page :: InSegment(base, p) && p != base ==>
              !Enlisted(o, w, base, t)[p].Out() && !Enlisted(o, w, base, t)[p].Foreign(t)
  {
    var q := Range(base + 1, base + SLABS_PER_SEGMENT);
    forall p: Page | InSegment(base, p) && p != base ensures p in q { assert q[p - base - 1] == p; }
  }

  lemma RegisterCounted(segs: seq<nat>, out: seq<nat>, w: map<Page, PagePlace>, w': map<Page, PagePlace>, base: nat)
    requires Counted(segs, out, w)
    requires forall i :: 0 <= i < |segs| ==> Apart(segs[i], base)
    requires forall p: Page :: p in w' <==> p in w || InSegment(base, p)
    requires forall p :: p in w ==> w'[p] == w[p]
    requires InSegment(base, base) && w'[base].Out()
    requires forall p: Page :: InSegment(base, p) && p != base ==> !w'[p].Out()
    ensures Counted(segs + [base], out + [1], w')
  {
    forall i | 0 <= i <= |segs| ensures (out + [1])[i] == |OutIn(w', (segs + [base])[i])| {
      if i < |segs| {
        assert Apart(segs[i], base);
        assert OutIn(w', segs[i]) == OutIn(w, segs[i]);
      } else {
        assert OutIn(w', base) == {base};
      }
    }
  }

  lemma RegisterCovers(segs: seq<nat>, w: map<Page, PagePlace>, w': map<Page, PagePlace>, base: nat)
    requires Covers(segs, w)
    requires forall p: Page :: p in w' <==> p in w || InSegment(base, p)
    ensures Covers(segs + [base], w')
  {
    var segs' := segs + [base];
    forall p | p in w' ensures FindSegment(segs', p).Some? {
      if p in w { assert InSegment(segs'[FindSegment(segs, p).value], p); }
      else { assert InSegment(segs'[|segs|], p); }
    }
    forall i, p: Page | 0 <= i < |segs'| && InSegment(segs'[i], p) ensures p in w' {
      if i < |segs| { assert InSegment(segs[i], p); }
    }
  }

  lemma RegisterInUse(w: map<Page, PagePlace>, w': map<Page, PagePlace>, base: nat, b: PagePlace)
    requires base !in w && b.Raw?
    requires forall p: Page :: p in w' <==> p in w || InSegment(base, p)
    requires forall p :: p in w ==> w'[p] == w[p]
    requires InSegment(base, base) && w'[base] == b
    requires forall p: Page :: InSegment(base, p) && p != base ==> !w'[p].Out()
    ensures |InUse(w')| == |InUse(w)| + 1
  {
    assert InUse(w') == InUse(w) + {base};
  }

  lemma RegisterCounts(o: Pool, w: map<Page, PagePlace>, t: Tid, base: nat)
    requires PoolInv(o, w) && |o.segs| < MAX_SEGMENTS
    requires forall i :: 0 <= i < |o.segs| ==> Apart(o.segs[i], base)
    requires forall p: Page :: InSegment(base, p) ==> p !in w
    ensures PoolInv(RegisterSection(o, base).value, Enlisted(o, w, base, t))
  {
    var w' := Enlisted(o, w, base, t);
    hide Enlisted, Covers, Counted, InUse;
    assert |InUse(w')| == |InUse(w)| + 1 && Covers(o.segs + [base], w') &&
           Counted(o.segs + [base], o.out + [1], w') by {
      EnlistedPages(o, w, base, t);
      RegisterInUse(w, w', base, Raw(t));
      RegisterCovers(o.segs, w, w', base);
      RegisterCounted(o.segs, o.out, w, w', base);
    }
  }

  lemma FreshPage(segs: seq<nat>, w: map<Page, PagePlace>, base: nat, p: Page)
    requires Covers(segs, w) && InSegment(base, p)
    requires forall i :: 0 <= i < |segs| ==> Apart(segs[i], base)
    ensures p !in w
  {
    assert forall i :: 0 <= i < |segs| ==> Apart(segs[i], base) && !InSegment(segs[i], p);
  }

  /** A fresh segment joins: its first page goes to the caller, the others are carved later or clean. */
  lemma RegisterOK(o: Pool, m: Lists, w: map<Page, PagePlace>, t: Tid, base: nat)
    requires Pooled(o, m, w) && |o.segs| < MAX_SEGMENTS && At(m, Raw(t)) == []
    requires forall i :: 0 <= i < |o.segs| ==> Apart(o.segs[i], base)
    ensures forall p: Page :: InSegment(base, p) ==> p !in w
    ensures Pooled(RegisterSection(o, base).value, m[Raw(t) := [base]], Enlisted(o, w, base, t))
  {
    hide Tiled;
    forall p: Page | InSegment(base, p) ensures p !in w {
      FreshPage(o.segs, w, base, p);
    }
    RegisterTiled(o, m, w, t, base);
    RegisterCounts(o, w, t, base);
  }

  // ----- purge_excess

  lemma BufferLists(o: Pool, o': Pool, m: Lists, t: Tid, buf: seq<Page>, p: Page)
    requires o.dirty != [] && p == o.dirty[0]
    requires o'.dirty == o.dirty[1..] && o'.clean == o.clean && o'.cursor == o.cursor && o'.end == o.end
    ensures var m0, m' := PageLists(o, m[Purging(t) := buf]), PageLists(o', m[Purging(t) := buf + [p]]);
            && At(m0, Dirty) == o.dirty && At(m0, Purging(t)) == buf
            && At(m', Dirty) == Without(o.dirty, 0) && At(m', Purging(t)) == buf + [p]
            && forall a: PagePlace :: a != Dirty && a != Purging(t) ==> At(m', a) == At(m0, a)
  {
    assert Without(o.dirty, 0) == o.dirty[1..];
  }

  /** The page at the head of the dirty list goes to the end of the thread's buffer. */
  lemma BufferOne(o: Pool, o': Pool, m: Lists, w: map<Page, PagePlace>, t: Tid, buf: seq<Page>)
    requires Tiled(PageLists(o, m[Purging(t) := buf]), w) && o.dirty != []
    requires o'.dirty == o.dirty[1..] && o'.clean == o.clean && o'.cursor == o.cursor && o'.end == o.end
    ensures o.dirty[0] in w && w[o.dirty[0]] == Dirty
    ensures Tiled(PageLists(o', m[Purging(t) := buf + [o.dirty[0]]]), w[o.dirty[0] := Purging(t)])
  {
    hide PageLists;
    var p := o.dirty[0];
    var m0, m' := PageLists(o, m[Purging(t) := buf]), PageLists(o', m[Purging(t) := buf + [p]]);
    BufferLists(o, o', m, t, buf, p);
    assert p in At(m0, Dirty) && NoDup(o.dirty) && NoDup(buf) && p !in At(m0, Purging(t));
    hide Tiled;
    WithoutMembers(o.dirty, 0);
    MoveTiled(m0, m', w, Dirty, Purging(t), p);
  }

  /** Dirty pages become buffered pages, and nothing else changes place. */
  ghost predicate Buffered(w: map<Page, PagePlace>, w': map<Page, PagePlace>, t: Tid) {
    && w'.Keys == w.Keys
    && forall p :: p in w && w'[p] != w[p] ==> w[p] == Dirty && w'[p] == Purging(t)
  }

  /** The dirty pages a purge leaves of `n`: it stops at the low-water mark or when the buffer is full. */
  function AfterPurge(n: nat): nat {
    if n <= PURGE_LOW_WATER then n else if n <= PURGE_HIGH_WATER then PURGE_LOW_WATER else n - BATCH
  }

  lemma {:induction false} PurgeTakeOK(o: Pool, m: Lists, w: map<Page, PagePlace>, t: Tid, buf: seq<Page>)
    returns (w': map<Page, PagePlace>)
    requires Pooled(o, m[Purging(t) := buf], w)
    ensures PurgeTake(o, buf).Some?
    ensures var (o', buf') := PurgeTake(o, buf).value;
            && Pooled(o', m[Purging(t) := buf'], w') && Buffered(w, w', t)
            && o'.segs == o.segs
            && |o'.dirty| == |o.dirty| - (|buf'| - |buf|)
            && |buf'| >= |buf|
            && (|o'.dirty| <= PURGE_LOW_WATER || |buf'| >= BATCH)
            && (|buf| <= BATCH ==> |buf'| <= BATCH)
            && (|buf'| > |buf| ==> |o'.dirty| >= PURGE_LOW_WATER)
            && (buf == [] ==> |o'.dirty| == AfterPurge(|o.dirty|))
    decreases |o.dirty|
  {
    hide Tiled, Counted, Covers, InUse, AllApart;
    w' := w;
    if |o.dirty| > PURGE_LOW_WATER && |buf| < BATCH {
      var p := o.dirty[0];
      var o1 := o.(dirty := o.dirty[1..]);
      BufferOne(o, o1, m, w, t, buf);
      ChargeOK(o1, w, p, Purging(t));
      InUseMove(w, p, Purging(t));
      var o2 := Charge(o1, p).value;
      w' := PurgeTakeOK(o2, m, w[p := Purging(t)], t, buf + [p]);
    }
  }

  /** Buffered pages become clean pages, and nothing else changes place. */
  ghost predicate Cleaned(w: map<Page, PagePlace>, w': map<Page, PagePlace>, t: Tid) {
    && w'.Keys == w.Keys
    && forall p :: p in w && w'[p] != w[p] ==> w[p] == Purging(t) && w'[p] == Clean
  }

  lemma CleanLists(o: Pool, o': Pool, m: Lists, t: Tid, buf: seq<Page>)
    requires buf != []
    requires o'.dirty == o.dirty && o'.clean == [buf[0]] + o.clean && o'.cursor == o.cursor && o'.end == o.end
    ensures At(PageLists(o, m[Purging(t) := buf]), Purging(t)) == buf
    ensures PageLists(o', m[Purging(t) := buf[1..]]) == Shift(PageLists(o, m[Purging(t) := buf]), Purging(t), 0, Clean)
  {
    assert Without(buf, 0) == buf[1..];
  }

  lemma {:induction false} PurgeReturnOK(o: Pool, m: Lists, w: map<Page, PagePlace>, t: Tid, buf: seq<Page>)
    returns (w': map<Page, PagePlace>)
    requires Pooled(o, m[Purging(t) := buf], w)
    ensures PurgeReturn(o, buf).Some?
    ensures var o' := PurgeReturn(o, buf).value;
            && Pooled(o', m[Purging(t) := []], w') && Cleaned(w, w', t)
            && o'.segs == o.segs && o'.dirty == o.dirty
    decreases |buf|
  {
    hide Tiled, Counted, Covers, InUse, AllApart;
    w' := w;
    if buf != [] {
      var p := buf[0];
      CleanLists(o, o.(clean := [p] + o.clean), m, t, buf);
      ShiftTiled(PageLists(o, m[Purging(t) := buf]), w, Purging(t), 0, Clean);
      DischargeOK(o, w, p, Clean);
      InUseMove(w, p, Clean);
      var o1 := Discharge(o, p).value;
      var o2 := o1.(clean := [p] + o1.clean);
      CleanLists(o, o2, m, t, buf);
      w' := PurgeReturnOK(o2, m, w[p := Clean], t, buf[1..]);
    }
  }

  /** The buffer joins the clean list, and no segment leaves. */
  lemma {:induction false} PurgeReturnMembers(o: Pool, buf: seq<Page>)
    requires PurgeReturn(o, buf).Some?
    ensures var o' := PurgeReturn(o, buf).value;
            && o' == o.(clean := o'.clean, out := o'.out)
            && forall q :: q in o'.clean <==> q in o.clean || q in buf
    decreases |buf|
  {
    hide FindSegment;
    if buf != [] {
      var o1 := Discharge(o, buf[0]).value;
      PurgeReturnMembers(o1.(clean := [buf[0]] + o1.clean), buf[1..]);
      assert buf == [buf[0]] + buf[1..];
    }
  }
}
