/**
 What every run of the allocator guarantees, said about the state alone.

 A run is any interleaving of any number of threads that allocate, free (their own memory or that
 of others), exit and adopt, with a page allocator that may refuse.
 */
module Theorems {
  import opened Places
  import opened Tiling
  import opened PoolSections
  import opened PoolInvariant
  import opened PoolSteps
  import opened SizeClasses
  import opened SlabGeometry
  import opened System
  import opened SystemInvariant
  import opened Frames
  import opened ControlSteps
  import opened SlotSteps
  import opened PageSteps
  import opened SlabSteps
  import opened PoolOpSteps
  import opened LifeSteps
  import opened Safety
  import opened Counters
  import opened PoolDrop

  /** The list `m` files `k` under exactly one name, at exactly one position. */
  ghost predicate ListedExactlyOnce<P(!new), K>(m: map<P, seq<K>>, k: K) {
    exists a: P, i: nat :: i < |At(m, a)| && At(m, a)[i] == k
                           && forall b: P, j: nat :: j < |At(m, b)| && At(m, b)[j] == k ==> a == b && i == j
  }

  lemma TiledOnce<P(!new), K(!new)>(m: map<P, seq<K>>, where: map<K, P>, k: K)
    requires Tiled(m, where) && k in where
    ensures ListedExactlyOnce(m, k)
  {
    var a := where[k];
    assert k in At(m, a);
    var i: nat :| i < |At(m, a)| && At(m, a)[i] == k;
    forall b: P, j: nat | j < |At(m, b)| && At(m, b)[j] == k ensures a == b && i == j {
      assert k in At(m, b);
      assert NoDup(At(m, a));
    }
  }

  // ----- memory safety of the client's view

  /** The bytes of allocation `id`. */
  function Block(s: State, id: nat): (nat, nat)
    requires At(s.slots, Live(id)) != [] && At(s.slots, Live(id))[0].page in s.slabs
  {
    var x := At(s.slots, Live(id))[0];
    (Address(x, s.slabs[x.page].sizeClass), ClassSize(s.slabs[x.page].sizeClass))
  }

  /**
   Every live allocation is one slot of a slab, in a page that exactly one list holds and whose
   segment is registered and mapped.
   */
  lemma LiveBlockPlaced(tr: seq<State>, n: nat, a: nat)
    requires Run(tr) && n < |tr| && At(tr[n].slots, Live(a)) != []
    ensures var s, x := tr[n], At(tr[n].slots, Live(a))[0];
            && At(s.slots, Live(a)) == [x] && ListedExactlyOnce(s.slots, x)
            && x.page in s.slabs && x.idx < SlotCount(s.slabs[x.page].sizeClass)
            && ListedExactlyOnce(PageLists(s.pool, s.pages), x.page)
            && (exists i :: 0 <= i < |s.pool.segs| && InSegment(s.pool.segs[i], x.page) && s.pool.segs[i] in s.mapped)
  {
    hide Run, Inv, SlotCount;
    var s := tr[n];
    var w := RunInv(tr, n);
    SlotFacts(s, w, Live(a), 0);
    InvSlots(s, w);
    var x := At(s.slots, Live(a))[0];
    PageRegistered(s, w, x.page);
    TiledOnce(s.slots, w.slots, x);
    hide Tiled, ListedExactlyOnce;
  }

  /** No two live allocations overlap by a single byte. */
  lemma LiveBlocksDisjoint(tr: seq<State>, n: nat, a: nat, b: nat)
    requires Run(tr) && n < |tr| && a != b
    requires At(tr[n].slots, Live(a)) != [] && At(tr[n].slots, Live(b)) != []
    ensures var s := tr[n];
            && At(s.slots, Live(a))[0].page in s.slabs && At(s.slots, Live(b))[0].page in s.slabs
            && Disjoint(Block(s, a).0, Block(s, a).1, Block(s, b).0, Block(s, b).1)
  {
    hide Run, Inv, SlotCount, ClassSize, Address;
    var s := tr[n];
    var w := RunInv(tr, n);
    SlotFacts(s, w, Live(a), 0);
    SlotFacts(s, w, Live(b), 0);
    InvSlots(s, w);
    var x, y := At(s.slots, Live(a))[0], At(s.slots, Live(b))[0];
    hide Tiled;
    SlotsDisjoint(x, s.slabs[x.page].sizeClass, y, s.slabs[y.page].sizeClass);
  }

  lemma PageRegistered(s: State, w: Witness, p: Page)
    requires Inv(s, w) && p in w.pages
    ensures ListedExactlyOnce(PageLists(s.pool, s.pages), p)
    ensures exists i :: 0 <= i < |s.pool.segs| && InSegment(s.pool.segs[i], p) && s.pool.segs[i] in s.mapped
  {
    hide ThreadsOK, SlotsOK, OwnersOK, IdsOK, PagesOK, Counted, CursorOK, AllApart, Tiled;
    TiledOnce(PageLists(s.pool, s.pages), w.pages, p);
    hide ListedExactlyOnce, PageLists;
    var i := FindSegment(s.pool.segs, p).value;
    SpanListsAt(s, 0, [], []);
    FoundAt(SpanLists(s), w.spans, Registered, i);
    assert InSegment(s.pool.segs[i], p) && s.pool.segs[i] in s.mapped;
  }

  // ----- page conservation

  /** The pages of a segment that are on none of the pool's three free places. */
  ghost function NotFree(s: State, base: nat): set<Page> {
    set p | p in SegmentPages(base)
            && p !in s.pool.dirty && p !in s.pool.clean && !(s.pool.cursor <= p < s.pool.end)
  }

  /**
   Page conservation: every page of every registered segment is on exactly one list, and the
   segment's counter is exactly the number of its pages that are not dirty, clean or uncarved, so
   it neither exceeds 32 nor underflows.
   */
  lemma PagesConserved(tr: seq<State>, n: nat, i: nat)
    requires Run(tr) && n < |tr| && i < |tr[n].pool.segs|
    ensures var s := tr[n];
            && |s.pool.out| == |s.pool.segs|
            && (forall p: Page :: InSegment(s.pool.segs[i], p) ==> ListedExactlyOnce(PageLists(s.pool, s.pages), p))
            && s.pool.out[i] == |NotFree(s, s.pool.segs[i])| <= SLABS_PER_SEGMENT
  {
    hide Run, Inv;
    var s := tr[n];
    var w := RunInv(tr, n);
    PoolFacts(s, w);
    hide SpansOK, SegmentPages, ListedExactlyOnce;
    forall p: Page | InSegment(s.pool.segs[i], p) ensures ListedExactlyOnce(PageLists(s.pool, s.pages), p) {
      PageRegistered(s, w, p);
    }
    CountsNotFree(s, w.pages, s.pool.segs[i]);
    OutBound(w.pages, s.pool.segs[i]);
  }

  lemma CountsNotFree(s: State, w: map<Page, PagePlace>, base: nat)
    requires Tiled(PageLists(s.pool, s.pages), w) && forall p: Page :: InSegment(base, p) ==> p in w
    ensures OutIn(w, base) == NotFree(s, base)
  {
    SegmentSize(base);
    hide SegmentPages;
    var m := PageLists(s.pool, s.pages);
    forall p: Page | InSegment(base, p)
      ensures w[p].Out() <==> p !in s.pool.dirty && p !in s.pool.clean && !(s.pool.cursor <= p < s.pool.end)
    {
      assert p in At(m, w[p]);
      assert s.pool.cursor <= p < s.pool.end <==> p in At(m, Uncarved) by { RangeMember(s.pool.cursor, s.pool.end, p); }
      assert p in At(m, Dirty) ==> w[p] == Dirty;
      assert p in At(m, Clean) ==> w[p] == Clean;
      assert p in At(m, Uncarved) ==> w[p] == Uncarved;
    }
  }

  // ----- the pool never panics

  /** No thread ever panics: `find_segment` finds, no counter underflows, no list is empty that must not be. */
  lemma NeverCrashes(tr: seq<State>, n: nat, t: Tid)
    requires Run(tr) && n < |tr| && t in tr[n].threads
    ensures !tr[n].threads[t].op.Crashed?
  {
    hide Run, Inv;
    var w := RunInv(tr, n);
    ThreadFacts(tr[n], w, t);
  }

  /** Whenever pages are left to carve, the cursor lies in the segment the index names, also after renumbering. */
  lemma CursorInSegment(tr: seq<State>, n: nat)
    requires Run(tr) && n < |tr|
    ensures var o := tr[n].pool;
            o.cursor < o.end ==> o.carving < |o.segs| && InSegment(o.segs[o.carving], o.cursor)
                                 && o.end == o.segs[o.carving] + SLABS_PER_SEGMENT
  {
    hide Run, Inv, Tiled;
    var w := RunInv(tr, n);
    PoolFacts(tr[n], w);
  }

  /**
   A segment is given up only when all its pages are on the two free lists or coming back at this
   moment; so none is cached, abandoned, in a heap, or in another thread's purge buffer.
   */
  lemma ReleaseOnlyFree(tr: seq<State>, n: nat, t: Tid, q: Page)
    requires Run(tr) && n < |tr| && t in tr[n].threads && tr[n].threads[t].pool.DeallocEnter?
    requires At(tr[n].pages, Raw(t)) != []
    requires DeallocSection(tr[n].pool, At(tr[n].pages, Raw(t))[0]).DeallocReleased?
    requires InSegment(DeallocSection(tr[n].pool, At(tr[n].pages, Raw(t))[0]).base, q)
    ensures q in tr[n].pool.dirty || q in tr[n].pool.clean || q == At(tr[n].pages, Raw(t))[0]
    ensures q !in tr[n].slabs
    ensures forall a: PagePlace :: a.Out() && q in At(tr[n].pages, a) ==> a == Raw(t) && q == At(tr[n].pages, Raw(t))[0]
  {
    hide Run, Inv, DeallocSection;
    var s := tr[n];
    var w := RunInv(tr, n);
    var i := ReleaseSafe(s, w, t);
    PageAt(s, w, Raw(t), 0);
    NoSlab(s, w, q);
    WhereListed(s, w, q);
  }

  /**
   When a page comes back, its segment is given up if and only if all its other pages are dirty or
   clean and the carving cursor does not stand in it.
   */
  lemma ReleaseExact(tr: seq<State>, n: nat, t: Tid)
    requires Run(tr) && n < |tr| && t in tr[n].threads && tr[n].threads[t].pool.DeallocEnter?
    ensures var s := tr[n];
            && |At(s.pages, Raw(t))| == 1
            && var p := At(s.pages, Raw(t))[0];
               && FindSegment(s.pool.segs, p).Some?
               && var base := s.pool.segs[FindSegment(s.pool.segs, p).value];
                  DeallocSection(s.pool, p).DeallocReleased? <==>
                        OthersFree(s.pool, base, p) && !InSegment(base, s.pool.cursor)
  {
    hide Run, Inv, DeallocSection, OthersFree;
    var w := RunInv(tr, n);
    ThreadFacts(tr[n], w, t);
    hide OpOK;
    PoolFacts(tr[n], w);
    hide Pooled, SpansOK;
    ReleasedExactly(tr[n].pool, tr[n].pages, w.pages, t);
  }

  /**
   When a purge leaves a registered segment behind with all its pages free: exactly when each page
   was dirty, clean or in the buffer being returned. The segment stays registered with counter zero.
   */
  lemma PurgeKeepsSegments(tr: seq<State>, n: nat, t: Tid, i: nat)
    requires Run(tr) && n < |tr| && t in tr[n].threads && tr[n].threads[t].pool.PurgeExit? && i < |tr[n].pool.segs|
    ensures var o, o', buf := tr[n].pool, Next(tr[n], t, Go).pool, At(tr[n].pages, Purging(t));
            && o'.segs == o.segs && i < |o'.out|
            && (AllFree(o', o.segs[i]) <==> forall q: Page :: InSegment(o.segs[i], q) ==>
                  q in o.dirty || q in o.clean || q in buf)
            && (AllFree(o', o.segs[i]) ==> o'.out[i] == 0)
  {
    hide Run, Inv, PurgeReturn, Pooled, OpOK, InSegment;
    var s := tr[n];
    var w := RunInv(tr, n);
    PoolFacts(s, w);
    hide SpansOK;
    var buf := At(s.pages, Purging(t));
    FullBuffer(s.pool, s.pages, w.pages, t);
    var v := PurgeReturnOK(s.pool, s.pages, w.pages, t, buf);
    PurgeReturnMembers(s.pool, buf);
    var o' := PurgeReturn(s.pool, buf).value;
    PooledLengths(o', s.pages[Purging(t) := []], v);
    if AllFree(o', o'.segs[i]) { FreeCountsZero(o', s.pages[Purging(t) := []], v, i); }
  }

  lemma WhereListed(s: State, w: Witness, q: Page)
    requires Inv(s, w) && q in w.pages
    ensures w.pages[q] == Dirty ==> q in s.pool.dirty
    ensures w.pages[q] == Clean ==> q in s.pool.clean
    ensures forall a: PagePlace :: a.Out() && q in At(s.pages, a) ==> w.pages[q] == a
  {
    hide PoolInv, ThreadsOK, SlotsOK, OwnersOK, IdsOK, PagesOK, SpansOK, Range;
    var m := PageLists(s.pool, s.pages);
    assert q in At(m, w.pages[q]);
    forall a: PagePlace | a.Out() && q in At(s.pages, a) ensures w.pages[q] == a {
      assert At(m, a) == At(s.pages, a);
      assert q in At(m, a);
    }
  }

  // ----- slots

  /**
   Every slot of every slab is on exactly one list, and `is_fully_free` holds exactly when all of
   them are on the local list or in the bump region: none live, none remote, none in the hands of a
   thread that is still inside a remote push or a drain.
   */
  lemma SlotsAccounted(tr: seq<State>, n: nat, p: Page)
    requires Run(tr) && n < |tr| && p in tr[n].slabs
    ensures var s := tr[n];
            && (forall i: nat :: i < SlotCount(s.slabs[p].sizeClass) ==> ListedExactlyOnce(s.slots, Slot(p, i)))
            && Free(s, p) <= SlotCount(s.slabs[p].sizeClass)
            && (FullyFree(s, p) <==> forall a: SlotPlace, x: Slot {:trigger x in At(s.slots, a)} ::
                                       x in At(s.slots, a) && x.page == p ==> a == Local(p) || a == Virgin(p))
  {
    hide Run, Inv, SlotCount;
    var s := tr[n];
    var w := RunInv(tr, n);
    InvSlots(s, w);
    forall i: nat | i < SlotCount(s.slabs[p].sizeClass) ensures ListedExactlyOnce(s.slots, Slot(p, i)) {
      assert Slot(p, i) in w.slots;
      TiledOnce(s.slots, w.slots, Slot(p, i));
    }
    hide ListedExactlyOnce;
    FreeBound(s, w.slots, p);
    FreeExact(s, w.slots, p);
  }

  /** When every slot is local or virgin, the free count is the slot count. */
  lemma FreeExact(s: State, w: map<Slot, SlotPlace>, p: Page)
    requires Tiled(s.slots, w) && SlotsOK(s, w) && p in s.slabs
    ensures (forall a: SlotPlace, x: Slot {:trigger x in At(s.slots, a)} ::
               x in At(s.slots, a) && x.page == p ==> a == Local(p) || a == Virgin(p)) ==> FullyFree(s, p)
  {
    hide SlotCount;
    if forall a: SlotPlace, x: Slot {:trigger x in At(s.slots, a)} ::
         x in At(s.slots, a) && x.page == p ==> a == Local(p) || a == Virgin(p)
    {
      var n := SlotCount(s.slabs[p].sizeClass);
      var here, virgin := Elems(At(s.slots, Local(p))), Elems(At(s.slots, Virgin(p)));
      assert NoDup(At(s.slots, Local(p))) && NoDup(At(s.slots, Virgin(p)));
      ElemsSize(At(s.slots, Local(p)));
      ElemsSize(At(s.slots, Virgin(p)));
      assert here !! virgin;
      PageSlotsSize(p, n);
      forall x | x in PageSlots(p, n) ensures x in here + virgin {
        assert x in w && x in At(s.slots, w[x]);
      }
      SubsetSize(PageSlots(p, n), here + virgin);
      FreeBound(s, w, p);
      assert |here + virgin| == |here| + |virgin|;
    }
  }

  // ----- ownership and queues

  /**
   The ownership test is exact: for a heap that is running (not being dropped), the header of a slab
   carries its id if and only if the slab is its active slab, in one of its queues, or the slab it
   is adopting right now.
   */
  lemma OwnershipExact(tr: seq<State>, n: nat, t: Tid, p: Page)
    requires Run(tr) && n < |tr| && t in tr[n].threads && Active(tr[n].threads[t]) && p in tr[n].slabs
    ensures var s := tr[n];
            s.slabs[p].heapId == s.threads[t].heap.id <==>
            || (exists c ::
                  p in At(s.pages, Bin(t, c)) || p in At(s.pages, Full(t, c)) || p in At(s.pages, Partial(t, c)))
            || Claimed(s, t, p)
  {
    hide Run, Inv, SlotCount;
    var s := tr[n];
    var w := RunInv(tr, n);
    if s.slabs[p].heapId == s.threads[t].heap.id {
      OwnedFacts(s, w, t, p);
    }
    forall c | p in At(s.pages, Bin(t, c)) || p in At(s.pages, Full(t, c)) || p in At(s.pages, Partial(t, c))
      ensures s.slabs[p].heapId == s.threads[t].heap.id
    {
      var a :=
        if p in At(s.pages, Bin(t, c)) then Bin(t, c)
        else if p in At(s.pages, Full(t, c)) then Full(t, c)
        else Partial(t, c);
      PageAt(s, w, a, IndexOf(At(s.pages, a), p));
    }
    if Claimed(s, t, p) { ClaimedFacts(s, w, t, p); }
  }

  lemma OwnedFacts(s: State, w: Witness, t: Tid, p: Page)
    requires Inv(s, w) && t in s.threads && Active(s.threads[t]) && p in s.slabs &&
             s.slabs[p].heapId == s.threads[t].heap.id
    ensures (exists c :: p in At(s.pages, Bin(t, c)) || p in At(s.pages, Full(t, c)) || p in At(s.pages, Partial(t, c)))
            || Claimed(s, t, p)
  {
    hide Inv;
    InvPages(s, w);
    hide ThreadsOK, IdsOK, PlaceOK;
    assert p in w.pages && OwnedBy(s, t, p, w.pages[p]);
    ListedAt(s, w, p);
    match w.pages[p] {
      case Bin(_, c) => assert p in At(s.pages, Bin(t, c));
      case Full(_, c) => assert p in At(s.pages, Full(t, c));
      case Partial(_, c) => assert p in At(s.pages, Partial(t, c));
      case Hand(_) =>
    }
  }

  /**
   The queues at every moment of every run, also in the middle of a call: at most one active slab,
   every listed slab of the class and id of its heap, some but not all slots free in the partial
   queue, and no free slot in the full queue except in the one slab a scan is looking at.
   */
  lemma QueuesAlways(tr: seq<State>, n: nat, t: Tid, c: nat)
    requires Run(tr) && n < |tr| && t in tr[n].threads
    ensures var s := tr[n];
            && |At(s.pages, Bin(t, c))| <= 1
            && (forall p :: p in At(s.pages, Bin(t, c)) ==> Owns(s, t, c, p))
            && (forall p :: p in At(s.pages, Full(t, c)) ==>
                  Owns(s, t, c, p) && (Free(s, p) == 0 || UnderScan(s, t, c, p)))
            && (forall p :: p in At(s.pages, Partial(t, c)) ==> Owns(s, t, c, p) && 0 < Free(s, p) < SlotCount(c))
            && (forall p :: p in At(s.pages, Bin(t, c)) ==>
                  p !in At(s.pages, Full(t, c)) && p !in At(s.pages, Partial(t, c)))
            && (forall p :: p in At(s.pages, Full(t, c)) ==> p !in At(s.pages, Partial(t, c)))
  {
    hide Run, Inv, SlotCount, UnderScan, Free, Owns;
    var s := tr[n];
    var w := RunInv(tr, n);
    ThreadFacts(s, w, t);
    hide OpOK, HoldsOK;
    QueueEntries(s, w, Bin(t, c));
    QueueEntries(s, w, Full(t, c));
    QueueEntries(s, w, Partial(t, c));
  }

  lemma QueueEntries(s: State, w: Witness, a: PagePlace)
    requires Inv(s, w) && !a.Uncarved? && !a.Dirty? && !a.Clean?
    ensures forall p :: p in At(s.pages, a) ==> PlaceOK(s, p, a) && p in w.pages && w.pages[p] == a
  {
    hide Inv, PlaceOK;
    forall p | p in At(s.pages, a) ensures PlaceOK(s, p, a) && p in w.pages && w.pages[p] == a {
      PageAt(s, w, a, IndexOf(At(s.pages, a), p));
    }
  }

  /**
   The queues between operations: at most one active slab, no free slot in the full queue, some but
   not all slots free in the partial queue, and each slab of the class and id of its heap.
   */
  lemma QueuesSound(tr: seq<State>, n: nat, t: Tid, c: nat)
    requires Run(tr) && n < |tr| && t in tr[n].threads && AtRest(tr[n].threads[t])
    ensures var s := tr[n];
            && |At(s.pages, Bin(t, c))| <= 1
            && (forall p :: p in At(s.pages, Bin(t, c)) ==> Owns(s, t, c, p))
            && (forall p :: p in At(s.pages, Full(t, c)) ==> Owns(s, t, c, p) && Free(s, p) == 0)
            && (forall p :: p in At(s.pages, Partial(t, c)) ==> Owns(s, t, c, p) && 0 < Free(s, p) < SlotCount(c))
            && At(s.pages, Hand(t)) == [] && At(s.pages, Raw(t)) == []
  {
    hide Run, Inv, SlotCount;
    var s := tr[n];
    var w := RunInv(tr, n);
    ThreadFacts(s, w, t);
    hide OpOK;
    QueueEntries(s, w, Bin(t, c));
    QueueEntries(s, w, Full(t, c));
    QueueEntries(s, w, Partial(t, c));
  }

  /**
   A heap turns to the pool only when it is dry: no active slab, no partial slab, and not one free
   slot in its full queue. Another thread may have freed remotely since the scan; nothing else can.
   */
  lemma AsksOnlyWhenDry(tr: seq<State>, n: nat, t: Tid, c: nat)
    requires Run(tr) && n < |tr| && t in tr[n].threads
    requires tr[n].threads[t].op in {AdoptLoad(c), AdoptTake(c), Fresh(c), Await(c)}
    ensures var s := tr[n];
            && At(s.pages, Bin(t, c)) == [] && At(s.pages, Partial(t, c)) == []
            && (forall p :: p in At(s.pages, Full(t, c)) ==> Free(s, p) == 0)
  {
    hide Run, Inv, SlotCount;
    var s := tr[n];
    var w := RunInv(tr, n);
    ThreadFacts(s, w, t);
    hide HoldsOK;
    QueueEntries(s, w, Full(t, c));
  }

  /** `alloc` re-enters at most once: a recursive call is served by the bin at its first step. */
  lemma ReentersOnce(tr: seq<State>, n: nat, t: Tid, c: nat)
    requires Run(tr) && n < |tr| && t in tr[n].threads && tr[n].threads[t].op == Alloc(c, true)
    ensures !InPool(tr[n].threads[t]) && Served(tr[n], Next(tr[n], t, Go), t)
  {
    hide Run, Inv, SlotCount, ClassSize;
    var w := RunInv(tr, n);
    ThreadFacts(tr[n], w, t);
    hide StepAlloc;
    var w' := AllocStep(tr[n], w, t, c, true);
  }

  // ----- segments

  /**
   Segments obtained from the page allocator and not given back are exactly the registered ones and
   those in the hands of one thread; a thread about to give one back holds a mapped segment that is
   not registered, so each is given back once and never under a page in use.
   */
  lemma SegmentsConserved(tr: seq<State>, n: nat, b: nat)
    requires Run(tr) && n < |tr|
    ensures var s := tr[n];
            && (b in s.mapped <==> b in s.pool.segs || exists t: Tid :: b in At(s.spans, Flight(t)))
            && (b in s.mapped ==> ListedExactlyOnce(SpanLists(s), b))
            && (forall t :: t in s.threads && s.threads[t].pool.Unmap? ==>
                  |At(s.spans, Flight(t))| == 1 && At(s.spans, Flight(t))[0] in s.mapped &&
                      At(s.spans, Flight(t))[0] !in s.pool.segs)
  {
    hide Run, Inv;
    var s := tr[n];
    var w := RunInv(tr, n);
    PoolFacts(s, w);
    hide Pooled;
    if b in s.mapped { TiledOnce(SpanLists(s), w.spans, b); }
    hide ListedExactlyOnce;
    assert b in s.mapped <==>
          b in s.pool.segs || exists t: Tid :: b in At(s.spans, Flight(t)) by { SpanMembers(s, w.spans, b); }
    forall t | t in s.threads && s.threads[t].pool.Unmap?
      ensures |At(s.spans, Flight(t))| == 1 && At(s.spans, Flight(t))[0] in s.mapped &&
              At(s.spans, Flight(t))[0] !in s.pool.segs
    {
      ThreadFacts(s, w, t);
      FlightFacts(s, w.spans, t);
    }
  }

  lemma SpanMembers(s: State, w: map<nat, SpanPlace>, b: nat)
    requires SpansOK(s, w)
    ensures b in s.mapped <==> b in s.pool.segs || exists t: Tid :: b in At(s.spans, Flight(t))
  {
    var m := SpanLists(s);
    assert At(m, Registered) == s.pool.segs;
    if b in s.mapped {
      assert b in At(m, w[b]);
      if w[b].Flight? { assert b in At(s.spans, Flight(w[b].t)); }
    }
    if b in s.pool.segs { assert b in At(m, Registered); }
    forall t: Tid | b in At(s.spans, Flight(t)) ensures b in s.mapped { assert b in At(m, Flight(t)); }
  }

  // ----- the end of the pool

  lemma RestHolds(s: State, w: Witness, t: Tid)
    requires Inv(s, w) && (t in s.threads ==> AtRest(s.threads[t]))
    ensures At(s.pages, Raw(t)) == [] && At(s.pages, Purging(t)) == [] && At(s.spans, Flight(t)) == []
  {
    hide Inv, SpansOK, Pooled, SlotCount, Owns, Free;
    if t in s.threads {
      ThreadFacts(s, w, t);
    } else {
      if At(s.pages, Raw(t)) != [] { PageAt(s, w, Raw(t), 0); }
      if At(s.pages, Purging(t)) != [] { PageAt(s, w, Purging(t), 0); }
      if At(s.spans, Flight(t)) != [] { NobodyFlies(s, w, t); }
    }
  }

  lemma NobodyFlies(s: State, w: Witness, t: Tid)
    requires Inv(s, w) && At(s.spans, Flight(t)) != []
    ensures t in s.threads
  {
    hide Inv;
    PoolFacts(s, w);
    FlightFacts(s, w.spans, t);
  }

  lemma {:induction false} CountNoDup<K>(q: seq<K>, k: K)
    requires NoDup(q)
    ensures multiset(q)[k] == if k in q then 1 else 0
  {
    if q != [] {
      var n := |q| - 1;
      assert q == q[..n] + [q[n]];
      CountNoDup(q[..n], k);
    }
  }

  lemma SegmentsNoDup(s: State, w: Witness)
    requires Inv(s, w)
    ensures NoDup(s.pool.segs)
  {
    hide Inv;
    PoolFacts(s, w);
    assert NoDup(At(SpanLists(s), Registered));
  }

  /**
   `Drop` in any state of any run where no thread is at work gives back every segment the page
   allocator has handed out and not received, each exactly once, and nothing else. Pages may still
   be cached, abandoned or in a heap.
   */
  lemma DropGivesBackAll(tr: seq<State>, n: nat, b: nat)
    requires Run(tr) && n < |tr|
    requires forall t :: t in tr[n].threads ==> AtRest(tr[n].threads[t])
    ensures var s := tr[n];
            && DropPool(s.pool, At(s.pages, Cached), []).Some?
            && multiset(DropPool(s.pool, At(s.pages, Cached), []).value)[b] == if b in s.mapped then 1 else 0
  {
    hide Run, Inv, DropPool;
    var s := tr[n];
    var w := RunInv(tr, n);
    PoolFacts(s, w);
    hide Pooled;
    SpanMembers(s, w.spans, b);
    hide SpansOK;
    RestHolds(s, w, 0);
    DropExact(s.pool, s.pages, w.pages, 0, []);
    SegmentsNoDup(s, w);
    CountNoDup(s.pool.segs, b);
    forall t: Tid ensures b !in At(s.spans, Flight(t)) { RestHolds(s, w, t); }
  }

  // ----- the two counters beside the invariant

  /** The dirty list exceeds the high-water mark only by threads about to purge. */
  lemma DirtyBound(tr: seq<State>, n: nat)
    requires Run(tr) && n < |tr|
    ensures |tr[n].pool.dirty| <= PURGE_HIGH_WATER + |Here(tr[n], PurgeEnter)|
    ensures (forall t :: t in tr[n].threads ==> AtRest(tr[n].threads[t])) ==> |tr[n].pool.dirty| <= PURGE_HIGH_WATER
  {
    hide Run;
    RunCounters(tr, n);
    if forall t :: t in tr[n].threads ==> AtRest(tr[n].threads[t]) { assert Here(tr[n], PurgeEnter) == {}; }
  }

  /**
   What the first section of `purge_excess` leaves, whatever happened since the purge was decided:
   exactly `AfterPurge` of the dirty pages it finds. So it reaches the low-water mark if and only if
   it finds the dirty list within the high-water mark; a list of 65 is left at 33.
   */
  lemma PurgeLeaves(tr: seq<State>, n: nat, t: Tid)
    requires Run(tr) && n < |tr| && t in tr[n].threads && tr[n].threads[t].pool.PurgeEnter?
    ensures var d, d' := |tr[n].pool.dirty|, |Next(tr[n], t, Go).pool.dirty|;
            && d' == AfterPurge(d)
            && (d' <= PURGE_LOW_WATER <==> d <= PURGE_HIGH_WATER)
            && (d == 65 ==> d' == 33)
            && |At(Next(tr[n], t, Go).pages, Purging(t))| == d - d' <= BATCH
  {
    hide Run, Inv, PurgeTake, Pooled, OpOK;
    var s := tr[n];
    var w := RunInv(tr, n);
    ThreadFacts(s, w, t);
    PoolFacts(s, w);
    hide SpansOK;
    EmptyBuffer(s.pool, s.pages, w.pages, t);
    var v := PurgeTakeOK(s.pool, s.pages, w.pages, t, []);
  }

  /** `slab_cache_len` is the length of the cache whenever no thread is between its CAS and its count. */
  lemma CacheLengthExact(tr: seq<State>, n: nat)
    requires Run(tr) && n < |tr|
    requires forall t :: t in tr[n].threads ==>
                !tr[n].threads[t].pool.CacheCount? && !tr[n].threads[t].pool.UncacheCount?
    ensures tr[n].cacheLen == |At(tr[n].pages, Cached)|
  {
    hide Run;
    RunCounters(tr, n);
    assert Here(tr[n], CacheCount) == {} && Here(tr[n], UncacheCount) == {};
  }

  // ----- when an allocation fails

  /**
   The only causes of a failed allocation of slab class: the page allocator refuses, or it delivers
   and the segment table is full, in which case the segment goes back.
   */
  lemma FailureHasCause(tr: seq<State>, n: nat, t: Tid, e: Event)
    requires Run(tr) && n < |tr| && Enabled(tr[n], t, e)
    ensures var s, s' := tr[n], Next(tr[n], t, e);
            && t in s'.threads
            && (s'.threads[t].pool.Failed? && !s.threads[t].pool.Failed? ==> s.threads[t].pool in {Mmap, Unmap(true)})
            && (s'.threads[t].pool == Unmap(true) && s.threads[t].pool != Unmap(true) ==>
                  s.threads[t].pool.Register? && |s.pool.segs| == MAX_SEGMENTS)
  {
    hide Run, Inv, StepOp, StepFree, SlotCount, ClassSize;
    var s := tr[n];
    var w := RunInv(tr, n);
    PoolFacts(s, w);
    hide SpansOK, Tiled;
    match e {
      case Go =>
        if InPool(s.threads[t]) {
          PoolFailure(s, t);
        } else if s.threads[t].op.Fresh? && At(s.pages, Cached) != [] {
          assert StepOp(s, t) == StepFresh(s, t, s.threads[t].op.c) by { FreshIsFresh(s, t); }
        } else {
          OpQuiet(s, t);
        }
      case StartFree(id) => FreeQuiet(s, t, id);
      case _ =>
    }
  }

  lemma FreshIsFresh(s: State, t: Tid)
    requires t in s.threads && s.threads[t].op.Fresh?
    ensures StepOp(s, t) == StepFresh(s, t, s.threads[t].op.c)
  {
  }

  /** The section leaves the thread neither failed nor refused. */
  ghost predicate NoFailure(s: State, t: Tid) {
    t in s.threads && !s.threads[t].pool.Failed? && s.threads[t].pool != Unmap(true)
  }

  lemma SectionsDoNotFail(s: State, t: Tid)
    requires t in s.threads && NoFailure(s, t)
    ensures NoFailure(StepDealloc(s, t), t) && NoFailure(StepPurgeEnter(s, t), t) && NoFailure(StepPurgeExit(s, t), t)
    ensures NoFailure(StepAllocEnter(s, t), t)
  {
    hide DeallocSection, PurgeTake, PurgeReturn, AllocSection;
  }

  lemma PoolFailure(s: State, t: Tid)
    requires t in s.threads && InPool(s.threads[t])
    ensures var s' := StepPool(s, t);
            && t in s'.threads
            && (s'.threads[t].pool.Failed? ==> s.threads[t].pool in {Mmap, Unmap(true)})
            && (s'.threads[t].pool == Unmap(true) && s.threads[t].pool != Unmap(true) ==>
                  s.threads[t].pool.Register? && |s.pool.segs| >= MAX_SEGMENTS)
  {
    hide StepDealloc, StepPurgeEnter, StepPurgeExit, StepAllocEnter, Shift;
    match s.threads[t].pool {
      case DeallocEnter => SectionsDoNotFail(s, t);
      case PurgeEnter => SectionsDoNotFail(s, t);
      case PurgeExit => SectionsDoNotFail(s, t);
      case AllocEnter => SectionsDoNotFail(s, t);
      case Register => assert StepPool(s, t) == StepRegister(s, t);
      case Unmap(refused) => assert StepPool(s, t) == StepUnmap(s, t, refused);
      case _ =>
    }
  }
}
