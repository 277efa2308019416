/**
 A consistent pool in which a purge leaves a free segment registered (src/pool.rs:320-359).

 Three segments, at pages 32, 64 and 96, are fully carved; the cursor stands at the end of the last.
 A thread found 65 dirty pages and took 32 of them to purge: pages 33 to 64. Then page 32, the last
 page of the first segment in use, comes back. The 31 pages in the buffer still count, so the segment
 is kept; when the buffer is returned all its 32 pages are free, and nobody gives it back.
 */
module PurgeExample {
  import opened Places
  import opened Tiling
  import opened PoolSections
  import opened PoolInvariant
  import opened PoolSteps

  const SEGS: seq<nat> := [32, 64, 96]

  /** What the purge left dirty: 33 pages. */
  function LeftDirty(): seq<Page> {
    Range(65, 95) + Range(96, 99)
  }

  function InCache(): seq<Page> {
    [95] + Range(99, 128)
  }

  /** The pool while page 32 is on its way back. */
  function Before(): Pool {
    Pool(LeftDirty(), [], 128, 128, 2, SEGS, [32, 2, 29], 31)
  }

  /** The pool once page 32 is dirty. */
  function After(): Pool {
    Pool([32] + LeftDirty(), [], 128, 128, 2, SEGS, [31, 2, 29], 30)
  }

  /** The lists outside the lock: the cache, and the buffer of thread 0. */
  function Outside32(): Lists {
    map[Cached := InCache(), Purging(0) := Range(33, 65)]
  }

  function PlaceOf(p: Page): PagePlace {
    if 33 <= p < 65 then Purging(0)
    else if p == 95 || p >= 99 then Cached
    else Dirty
  }

  /** Where every page is once page 32 is dirty. */
  ghost function Where(): map<Page, PagePlace> {
    map p: Page | 32 <= p < 128 :: PlaceOf(p)
  }

  lemma DirtyMembers()
    ensures NoDup(LeftDirty()) && |LeftDirty()| == 33
    ensures forall p: Page :: p in LeftDirty() <==> 65 <= p < 95 || 96 <= p < 99
  {
    forall p: Page ensures p in LeftDirty() <==> 65 <= p < 95 || 96 <= p < 99 {
      RangeMember(65, 95, p);
      RangeMember(96, 99, p);
    }
    forall p | p in Range(96, 99) ensures p !in Range(65, 95) { RangeMember(65, 95, p); }
    NoDupConcat(Range(65, 95), Range(96, 99));
  }

  lemma CacheMembers()
    ensures NoDup(InCache()) && |InCache()| == 30
    ensures forall p: Page :: p in InCache() <==> p == 95 || 99 <= p < 128
  {
    forall p: Page ensures p in InCache() <==> p == 95 || 99 <= p < 128 { RangeMember(99, 128, p); }
    forall p | p in Range(99, 128) ensures p !in [95] { RangeMember(99, 128, p); }
    NoDupConcat([95], Range(99, 128));
  }

  lemma ListsAt(a: PagePlace)
    ensures At(PageLists(After(), Outside32()), a) ==
            match a
            case Dirty => [32] + LeftDirty()
            case Cached => InCache()
            case Purging(t) => if t == 0 then Range(33, 65) else []
            case _ => []
  {
    hide LeftDirty, InCache;
    assert Range(128, 128) == [];
  }

  lemma ListTiled(a: PagePlace)
    ensures NoDup(At(PageLists(After(), Outside32()), a))
    ensures forall p: Page :: p in At(PageLists(After(), Outside32()), a) <==> 32 <= p < 128 && PlaceOf(p) == a
  {
    hide LeftDirty, InCache, After, Outside32, PageLists;
    ListsAt(a);
    DirtyMembers();
    CacheMembers();
    match a {
      case Dirty => NoDupConcat([32], LeftDirty());
      case Purging(t) =>
        forall p: Page ensures p in Range(33, 65) <==> 33 <= p < 65 { RangeMember(33, 65, p); }
      case _ =>
    }
  }

  lemma PoolTiled()
    ensures Tiled(PageLists(After(), Outside32()), Where())
  {
    hide LeftDirty, InCache, After, Outside32, PageLists, PlaceOf, NoDup;
    forall a: PagePlace
      ensures NoDup(At(PageLists(After(), Outside32()), a))
      ensures forall p: Page :: p in At(PageLists(After(), Outside32()), a) <==> 32 <= p < 128 && PlaceOf(p) == a
    {
      ListTiled(a);
    }
  }

  /** The counters of the three segments and the gauge. */
  lemma PoolCounts()
    ensures Counted(SEGS, [31, 2, 29], Where()) && |InUse(Where())| == 30
  {
    var w := Where();
    forall p: Page
      ensures p in Range(33, 64) <==> 33 <= p < 64
      ensures p in Range(99, 128) <==> 99 <= p < 128
    {
      RangeMember(33, 64, p);
      RangeMember(99, 128, p);
    }
    ElemsSize(Range(33, 64));
    ElemsSize(Range(99, 128));
    CacheMembers();
    ElemsSize(InCache());
    hide Range, InCache;
    assert OutIn(w, 32) == Elems(Range(33, 64));
    assert OutIn(w, 64) == {64, 95};
    assert OutIn(w, 96) == Elems(Range(99, 128));
    assert InUse(w) == Elems(InCache());
  }

  lemma PoolCovers()
    ensures Covers(SEGS, Where()) && AllApart(SEGS)
  {
    forall p | p in Where() ensures FindSegment(SEGS, p).Some? {
      assert InSegment(SEGS[0], p) || InSegment(SEGS[1], p) || InSegment(SEGS[2], p);
    }
  }

  /** The pool is as consistent as every pool of a run: lists tiled, counters exact, cursor right. */
  lemma Consistent()
    ensures Pooled(After(), Outside32(), Where())
  {
    hide Tiled, Counted, Covers, AllApart, Where, InUse, PageLists, LeftDirty, InCache;
    PoolTiled();
    PoolCounts();
    PoolCovers();
  }

  /** Page 32 comes back, and its segment is kept because the buffer counts. */
  lemma LastPageReturns()
    ensures DeallocSection(Before(), 32) == DeallocKept(After(), false)
  {
    hide LeftDirty;
    DirtyMembers();
    assert FindSegment(SEGS, 32) == Some(0);
    var o := Before().(dirty := [32] + LeftDirty(), outstanding := 30);
    assert Discharge(o, 32) == Some(After()) by {
      assert [32, 2, 29][0 := 31] == [31, 2, 29];
    }
  }

  /**
   The purge ends: all 32 pages of the first segment are free, its counter is zero and the cursor is
   elsewhere, and it is still registered.
   */
  lemma PurgeKeepsFreeSegment()
    ensures |Range(33, 65)| == BATCH && |After().dirty| == PURGE_LOW_WATER + 2
    ensures PurgeReturn(After(), Range(33, 65)).Some?
    ensures var o := PurgeReturn(After(), Range(33, 65)).value;
            && o.segs == SEGS && |o.out| == 3
            && AllFree(o, SEGS[0]) && o.out[0] == 0 && FullyCarved(o, 0)
  {
    hide Pooled, Where, LeftDirty, InCache;
    DirtyMembers();
    Consistent();
    var m := Outside32();
    assert m[Purging(0) := Range(33, 65)] == m;
    var w := PurgeReturnOK(After(), m, Where(), 0, Range(33, 65));
    PurgeReturnMembers(After(), Range(33, 65));
    hide PurgeReturn;
    var o := PurgeReturn(After(), Range(33, 65)).value;
    forall q: Page | InSegment(SEGS[0], q) ensures q in o.dirty || q in o.clean {
      if q == 32 { assert o.dirty[0] == 32; } else { RangeMember(33, 65, q); }
    }
    PooledLengths(o, m[Purging(0) := []], w);
    FreeCountsZero(o, m[Purging(0) := []], w, 0);
  }
}
