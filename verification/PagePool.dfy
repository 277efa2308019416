/**
 The lock-protected state of the page pool, updated in place (src/pool.rs:86-406, 571-587). Each
 method is one critical section and is tied to the function of `PoolSections` with which the
 interleaving machine steps, so what is proved of every run holds of these arrays and lists.

 A section is entered only in states where it does not panic; that every reachable state is such a
 state is `Theorems.NeverCrashes`.
 */
module PagePool {
  import opened Places
  import opened Tiling
  import opened PoolSections
  import opened PoolInvariant
  import opened PoolSteps
  import opened PoolDrop
  import opened Chains
  import opened PageList

  class PoolState {
    const dirty: PageFreeList
    const clean: PageFreeList
    var cursor: nat
    var end: nat
    var carving: nat
    const segments: array<nat>
    const segOutstanding: array<nat>
    var segmentCount: nat
    var outstandingSlabs: int
    var segmentMmapCount: nat
    var segmentMunmapCount: nat

    ghost predicate Valid()
      reads this, dirty, clean
    {
      && dirty != clean && dirty.Valid() && clean.Valid()
      && segments != segOutstanding && segmentCount <= MAX_SEGMENTS
      && segments.Length == segOutstanding.Length == MAX_SEGMENTS
    }

    ghost function View(): Pool
      reads this, dirty, clean, segments, segOutstanding
      requires Valid()
    {
      Pool(dirty.Contents, clean.Contents, cursor, end, carving,
           segments[..segmentCount], segOutstanding[..segmentCount], outstandingSlabs)
    }

    constructor ()
      ensures Valid() && View() == EMPTY
      ensures fresh(dirty) && fresh(clean) && fresh(segments) && fresh(segOutstanding)
      ensures segmentMmapCount == segmentMunmapCount == 0
    {
      dirty := new PageFreeList();
      clean := new PageFreeList();
      cursor, end, carving, segmentCount, outstandingSlabs := 0, 0, 0, 0, 0;
      segmentMmapCount, segmentMunmapCount := 0, 0;
      segments := new nat[MAX_SEGMENTS](_ => 0);
      segOutstanding := new nat[MAX_SEGMENTS](_ => 0);
    }

    /** `find_segment`; falling off the loop is the `unreachable!`. */
    method SegmentOf(p: Page) returns (i: nat)
      requires Valid() && FindSegment(View().segs, p).Some?
      ensures Some(i) == FindSegment(View().segs, p)
    {
      ghost var segs := View().segs;
      i := 0;
      while !(segments[i] <= p < segments[i] + SLABS_PER_SEGMENT)
        invariant i < segmentCount && FindSegment(segs, p) == FindFrom(segs, p, i)
        decreases segmentCount - i
      {
        i := i + 1;
      }
    }

    /** `seg_outstanding[find_segment(p)] += 1`. */
    method ChargePage(p: Page)
      requires Valid() && Charge(View(), p).Some?
      modifies segOutstanding
      ensures Valid() && View() == Charge(old(View()), p).value
    {
      var seg := SegmentOf(p);
      segOutstanding[seg] := segOutstanding[seg] + 1;
      assert View().out == old(View().out)[seg := old(View().out)[seg] + 1];
    }

    /** `seg_outstanding[find_segment(p)] -= 1`. */
    method DischargePage(p: Page) returns (seg: nat)
      requires Valid() && Discharge(View(), p).Some?
      modifies segOutstanding
      ensures Valid() && View() == Discharge(old(View()), p).value
      ensures Some(seg) == FindSegment(View().segs, p)
    {
      seg := SegmentOf(p);
      segOutstanding[seg] := segOutstanding[seg] - 1;
      assert View().out == old(View().out)[seg := old(View().out)[seg] - 1];
    }

    /** First section of `alloc_slab`; `None` sends the caller to the page allocator. */
    method Alloc() returns (r: Option<Page>)
      requires Valid() && !AllocSection(View()).AllocPanic?
      modifies this, dirty, clean, segOutstanding
      ensures Valid()
      ensures match AllocSection(old(View()))
              case AllocGot(o, p) => r == Some(p) && View() == o
              case AllocEmpty => r == None && View() == old(View())
    {
      ghost var o := View();
      r := dirty.Pop();
      if r.None? {
        r := clean.Pop();
      }
      if r.Some? {
        outstandingSlabs := outstandingSlabs + 1;
        ChargePage(r.value);
        return;
      }
      if cursor < end {
        r := Some(cursor);
        cursor := cursor + 1;
        segOutstanding[carving] := segOutstanding[carving] + 1;
        outstandingSlabs := outstandingSlabs + 1;
        assert View().out == o.out[carving := o.out[carving] + 1];
      }
    }

    /** The other pages of a new segment go to the clean list, last page first. */
    method PushRest(base: nat)
      requires clean.Valid() && forall p :: p in clean.Contents ==> !InSegment(base, p)
      modifies clean
      ensures clean.Valid() && clean.Contents == Range(base + 1, base + SLABS_PER_SEGMENT) + old(clean.Contents)
    {
      hide Chain, NoDup, Range, InSegment;
      ghost var q := clean.Contents;
      var i := SLABS_PER_SEGMENT;
      RangeNone(base + i, q);
      while i > 1
        invariant 1 <= i <= SLABS_PER_SEGMENT && clean.Valid()
        invariant clean.Contents == Range(base + i, base + SLABS_PER_SEGMENT) + q
      {
        i := i - 1;
        assert base + i !in q by { assert InSegment(base, base + i) by { InIts(base, i); } }
        RangeStep(base + i, base + SLABS_PER_SEGMENT, q);
        clean.Push(base + i);
      }
    }

    /** Second section of `alloc_slab_slow`; `None` is the over-capacity refusal. */
    method Register(base: nat) returns (r: Option<Page>)
      requires Valid() && forall p :: p in clean.Contents ==> !InSegment(base, p)
      modifies this, clean, segments, segOutstanding
      ensures Valid()
      ensures match RegisterSection(old(View()), base)
              case Some(o) => r == Some(base) && View() == o
              case None => r == None && View() == old(View())
      ensures segmentMmapCount == old(segmentMmapCount) + 1 && segmentMunmapCount == old(segmentMunmapCount)
    {
      hide Chain, NoDup, Range;
      ghost var o := View();
      segmentMmapCount := segmentMmapCount + 1;
      if segmentCount >= MAX_SEGMENTS {
        return None;
      }
      var seg := segmentCount;
      segments[seg] := base;
      segmentCount := seg + 1;
      segOutstanding[seg] := 1;
      outstandingSlabs := outstandingSlabs + 1;
      assert View().segs == o.segs + [base] && View().out == o.out + [1];
      if cursor < end {
        PushRest(base);
      } else {
        carving, cursor, end := seg, base + 1, base + SLABS_PER_SEGMENT;
      }
      r := Some(base);
    }

    /** `swap_remove_segment`. */
    method SwapRemoveSegment(i: nat)
      requires Valid() && i < segmentCount
      modifies this, segments, segOutstanding
      ensures Valid() && View() == SwapRemove(old(View()), i)
      ensures segmentMmapCount == old(segmentMmapCount) && segmentMunmapCount == old(segmentMunmapCount)
    {
      var last := segmentCount - 1;
      if i != last {
        segments[i] := segments[last];
        segOutstanding[i] := segOutstanding[last];
        if carving == last {
          carving := i;
        }
      }
      segments[last] := 0;
      segOutstanding[last] := 0;
      segmentCount := last;
      assert View().segs == SwapRemove(old(View()), i).segs;
      assert View().out == SwapRemove(old(View()), i).out;
    }

    /** The section of `dealloc_slab`: the segment to give back, or whether to purge. */
    method DeallocSlab(p: Page) returns (release: Option<nat>, purge: bool)
      requires Valid() && p !in dirty.Contents && !DeallocSection(View(), p).DeallocPanic?
      modifies this, dirty, clean, segments, segOutstanding
      ensures Valid()
      ensures match DeallocSection(old(View()), p)
              case DeallocReleased(o, base) => release == Some(base) && View() == o && !purge
              case DeallocKept(o, due) => release == None && View() == o && purge == due
      ensures segmentMmapCount == old(segmentMmapCount)
      ensures segmentMunmapCount == old(segmentMunmapCount) + if release.Some? then 1 else 0
    {
      hide Chain, NoDup, OutsideOf, FindSegment;
      dirty.Push(p);
      outstandingSlabs := outstandingSlabs - 1;
      var seg := DischargePage(p);
      if segOutstanding[seg] == 0 && !(segments[seg] <= cursor < segments[seg] + SLABS_PER_SEGMENT) {
        var base := segments[seg];
        dirty.RemoveSegment(base);
        clean.RemoveSegment(base);
        SwapRemoveSegment(seg);
        segmentMunmapCount := segmentMunmapCount + 1;
        return Some(base), false;
      }
      return None, dirty.len > PURGE_HIGH_WATER;
    }

    /** First section of `purge_excess`. */
    method TakeDirty() returns (buf: seq<Page>)
      requires Valid() && PurgeTake(View(), []).Some?
      modifies this, dirty, segOutstanding
      ensures Valid() && Some((View(), buf)) == PurgeTake(old(View()), [])
    {
      buf := [];
      while dirty.len > PURGE_LOW_WATER && |buf| < BATCH
        invariant Valid() && PurgeTake(View(), buf) == PurgeTake(old(View()), [])
        decreases dirty.len
      {
        var slab := dirty.Pop();
        ChargePage(slab.value);
        buf := buf + [slab.value];
      }
    }

    /** Second section of `purge_excess`. */
    method ReturnClean(buf: seq<Page>)
      requires Valid() && PurgeReturn(View(), buf).Some?
      requires NoDup(buf) && forall p :: p in buf ==> p !in clean.Contents
      modifies this, clean, segOutstanding
      ensures Valid() && Some(View()) == PurgeReturn(old(View()), buf)
    {
      for i := 0 to |buf|
        invariant Valid() && PurgeReturn(View(), buf[i..]) == PurgeReturn(old(View()), buf)
        invariant forall j :: i <= j < |buf| ==> buf[j] !in clean.Contents
      {
        var _ := DischargePage(buf[i]);
        clean.Push(buf[i]);
        assert buf[i..][1..] == buf[i + 1..];
      }
    }

    /** `purge_excess` with nobody else around. */
    method Purge(ghost m: Lists, ghost w: map<Page, PagePlace>, ghost t: Tid)
      requires Valid() && Pooled(View(), m, w) && At(m, Purging(t)) == []
      modifies this, dirty, clean, segOutstanding
      ensures Valid() && Some(View()) == PurgeExcess(old(View()))
    {
      hide Chain, NoDup, Pooled, PurgeTake, PurgeReturn;
      SameLists(View(), m, m[Purging(t) := []], w);
      ghost var w1 := PurgeTakeOK(View(), m, w, t, []);
      var buf := TakeDirty();
      BufferApart(View(), m, w1, t, buf);
      ghost var w2 := PurgeReturnOK(View(), m, w1, t, buf);
      ReturnClean(buf);
    }

    /** `dealloc_slab` with nobody else around; `given` is what goes back to the page allocator. */
    method DeallocAlone(p: Page, ghost m: Lists, ghost w: map<Page, PagePlace>, ghost t: Tid) returns (given: seq<nat>)
      requires Valid() && Pooled(View(), m[Raw(t) := [p]], w) && At(m, Raw(t)) == [] && At(m, Purging(t)) == []
      modifies this, dirty, clean, segments, segOutstanding
      ensures Valid() && Some((View(), given)) == Dealloc(old(View()), p)
    {
      hide Chain, NoDup, Pooled, PurgeExcess, DeallocSection;
      ghost var w' := DeallocOK(View(), m, w, t, p);
      RawNotDirty(View(), m, w, t, p);
      ghost var w1 := DeallocLists(View(), m, w, t, p);
      var release, purge := DeallocSlab(p);
      given := if release.Some? then [release.value] else [];
      if purge {
        Purge(m, w1, t);
      }
    }

    /** `Drop`: every registered segment goes back exactly once. */
    method Drop(cache: seq<Page>, ghost m: Lists, ghost w: map<Page, PagePlace>, ghost t: Tid) returns (given: seq<nat>)
      requires Valid() && Pooled(View(), m, w) && At(m, Cached) == cache
      requires At(m, Raw(t)) == [] && At(m, Purging(t)) == []
      modifies this, dirty, clean, segments, segOutstanding
      ensures Some(given) == DropPool(old(View()), cache, [])
      ensures multiset(given) == multiset(old(View().segs))
    {
      hide Chain, NoDup, Pooled, Dealloc, DropPool;
      DropExact(View(), m, w, t, []);
      var rest := cache;
      ghost var lists, places := m, w;
      given := [];
      while rest != []
        invariant Valid() && Pooled(View(), lists, places) && At(lists, Cached) == rest
        invariant At(lists, Raw(t)) == [] && At(lists, Purging(t)) == []
        invariant DropPool(View(), rest, given) == DropPool(old(View()), cache, [])
        decreases |rest|
      {
        var slab := rest[0];
        ghost var cached := rest;
        rest := rest[1..];
        UncacheOK(View(), lists, places, t);
        lists := lists[Cached := rest];
        ghost var places' := DeallocOK(View(), lists, places[slab := Raw(t)], t, slab);
        DropStep(View(), cached, given);
        var back := DeallocAlone(slab, lists, places[slab := Raw(t)], t);
        places := places';
        given := given + back;
      }
      DropLast(View(), given);
      ghost var before := given;
      for i := 0 to segmentCount
        invariant given == before + segments[..i]
      {
        given := given + [segments[i]];
      }
    }
  }

  lemma DropStep(o: Pool, cache: seq<Page>, given: seq<nat>)
    requires cache != [] && Dealloc(o, cache[0]).Some?
    ensures var (o', back) := Dealloc(o, cache[0]).value;
            DropPool(o, cache, given) == DropPool(o', cache[1..], given + back)
  {
    hide Dealloc;
  }

  lemma DropLast(o: Pool, given: seq<nat>)
    ensures DropPool(o, [], given) == Some(given + o.segs)
  {
  }

  lemma InIts(base: nat, i: nat)
    requires i < SLABS_PER_SEGMENT
    ensures InSegment(base, base + i)
  {
  }

  lemma RangeNone(a: nat, q: seq<Page>)
    ensures Range(a, a) + q == q
  {
  }

  lemma RangeStep(a: nat, b: nat, q: seq<Page>)
    requires a < b && a !in q
    ensures a !in Range(a + 1, b) + q
    ensures [a] + (Range(a + 1, b) + q) == Range(a, b) + q
  {
    assert Range(a, b) == [a] + Range(a + 1, b);
  }

  /** The buffer of a purge repeats no page and holds none that is clean. */
  lemma BufferApart(o: Pool, m: Lists, w: map<Page, PagePlace>, t: Tid, buf: seq<Page>)
    requires Pooled(o, m[Purging(t) := buf], w)
    ensures NoDup(buf) && forall p :: p in buf ==> p !in o.clean
  {
    hide PoolInv;
    var lists := PageLists(o, m[Purging(t) := buf]);
    assert At(lists, Purging(t)) == buf && At(lists, Clean) == o.clean;
    assert NoDup(At(lists, Purging(t)));
    assert forall p :: p in At(lists, Purging(t)) ==> p !in At(lists, Clean);
  }

  lemma RawNotDirty(o: Pool, m: Lists, w: map<Page, PagePlace>, t: Tid, p: Page)
    requires Pooled(o, m[Raw(t) := [p]], w)
    ensures p !in o.dirty
  {
    hide PoolInv;
    var lists := PageLists(o, m[Raw(t) := [p]]);
    assert At(lists, Raw(t)) == [p] && At(lists, Dirty) == o.dirty;
    assert p in At(lists, Raw(t));
  }

  /** The lists after the section of `dealloc_slab` that releases nothing. */
  lemma DeallocLists(o: Pool, m: Lists, w: map<Page, PagePlace>, t: Tid, p: Page) returns (w': map<Page, PagePlace>)
    requires Pooled(o, m[Raw(t) := [p]], w) && At(m, Raw(t)) == []
    ensures !DeallocSection(o, p).DeallocPanic?
    ensures DeallocSection(o, p).DeallocKept? ==> Pooled(DeallocSection(o, p).pool, m, w')
  {
    hide Tiled, PoolInv, Pooled;
    var m1 := m[Raw(t) := [p]];
    ReturnedOK(o, m1, w, t);
    w' := w[p := Dirty];
    var o1 := Returned(o, p).value;
    assert At(m1, Raw(t)) == [p] && [p][1..] == [];
    SameLists(o1, m1[Raw(t) := []], m, w');
    PooledInv(o1, m, w');
    ReturnedSection(o, p, w');
  }
}
