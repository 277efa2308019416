/**
 The end of a pool: `Drop` drains the cache of free pages through `dealloc_slab`, then gives back
 every segment still registered (src/pool.rs:571-587).
 */
module PoolDrop {
  import opened Places
  import opened Tiling
  import opened PoolSections
  import opened PoolInvariant
  import opened PoolSteps

  /** `purge_excess` with nobody else around. */
  function PurgeExcess(o: Pool): Option<Pool> {
    match PurgeTake(o, [])
    case None => None
    case Some((o', buf)) => PurgeReturn(o', buf)
  }

  /** `dealloc_slab` with nobody else around, and the segments it gives back; `None` is a panic. */
  function Dealloc(o: Pool, p: Page): Option<(Pool, seq<nat>)> {
    match DeallocSection(o, p)
    case DeallocPanic => None
    case DeallocReleased(o', base) => Some((o', [base]))
    case DeallocKept(o', purge) =>
      if !purge then Some((o', []))
      else
        match PurgeExcess(o')
        case None => None
        case Some(o'') => Some((o'', []))
  }

  /** The segments given back by `Drop`, in order; `given` are those given back so far. */
  function DropPool(o: Pool, cache: seq<Page>, given: seq<nat>): Option<seq<nat>>
    decreases |cache|
  {
    if cache == [] then Some(given + o.segs)
    else
      match Dealloc(o, cache[0])
      case None => None
      case Some((o', back)) => DropPool(o', cache[1..], given + back)
  }

  lemma UncacheLists(o: Pool, m: Lists, t: Tid)
    requires At(m, Cached) != [] && At(m, Raw(t)) == []
    ensures var m1 := m[Cached := At(m, Cached)[1..]][Raw(t) := [At(m, Cached)[0]]];
            && PageLists(o, m1) == Shift(PageLists(o, m), Cached, 0, Raw(t))
            && At(PageLists(o, m), Cached) == At(m, Cached)
  {
    assert Without(At(m, Cached), 0) == At(m, Cached)[1..];
    assert [At(m, Cached)[0]] + [] == [At(m, Cached)[0]];
  }

  /** A page leaves the cache for the hands of `t`. */
  lemma UncacheOK(o: Pool, m: Lists, w: map<Page, PagePlace>, t: Tid)
    requires Pooled(o, m, w) && At(m, Cached) != [] && At(m, Raw(t)) == []
    ensures var p := At(m, Cached)[0];
            Pooled(o, m[Cached := At(m, Cached)[1..]][Raw(t) := [p]], w[p := Raw(t)])
  {
    hide Tiled, PoolInv;
    UncacheLists(o, m, t);
    ShiftTiled(PageLists(o, m), w, Cached, 0, Raw(t));
    PoolInvMove(o, w, At(m, Cached)[0], Raw(t));
  }

  /** Lists with the same contents tile alike. */
  lemma SameLists(o: Pool, m: Lists, m': Lists, w: map<Page, PagePlace>)
    requires Pooled(o, m, w) && forall a: PagePlace :: At(m', a) == At(m, a)
    ensures Pooled(o, m', w)
  {
    hide Tiled, PoolInv, Range;
    var n, n' := PageLists(o, m), PageLists(o, m');
    forall a: PagePlace ensures At(n', a) == At(n, a) {
      assert At(m', a) == At(m, a);
    }
    SameTiled(n, n', w);
  }

  /** A purge outside any run of others: every page stays where the counters expect it. */
  lemma PurgeExcessOK(o: Pool, m: Lists, w: map<Page, PagePlace>, t: Tid) returns (w': map<Page, PagePlace>)
    requires Pooled(o, m, w) && At(m, Purging(t)) == []
    ensures PurgeExcess(o).Some?
    ensures var o' := PurgeExcess(o).value;
            && Pooled(o', m, w') && o'.segs == o.segs
            && |o'.dirty| == AfterPurge(|o.dirty|)
  {
    hide Tiled, PoolInv;
    SameLists(o, m, m[Purging(t) := []], w);
    hide Pooled;
    w' := PurgeTakeOK(o, m, w, t, []);
    var (o1, buf) := PurgeTake(o, []).value;
    w' := PurgeReturnOK(o1, m, w', t, buf);
    SameLists(PurgeReturn(o1, buf).value, m[Purging(t) := []], m, w');
  }

  /**
   `dealloc_slab` on its own: no panic, the given-back segment is one of the registered ones and the
   others stay. If no segment goes back the dirty list is one page longer, or, when that takes it
   over the high-water mark, as long as a purge leaves it.
   */
  lemma DeallocOK(o: Pool, m: Lists, w: map<Page, PagePlace>, t: Tid, p: Page) returns (w': map<Page, PagePlace>)
    requires Pooled(o, m[Raw(t) := [p]], w) && At(m, Raw(t)) == [] && At(m, Purging(t)) == []
    ensures Dealloc(o, p).Some?
    ensures var (o', back) := Dealloc(o, p).value;
            && Pooled(o', m, w')
            && multiset(back) + multiset(o'.segs) == multiset(o.segs)
            && (|o.dirty| <= PURGE_HIGH_WATER ==> |o'.dirty| <= PURGE_HIGH_WATER)
            && (back == [] ==>
                  |o'.dirty| == if |o.dirty| < PURGE_HIGH_WATER then |o.dirty| + 1 else AfterPurge(|o.dirty| + 1))
  {
    hide Tiled, PoolInv, Pooled;
    var m1 := m[Raw(t) := [p]];
    ReturnedOK(o, m1, w, t);
    w' := w[p := Dirty];
    var o1 := Returned(o, p).value;
    assert At(m1, Raw(t)) == [p] && [p][1..] == [];
    SameLists(o1, m1[Raw(t) := []], m, w');
    assert PoolInv(o1, w') by { PooledInv(o1, m, w'); }
    ReturnedSection(o, p, w');
    DeallocDirty(o, p);
    hide DeallocSection, FullyCarved, ReleaseSegment, PurgeExcess, FindSegment;
    var i := FindSegment(o.segs, p).value;
    if o1.out[i] == 0 && FullyCarved(o1, i) {
      ReleaseOK(o1, m, w', i);
      w' := Outside(w', o1.segs[i]);
      ReleasedSegs(o1, i);
    } else if |o1.dirty| > PURGE_HIGH_WATER {
      w' := PurgeExcessOK(o1, m, w', t);
    }
  }

  /**
   A purge does not reach the low-water mark of 32: from a dirty list within the high-water mark, a
   lone `dealloc_slab` that purges starts from 65 pages, takes a full buffer of 32, and leaves 33.
   */
  lemma LonePurgeLeaves33(o: Pool, m: Lists, w: map<Page, PagePlace>, t: Tid, p: Page)
    requires Pooled(o, m[Raw(t) := [p]], w) && At(m, Raw(t)) == [] && At(m, Purging(t)) == []
    requires |o.dirty| <= PURGE_HIGH_WATER && DeallocSection(o, p).DeallocKept? && DeallocSection(o, p).purge
    ensures |o.dirty| == PURGE_HIGH_WATER && |DeallocSection(o, p).pool.dirty| == 65
    ensures Dealloc(o, p).Some? && |Dealloc(o, p).value.0.dirty| == 33 == PURGE_LOW_WATER + 1
  {
    hide Pooled, DeallocSection;
    DeallocDirty(o, p);
    var w' := DeallocOK(o, m, w, t, p);
  }

  lemma PooledInv(o: Pool, m: Lists, w: map<Page, PagePlace>)
    requires Pooled(o, m, w)
    ensures PoolInv(o, w)
  {
  }

  lemma ReleasedSegs(o: Pool, i: nat)
    requires i < |o.segs| == |o.out|
    ensures multiset([o.segs[i]]) + multiset(ReleaseSegment(o, i).segs) == multiset(o.segs)
  {
    hide OutsideOf;
    var last := |o.segs| - 1;
    var kept := ReleaseSegment(o, i).segs;
    if i == last {
      assert o.segs == kept + [o.segs[last]];
    } else {
      var a, b := o.segs[..i], o.segs[i + 1..last];
      assert o.segs == a + [o.segs[i]] + b + [o.segs[last]];
      assert kept == a + [o.segs[last]] + b;
    }
  }

  /**
   From any consistent pool nobody is working in, `Drop` does not panic and gives back every
   registered segment exactly once, whatever the places of its pages.
   */
  lemma {:induction false} DropExact(o: Pool, m: Lists, w: map<Page, PagePlace>, t: Tid, given: seq<nat>)
    requires Pooled(o, m, w) && At(m, Raw(t)) == [] && At(m, Purging(t)) == []
    ensures DropPool(o, At(m, Cached), given).Some?
    ensures multiset(DropPool(o, At(m, Cached), given).value) == multiset(given) + multiset(o.segs)
    decreases |At(m, Cached)|
  {
    hide Pooled, Dealloc;
    if At(m, Cached) != [] {
      var p := At(m, Cached)[0];
      var m1 := m[Cached := At(m, Cached)[1..]];
      UncacheOK(o, m, w, t);
      var w' := DeallocOK(o, m1, w[p := Raw(t)], t, p);
      var (o', back) := Dealloc(o, p).value;
      DropExact(o', m1, w', t, given + back);
    }
  }
}
