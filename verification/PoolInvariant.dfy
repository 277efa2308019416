/**
 What the page pool keeps true of its counters, and how each counter update keeps it.
 `w` records the place of every page of every registered segment.
 */
module PoolInvariant {
  import opened Places
  import opened PoolSections
  import opened Tiling

  /** Two segments that share no page. */
  predicate Apart(a: nat, b: nat) {
    a + SLABS_PER_SEGMENT <= b || b + SLABS_PER_SEGMENT <= a
  }

  ghost predicate AllApart(segs: seq<nat>) {
    forall i, j :: 0 <= i < j < |segs| ==> Apart(segs[i], segs[j])
  }

  /** The known pages are exactly the pages of the registered segments. */
  ghost predicate Covers(segs: seq<nat>, w: map<Page, PagePlace>) {
    && (forall p :: p in w ==> FindSegment(segs, p).Some?)
    && (forall i, p: Page {:trigger InSegment(segs[i], p)} :: 0 <= i < |segs| && InSegment(segs[i], p) ==> p in w)
  }

  ghost function OutIn(w: map<Page, PagePlace>, base: nat): set<Page> {
    set p | p in w && InSegment(base, p) && w[p].Out()
  }

  /** `seg_outstanding` counts exactly the pages that are not uncarved, dirty or clean. */
  ghost predicate Counted(segs: seq<nat>, out: seq<nat>, w: map<Page, PagePlace>) {
    && |segs| == |out|
    && forall i :: 0 <= i < |segs| ==> out[i] == |OutIn(w, segs[i])|
  }

  ghost function InUse(w: map<Page, PagePlace>): set<Page> {
    set p | p in w && w[p].Out() && !w[p].Purging?
  }

  ghost predicate CursorOK(o: Pool) {
    o.cursor < o.end ==> o.carving < |o.segs| && InSegment(o.segs[o.carving], o.cursor)
                         && o.end == o.segs[o.carving] + SLABS_PER_SEGMENT
  }

  ghost predicate PoolInv(o: Pool, w: map<Page, PagePlace>) {
    && |o.segs| <= MAX_SEGMENTS
    && AllApart(o.segs)
    && Covers(o.segs, w)
    && Counted(o.segs, o.out, w)
    && CursorOK(o)
    && o.outstanding == |InUse(w)|
  }

  /** All page lists: those of the pool beside those of the threads and the lock-free stacks. */
  function PageLists(o: Pool, m: map<PagePlace, seq<Page>>): map<PagePlace, seq<Page>> {
    m[Dirty := o.dirty][Clean := o.clean][Uncarved := Range(o.cursor, o.end)]
  }

  /** Only one segment contains a given page. */
  lemma OneSegment(segs: seq<nat>, p: Page, i: nat)
    requires AllApart(segs) && i < |segs| && InSegment(segs[i], p)
    ensures FindSegment(segs, p) == Some(i)
  {
    assert forall j :: 0 <= j < i ==> Apart(segs[j], segs[i]);
    assert forall j :: i < j < |segs| ==> Apart(segs[i], segs[j]);
  }

  lemma RangeMember(a: nat, b: nat, p: Page)
    ensures p in Range(a, b) <==> a <= p < b
  {
    if a <= p < b { assert Range(a, b)[p - a] == p; }
  }

  ghost function SegmentPages(base: nat): set<Page> {
    Elems(Range(base, base + SLABS_PER_SEGMENT))
  }

  lemma SegmentSize(base: nat)
    ensures |SegmentPages(base)| == SLABS_PER_SEGMENT
    ensures forall p :: p in SegmentPages(base) <==> InSegment(base, p)
  {
    var q := Range(base, base + SLABS_PER_SEGMENT);
    ElemsSize(q);
    forall p: Page | InSegment(base, p) ensures p in q { assert q[p - base] == p; }
  }

  /** A counter never exceeds the pages of its segment. */
  lemma OutBound(w: map<Page, PagePlace>, base: nat)
    ensures |OutIn(w, base)| <= SLABS_PER_SEGMENT
  {
    SegmentSize(base);
    SubsetSize(OutIn(w, base), SegmentPages(base));
  }

  /** A page moves between two places on the same side of the counter. */
  lemma CountedSame(segs: seq<nat>, out: seq<nat>, w: map<Page, PagePlace>, p: Page, b: PagePlace)
    requires Counted(segs, out, w) && p in w && w[p].Out() == b.Out()
    ensures Counted(segs, out, w[p := b])
  {
    forall i | 0 <= i < |segs| ensures out[i] == |OutIn(w[p := b], segs[i])| {
      assert OutIn(w[p := b], segs[i]) == OutIn(w, segs[i]);
    }
  }

  lemma CountedFlip(segs: seq<nat>, out: seq<nat>, w: map<Page, PagePlace>, p: Page, b: PagePlace, i: nat)
    requires AllApart(segs) && Counted(segs, out, w) && p in w && w[p].Out() != b.Out()
    requires i < |segs| && InSegment(segs[i], p)
    ensures !b.Out() ==> out[i] > 0
    ensures Counted(segs, out[i := if b.Out() then out[i] + 1 else out[i] - 1], w[p := b])
  {
    var w' := w[p := b];
    if b.Out() {
      assert OutIn(w', segs[i]) == OutIn(w, segs[i]) + {p};
    } else {
      assert OutIn(w', segs[i]) == OutIn(w, segs[i]) - {p};
    }
    var out' := out[i := |OutIn(w', segs[i])|];
    forall j | 0 <= j < |segs| ensures out'[j] == |OutIn(w', segs[j])| {
      if j != i {
        if j < i { assert Apart(segs[j], segs[i]); } else { assert Apart(segs[i], segs[j]); }
        assert OutIn(w', segs[j]) == OutIn(w, segs[j]);
      }
    }
  }

  lemma CoversMove(segs: seq<nat>, w: map<Page, PagePlace>, p: Page, b: PagePlace)
    requires Covers(segs, w) && p in w
    ensures Covers(segs, w[p := b])
  {
  }

  /** The gauge sees a page enter or leave use. */
  lemma InUseMove(w: map<Page, PagePlace>, p: Page, b: PagePlace)
    requires p in w
    ensures |InUse(w[p := b])| == |InUse(w)|
                                  + (if b.Out() && !b.Purging? then 1 else 0)
                                  - (if w[p].Out() && !w[p].Purging? then 1 else 0)
  {
    var before, after := w[p].Out() && !w[p].Purging?, b.Out() && !b.Purging?;
    var rest := InUse(w) - {p};
    assert InUse(w) == if before then rest + {p} else rest;
    assert InUse(w[p := b]) == if after then rest + {p} else rest;
  }

  /** A page that stays in use moves between two lists. */
  lemma PoolInvMove(o: Pool, w: map<Page, PagePlace>, p: Page, b: PagePlace)
    requires PoolInv(o, w) && p in w
    requires w[p].Out() && b.Out() && !w[p].Purging? && !b.Purging?
    ensures PoolInv(o, w[p := b])
  {
    CountedSame(o.segs, o.out, w, p, b);
    CoversMove(o.segs, w, p, b);
    InUseMove(w, p, b);
  }

  /** `Charge` succeeds and the counters follow the page out. */
  lemma ChargeOK(o: Pool, w: map<Page, PagePlace>, p: Page, b: PagePlace)
    requires AllApart(o.segs) && Covers(o.segs, w) && Counted(o.segs, o.out, w)
    requires p in w && !w[p].Out() && b.Out()
    ensures Charge(o, p).Some?
    ensures Charge(o, p).value == o.(out := Charge(o, p).value.out)
    ensures Counted(o.segs, Charge(o, p).value.out, w[p := b]) && Covers(o.segs, w[p := b])
  {
    CountedFlip(o.segs, o.out, w, p, b, FindSegment(o.segs, p).value);
    CoversMove(o.segs, w, p, b);
  }

  lemma DischargeOK(o: Pool, w: map<Page, PagePlace>, p: Page, b: PagePlace)
    requires AllApart(o.segs) && Covers(o.segs, w) && Counted(o.segs, o.out, w)
    requires p in w && w[p].Out() && !b.Out()
    ensures Discharge(o, p).Some?
    ensures Discharge(o, p).value == o.(out := Discharge(o, p).value.out)
    ensures Counted(o.segs, Discharge(o, p).value.out, w[p := b]) && Covers(o.segs, w[p := b])
  {
    CountedFlip(o.segs, o.out, w, p, b, FindSegment(o.segs, p).value);
    CoversMove(o.segs, w, p, b);
  }
}
