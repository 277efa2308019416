/**
 The critical sections of the page pool.

 Each function is what one acquisition of the pool lock does to the lock-protected state. Where
 the code would panic (`unreachable!`, an underflowing counter) the section says so, so that
 "never panics" is a theorem and not a precondition.
 */
module PoolSections {
  import opened Places

  const SLABS_PER_SEGMENT: nat := 32
  const MAX_SEGMENTS: nat := 4096
  const PURGE_HIGH_WATER: nat := 64
  const PURGE_LOW_WATER: nat := 32
  const BATCH: nat := PURGE_HIGH_WATER - PURGE_LOW_WATER

  datatype Pool = Pool(
    dirty: seq<Page>, clean: seq<Page>,
    cursor: nat, end: nat, carving: nat,
    segs: seq<nat>, out: seq<nat>,
    outstanding: int)               // the `outstanding_slabs` gauge

  const EMPTY := Pool([], [], 0, 0, 0, [], [], 0)

  predicate InSegment(base: nat, p: Page) {
    base <= p < base + SLABS_PER_SEGMENT
  }

  /** `find_segment`: the first registered segment around `p`; `None` is the `unreachable!`. */
  function FindSegment(segs: seq<nat>, p: Page): (r: Option<nat>)
    ensures r.Some? ==> r.value < |segs| && InSegment(segs[r.value], p)
    ensures r.None? ==> forall i :: 0 <= i < |segs| ==> !InSegment(segs[i], p)
  {
    FindFrom(segs, p, 0)
  }

  function FindFrom(segs: seq<nat>, p: Page, i: nat): (r: Option<nat>)
    requires i <= |segs|
    ensures r.Some? ==> i <= r.value < |segs| && InSegment(segs[r.value], p)
    ensures r.Some? ==> forall j :: i <= j < r.value ==> !InSegment(segs[j], p)
    ensures r.None? ==> forall j :: i <= j < |segs| ==> !InSegment(segs[j], p)
    decreases |segs| - i
  {
    if i == |segs| then None
    else if InSegment(segs[i], p) then Some(i)
    else FindFrom(segs, p, i + 1)
  }

  /** `seg_outstanding[seg] += 1` for the segment of `p`. */
  function Charge(o: Pool, p: Page): (r: Option<Pool>) {
    match FindSegment(o.segs, p)
    case Some(i) => if i < |o.out| then Some(o.(out := o.out[i := o.out[i] + 1])) else None
    case None => None
  }

  /** `seg_outstanding[seg] -= 1` for the segment of `p`. */
  function Discharge(o: Pool, p: Page): (r: Option<Pool>) {
    match FindSegment(o.segs, p)
    case Some(i) => if i < |o.out| && o.out[i] > 0 then Some(o.(out := o.out[i := o.out[i] - 1])) else None
    case None => None
  }

  datatype AllocOut = AllocPanic | AllocEmpty | AllocGot(pool: Pool, page: Page)

  /** First section of `alloc_slab`: dirty list, then clean list, then the carving cursor. */
  function AllocSection(o: Pool): AllocOut {
    if o.dirty != [] then
      match Charge(o.(dirty := o.dirty[1..], outstanding := o.outstanding + 1), o.dirty[0])
      case Some(o') => AllocGot(o', o.dirty[0])
      case None => AllocPanic
    else if o.clean != [] then
      match Charge(o.(clean := o.clean[1..], outstanding := o.outstanding + 1), o.clean[0])
      case Some(o') => AllocGot(o', o.clean[0])
      case None => AllocPanic
    else if o.cursor < o.end then
      if o.carving < |o.out| then
        AllocGot(o.(cursor := o.cursor + 1, outstanding := o.outstanding + 1,
                    out := o.out[o.carving := o.out[o.carving] + 1]), o.cursor)
      else AllocPanic
    else AllocEmpty
  }

  /** The pages `[a, b)`, ascending. */
  function Range(a: nat, b: nat): (q: seq<Page>)
    ensures |q| == if a < b then b - a else 0
    ensures forall i :: 0 <= i < |q| ==> q[i] == a + i
  {
    if a < b then seq(b - a, i requires 0 <= i => a + i) else []
  }

  /** Second section of `alloc_slab_slow`; `None` is the over-capacity refusal. */
  function RegisterSection(o: Pool, base: nat): Option<Pool> {
    if |o.segs| >= MAX_SEGMENTS then None
    else
      var o' := o.(segs := o.segs + [base], out := o.out + [1], outstanding := o.outstanding + 1);
      Some(
        if o.cursor < o.end then
          o'.(clean := Range(base + 1, base + SLABS_PER_SEGMENT) + o.clean)
        else
          o'.(carving := |o.segs|, cursor := base + 1, end := base + SLABS_PER_SEGMENT))
  }

  /** `remove_if` as a function: the elements outside the segment, in order. */
  function OutsideOf(base: nat, q: seq<Page>): (r: seq<Page>)
    ensures forall p :: p in r <==> p in q && !InSegment(base, p)
    ensures |r| <= |q|
  {
    if q == [] then []
    else
      var r := OutsideOf(base, q[1..]);
      if InSegment(base, q[0]) then r else [q[0]] + r
  }

  /** `segment_fully_carved`. */
  predicate FullyCarved(o: Pool, i: nat)
    requires i < |o.segs|
  {
    !InSegment(o.segs[i], o.cursor)
  }

  /** `swap_remove_segment`. */
  function SwapRemove(o: Pool, i: nat): Pool
    requires i < |o.segs| == |o.out|
  {
    var last := |o.segs| - 1;
    o.(segs := o.segs[i := o.segs[last]][..last],
       out := o.out[i := o.out[last]][..last],
       carving := if i != last && o.carving == last then i else o.carving)
  }

  /** `remove_segment_slabs` followed by `swap_remove_segment`. */
  function ReleaseSegment(o: Pool, i: nat): Pool
    requires i < |o.segs| == |o.out|
  {
    SwapRemove(o.(dirty := OutsideOf(o.segs[i], o.dirty), clean := OutsideOf(o.segs[i], o.clean)), i)
  }

  datatype DeallocOut =
    | DeallocPanic
    | DeallocKept(pool: Pool, purge: bool)
    | DeallocReleased(pool: Pool, base: nat)

  /** The section of `dealloc_slab`. */
  function DeallocSection(o: Pool, p: Page): DeallocOut {
    match Discharge(o.(dirty := [p] + o.dirty, outstanding := o.outstanding - 1), p)
    case None => DeallocPanic
    case Some(o') =>
      var i := FindSegment(o.segs, p).value;
      if |o'.out| == |o'.segs| && o'.out[i] == 0 && FullyCarved(o', i) then
        DeallocReleased(ReleaseSegment(o', i), o.segs[i])
      else
        DeallocKept(o', |o'.dirty| > PURGE_HIGH_WATER)
  }

  /** First section of `purge_excess`: fill the buffer, keeping the pages counted. */
  function PurgeTake(o: Pool, buf: seq<Page>): Option<(Pool, seq<Page>)>
    decreases |o.dirty|
  {
    if |o.dirty| > PURGE_LOW_WATER && |buf| < BATCH then
      match Charge(o.(dirty := o.dirty[1..]), o.dirty[0])
      case Some(o') => PurgeTake(o', buf + [o.dirty[0]])
      case None => None
    else Some((o, buf))
  }

  /** Second section of `purge_excess`: the buffered pages go to the clean list. */
  function PurgeReturn(o: Pool, buf: seq<Page>): Option<Pool>
    decreases |buf|
  {
    if buf == [] then Some(o)
    else
      match Discharge(o, buf[0])
      case Some(o') => PurgeReturn(o'.(clean := [buf[0]] + o'.clean), buf[1..])
      case None => None
  }
}
