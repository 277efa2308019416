/**
 The counters, the registry array and the snapshot, updated in place (src/metrics.rs:34-298). Each
 method is tied to the functions of `HeapRegistry`, where whole runs are reasoned about.
 */
module Metrics {
  import opened Places
  import opened SizeClasses
  import opened HeapRegistry

  class HeapMetrics {
    var registryIdx: nat
    var allocBytes: nat
    var freeBytes: nat
    var classAllocCount: seq<nat>
    var classDeallocCount: seq<nat>
    var classAllocBytes: seq<nat>
    var classFreeBytes: seq<nat>
    var remoteFreeCount: nat
    var largeAllocCount: nat
    var largeAllocBytes: nat
    var largeDeallocBytes: nat

    function View(): Totals
      reads this`allocBytes, this`freeBytes, this`remoteFreeCount
      reads this`largeAllocCount, this`largeAllocBytes, this`largeDeallocBytes
      reads this`classAllocCount, this`classDeallocCount, this`classAllocBytes, this`classFreeBytes
    {
      Totals(allocBytes, freeBytes, remoteFreeCount, largeAllocCount, largeAllocBytes, largeDeallocBytes,
             classAllocCount, classDeallocCount, classAllocBytes, classFreeBytes)
    }

    constructor ()
      ensures View() == Zero() && registryIdx == 0xFFFF_FFFF
    {
      registryIdx := 0xFFFF_FFFF;
      allocBytes, freeBytes, remoteFreeCount := 0, 0, 0;
      largeAllocCount, largeAllocBytes, largeDeallocBytes := 0, 0, 0;
      classAllocCount, classDeallocCount := Zeros(NUM_CLASSES), Zeros(NUM_CLASSES);
      classAllocBytes, classFreeBytes := Zeros(NUM_CLASSES), Zeros(NUM_CLASSES);
    }

    method OnAlloc(c: Class)
      requires View().Shaped()
      modifies this
      ensures View() == Recorded(old(View()), Alloc(c)) && registryIdx == old(registryIdx)
    {
      hide ClassSize;
      var size := ClassSize(c);
      allocBytes := allocBytes + size;
      classAllocCount := classAllocCount[c := classAllocCount[c] + 1];
      classAllocBytes := classAllocBytes[c := classAllocBytes[c] + size];
    }

    method OnDealloc(c: Class)
      requires View().Shaped()
      modifies this
      ensures View() == Recorded(old(View()), Free(c)) && registryIdx == old(registryIdx)
    {
      hide ClassSize;
      var size := ClassSize(c);
      freeBytes := freeBytes + size;
      classDeallocCount := classDeallocCount[c := classDeallocCount[c] + 1];
      classFreeBytes := classFreeBytes[c := classFreeBytes[c] + size];
    }

    method OnLargeAlloc(size: nat)
      requires View().Shaped()
      modifies this
      ensures View() == Recorded(old(View()), LargeAlloc(size)) && registryIdx == old(registryIdx)
    {
      allocBytes := allocBytes + size;
      largeAllocCount := largeAllocCount + 1;
      largeAllocBytes := largeAllocBytes + size;
    }

    method OnLargeDealloc(size: nat)
      requires View().Shaped()
      modifies this
      ensures View() == Recorded(old(View()), LargeFree(size)) && registryIdx == old(registryIdx)
    {
      freeBytes := freeBytes + size;
      largeDeallocBytes := largeDeallocBytes + size;
    }

    method OnRemoteFree(count: nat)
      requires View().Shaped()
      modifies this
      ensures View() == Recorded(old(View()), RemoteFree(count)) && registryIdx == old(registryIdx)
    {
      remoteFreeCount := remoteFreeCount + count;
    }

    /** Fold another heap's counters into this one. */
    method Accumulate(other: HeapMetrics)
      requires this != other && View().Shaped() && other.View().Shaped()
      modifies this
      ensures View() == Add(old(View()), other.View()) && registryIdx == old(registryIdx)
    {
      hide Get, Pointwise;
      var allocs, deallocs, bytes, freed :=
        AddClasses(classAllocCount, classDeallocCount, classAllocBytes, classFreeBytes, other.View());
      allocBytes := allocBytes + other.allocBytes;
      freeBytes := freeBytes + other.freeBytes;
      remoteFreeCount := remoteFreeCount + other.remoteFreeCount;
      largeAllocCount := largeAllocCount + other.largeAllocCount;
      largeAllocBytes := largeAllocBytes + other.largeAllocBytes;
      largeDeallocBytes := largeDeallocBytes + other.largeDeallocBytes;
      classAllocCount, classDeallocCount, classAllocBytes, classFreeBytes := allocs, deallocs, bytes, freed;
    }
  }

  /** The loop of `accumulate` over the classes. */
  method AddClasses(allocs0: seq<nat>, frees0: seq<nat>, bytes0: seq<nat>, freed0: seq<nat>, other: Totals)
    returns (allocs: seq<nat>, frees: seq<nat>, bytes: seq<nat>, freed: seq<nat>)
    requires |allocs0| == |frees0| == |bytes0| == |freed0| == NUM_CLASSES && other.Shaped()
    ensures allocs == Pointwise(allocs0, other.classAllocs) && frees == Pointwise(frees0, other.classFrees)
    ensures bytes == Pointwise(bytes0, other.classBytes) && freed == Pointwise(freed0, other.classFreed)
  {
    allocs, frees, bytes, freed := allocs0, frees0, bytes0, freed0;
    for i := 0 to NUM_CLASSES
      invariant AddedUpTo(allocs, allocs0, other.classAllocs, i) && AddedUpTo(frees, frees0, other.classFrees, i)
      invariant AddedUpTo(bytes, bytes0, other.classBytes, i) && AddedUpTo(freed, freed0, other.classFreed, i)
    {
      allocs := allocs[i := allocs[i] + other.classAllocs[i]];
      frees := frees[i := frees[i] + other.classFrees[i]];
      bytes := bytes[i := bytes[i] + other.classBytes[i]];
      freed := freed[i := freed[i] + other.classFreed[i]];
    }
    AddedAll(allocs, allocs0, other.classAllocs);
    AddedAll(frees, frees0, other.classFrees);
    AddedAll(bytes, bytes0, other.classBytes);
    AddedAll(freed, freed0, other.classFreed);
  }

  /** The first `n` entries of `was` have been added to. */
  predicate AddedUpTo(now: seq<nat>, was: seq<nat>, them: seq<nat>, n: nat) {
    && |now| == |was| == |them|
    && forall j :: 0 <= j < |now| ==> now[j] == if j < n then was[j] + them[j] else was[j]
  }

  lemma AddedAll(now: seq<nat>, was: seq<nat>, them: seq<nat>)
    requires AddedUpTo(now, was, them, |was|)
    ensures |was| == |them| && now == Pointwise(was, them)
  {
  }

  /** The sums of a snapshot are the same counters; `finalize` derives the gauges from them. */
  class MetricsSnapshot {
    var sums: HeapMetrics
    var allocatedBytes: nat
    var classLiveCount: seq<int>
    var classLiveBytes: seq<int>

    constructor ()
      ensures fresh(sums) && sums.View() == Zero()
    {
      sums := new HeapMetrics();
      allocatedBytes, classLiveCount, classLiveBytes := 0, Zeros(NUM_CLASSES), Zeros(NUM_CLASSES);
    }

    /**
     `finalize`: live counts are differences taken on signed 64-bit words, and `allocated` saturates at
     zero. The differences are exact if and only if they fit.
     */
    method Finalize()
      requires sums.View().Shaped() && |classLiveCount| == |classLiveBytes| == NUM_CLASSES
      modifies this
      ensures sums == old(sums)
      ensures classLiveCount == SignedDifference(sums.classAllocCount, sums.classDeallocCount)
      ensures classLiveBytes == SignedDifference(sums.classAllocBytes, sums.classFreeBytes)
      ensures classLiveBytes == Difference(sums.classAllocBytes, sums.classFreeBytes)
              <==> AllFit(sums.classAllocBytes, sums.classFreeBytes)
      ensures classLiveCount == Difference(sums.classAllocCount, sums.classDeallocCount)
              <==> AllFit(sums.classAllocCount, sums.classDeallocCount)
      ensures allocatedBytes == Allocated(sums.View())
      ensures Balanced(sums.View()) && sums.freeBytes <= sums.allocBytes
              && AllFit(sums.classAllocBytes, sums.classFreeBytes) ==>
                allocatedBytes == SumInt(classLiveBytes) + sums.largeAllocBytes - sums.largeDeallocBytes
    {
      hide Balanced, SignedMinus, AllFit;
      for i := 0 to NUM_CLASSES
        invariant sums == old(sums) && |classLiveCount| == |classLiveBytes| == NUM_CLASSES
        invariant forall j :: 0 <= j < i ==>
                  classLiveCount[j] == SignedMinus(sums.classAllocCount[j], sums.classDeallocCount[j])
        invariant forall j :: 0 <= j < i ==>
                  classLiveBytes[j] == SignedMinus(sums.classAllocBytes[j], sums.classFreeBytes[j])
      {
        classLiveCount := classLiveCount[i := SignedMinus(sums.classAllocCount[i], sums.classDeallocCount[i])];
        classLiveBytes := classLiveBytes[i := SignedMinus(sums.classAllocBytes[i], sums.classFreeBytes[i])];
      }
      allocatedBytes := if sums.freeBytes <= sums.allocBytes then sums.allocBytes - sums.freeBytes else 0;
      SignedExact(sums.classAllocBytes, sums.classFreeBytes);
      SignedExact(sums.classAllocCount, sums.classDeallocCount);
      if Balanced(sums.View()) { LiveBytesAdd(sums.View()); }
    }
  }

  const TWO63: int := 0x8000_0000_0000_0000
  const TWO64: int := 0x1_0000_0000_0000_0000

  /** The signed value of the low 64 bits: `cast_signed`, and the result of wrapping arithmetic. */
  function Signed(x: int): int {
    if x % TWO64 < TWO63 then x % TWO64 else x % TWO64 - TWO64
  }

  /** `a.cast_signed() - b.cast_signed()` on 64-bit words. */
  function SignedMinus(a: nat, b: nat): int {
    Signed(Signed(a) - Signed(b))
  }

  predicate Fits(d: int) {
    -TWO63 <= d < TWO63
  }

  lemma SignedModulo(x: int)
    ensures (Signed(x) - x) % TWO64 == 0 && Fits(Signed(x)) && (Signed(x) == x <==> Fits(x))
  {
    assert x == TWO64 * (x / TWO64) + x % TWO64;
    var q := x / TWO64;
    assert Signed(x) - x == -TWO64 * q || Signed(x) - x == -TWO64 * (q + 1);
    Multiple(-q);
    Multiple(-(q + 1));
    if Fits(x) {
      if x >= 0 { SmallMod(x); } else { SmallMod(x + TWO64); ShiftMod(x, 1); }
    }
  }

  lemma Multiple(k: int)
    ensures (TWO64 * k) % TWO64 == 0
  {
  }

  lemma SmallMod(x: int)
    requires 0 <= x < TWO64
    ensures x % TWO64 == x
  {
  }

  lemma ShiftMod(x: int, k: int)
    ensures (x + TWO64 * k) % TWO64 == x % TWO64
  {
  }

  /** The signed subtraction is exact if and only if the difference fits a signed word. */
  lemma SignedMinusExact(a: nat, b: nat)
    ensures SignedMinus(a, b) == a - b <==> Fits(a - b)
  {
    hide Signed;
    SignedModulo(a);
    SignedModulo(b);
    var d := Signed(a) - Signed(b);
    SignedModulo(d);
    var i, j := (Signed(a) - a) / TWO64, (Signed(b) - b) / TWO64;
    assert d == (a - b) + TWO64 * (i - j);
    SignedShift(a - b, i - j);
    SignedModulo(a - b);
  }

  lemma SignedShift(x: int, k: int)
    ensures Signed(x + TWO64 * k) == Signed(x)
  {
    ShiftMod(x, k);
  }

  function SignedDifference(a: seq<nat>, b: seq<nat>): (r: seq<int>)
    requires |a| == |b|
    ensures |r| == |a| && forall i :: 0 <= i < |a| ==> r[i] == SignedMinus(a[i], b[i])
  {
    seq(|a|, i requires 0 <= i < |a| => SignedMinus(a[i], b[i]))
  }

  predicate AllFit(a: seq<nat>, b: seq<nat>)
    requires |a| == |b|
  {
    forall i :: 0 <= i < |a| ==> Fits(Minus(a[i], b[i]))
  }

  lemma SignedExact(a: seq<nat>, b: seq<nat>)
    requires |a| == |b|
    ensures SignedDifference(a, b) == Difference(a, b) <==> AllFit(a, b)
  {
    hide SignedMinus;
    forall i | 0 <= i < |a| ensures SignedDifference(a, b)[i] == Difference(a, b)[i] <==> Fits(Minus(a[i], b[i])) {
      SignedMinusExact(a[i], b[i]);
    }
    if SignedDifference(a, b) == Difference(a, b) {
      forall i | 0 <= i < |a| ensures Fits(Minus(a[i], b[i])) {
        assert SignedDifference(a, b)[i] == Difference(a, b)[i];
      }
    }
  }

  function Minus(a: int, b: int): int {
    a - b
  }

  function Difference(a: seq<nat>, b: seq<nat>): (r: seq<int>)
    requires |a| == |b|
    ensures |r| == |a| && forall i :: 0 <= i < |a| ==> r[i] == Minus(a[i], b[i])
  {
    seq(|a|, i requires 0 <= i < |a| => Minus(a[i], b[i]))
  }

  function SumInt(xs: seq<int>): int {
    if xs == [] then 0 else SumInt(xs[..|xs| - 1]) + xs[|xs| - 1]
  }

  lemma {:induction false} SumDifference(a: seq<nat>, b: seq<nat>)
    requires |a| == |b|
    ensures SumInt(Difference(a, b)) == Sum(a) - Sum(b)
  {
    if a != [] {
      var n := |a| - 1;
      SumDifference(a[..n], b[..n]);
      assert Difference(a, b)[..n] == Difference(a[..n], b[..n]);
    }
  }

  /** Bytes allocated minus bytes freed are the live bytes of every class plus the live large bytes. */
  lemma LiveBytesAdd(t: Totals)
    requires Balanced(t)
    ensures t.allocBytes - t.freeBytes ==
            SumInt(Difference(t.classBytes, t.classFreed)) + t.largeBytes - t.largeFreed
  {
    hide ClassSize, Sum, SumInt;
    SumDifference(t.classBytes, t.classFreed);
  }

  class PoolMetrics {
    const heapPtrs: array<HeapMetrics?>
    var heapCount: nat
    var dead: HeapMetrics

    ghost function Indices(known: set<HeapMetrics>): (m: map<HeapMetrics?, nat>)
      reads known`registryIdx
    {
      map h: HeapMetrics | h in known :: h.registryIdx
    }

    /** The registry as seen by the heaps in `known`. */
    ghost function View(known: set<HeapMetrics>): (r: Registry<HeapMetrics?>)
      requires heapCount <= heapPtrs.Length
      reads this, heapPtrs, dead, known
    {
      Registry(heapPtrs[..heapCount],
               Indices(known),
               map h: HeapMetrics | h in known :: h.View(),
               dead.View())
    }

    /** Entry `i` records index `i`, unused entries are null, and counters have their arrays. */
    ghost predicate Valid(known: set<HeapMetrics>)
      reads this, heapPtrs, dead, known
    {
      && heapPtrs.Length == MAX_HEAPS && heapCount <= MAX_HEAPS && dead !in known
      && (forall i :: 0 <= i < heapCount ==> heapPtrs[i] in known)
      && (forall i :: heapCount <= i < MAX_HEAPS ==> heapPtrs[i] == null)
      && Wellformed(View(known)) && Indexed(View(known))
    }

    constructor ()
      ensures Valid({}) && View({}) == Registry([], map[], map[], Zero())
      ensures fresh(heapPtrs) && fresh(dead)
    {
      heapPtrs := new HeapMetrics?[MAX_HEAPS](_ => null);
      heapCount := 0;
      dead := new HeapMetrics();
    }

    /** `register_heap`; `!ok` is the "heap registry full" panic. */
    method RegisterHeap(h: HeapMetrics, ghost known: set<HeapMetrics>) returns (ok: bool)
      requires Valid(known) && h in known && h !in heapPtrs[..heapCount]
      modifies this, heapPtrs, h`registryIdx
      ensures Valid(known) && dead == old(dead)
      ensures match Register(old(View(known)), h)
              case None => !ok && View(known) == old(View(known))
              case Some(r) => ok && View(known) == r
    {
      hide Zero, Add, Get, Total, Fold, HeapMetrics.View, AllShaped;
      if heapCount >= MAX_HEAPS {
        return false;
      }
      var idx := heapCount;
      heapPtrs[idx] := h;
      heapCount := heapCount + 1;
      h.registryIdx := idx;
      ok := true;
      assert View(known).counts == old(View(known)).counts;
      assert View(known) == Register(old(View(known)), h).value;
    }

    /** The last entry takes the place of entry `idx`, and records its new index. */
    method SwapRemove(idx: nat, ghost known: set<HeapMetrics>)
      requires heapPtrs.Length == MAX_HEAPS && idx < heapCount <= MAX_HEAPS
      requires forall i :: 0 <= i < heapCount ==> heapPtrs[i] in known
      requires forall i :: heapCount <= i < MAX_HEAPS ==> heapPtrs[i] == null
      modifies this`heapCount, heapPtrs, known`registryIdx
      ensures heapCount == old(heapCount) - 1
      ensures forall i :: 0 <= i < heapCount ==> heapPtrs[i] in known
      ensures forall i :: heapCount <= i < MAX_HEAPS ==> heapPtrs[i] == null
      ensures heapPtrs[..heapCount] ==
              if idx == heapCount then old(heapPtrs[..heapCount])[..heapCount]
              else old(heapPtrs[..heapCount])[idx := old(heapPtrs[heapCount - 1])][..heapCount]
      ensures Indices(known) ==
              if idx == heapCount then old(Indices(known))
              else old(Indices(known))[old(heapPtrs[heapCount - 1]) := idx]
    {
      heapCount := heapCount - 1;
      if idx != heapCount {
        heapPtrs[idx] := heapPtrs[heapCount];
        heapPtrs[idx].registryIdx := idx;
      }
      heapPtrs[heapCount] := null;
    }

    /** `deregister_heap`: no total of a snapshot changes. */
    method DeregisterHeap(h: HeapMetrics, ghost known: set<HeapMetrics>)
      requires Valid(known) && h in heapPtrs[..heapCount]
      modifies this`heapCount, heapPtrs, dead, known`registryIdx
      ensures Valid(known) && dead == old(dead)
      ensures View(known) == Deregister(old(View(known)), h)
      ensures forall k :: Total(View(known), k) == old(Total(View(known), k))
    {
      hide Zero, Add, Get, Total, Fold, HeapMetrics.View, AllShaped;
      ghost var r := View(known);
      assert CountsOf(r.counts, h) == h.View() && h.View().Shaped() by { EntryShaped(r, h); }
      var idx := h.registryIdx;
      dead.Accumulate(h);
      SwapRemove(idx, known);
      assert View(known) == Deregister(r, h) by {
        hide Indexed, Wellformed, Indices;
        assert View(known).counts == r.counts;
      }
      DeregisterIndexed(r, h);
      DeregisterShaped(r, h);
      forall k ensures Total(View(known), k) == Total(r, k) { DeregisterKeeps(r, h, k); }
    }

    /** `aggregate_heap_metrics`: dead, then every registered heap. */
    method AggregateHeapMetrics(snap: MetricsSnapshot, ghost known: set<HeapMetrics>)
      requires Valid(known) && snap.sums !in known && snap.sums != dead && snap.sums.View() == Zero()
      modifies snap.sums
      ensures Valid(known) && View(known) == old(View(known))
      ensures snap.sums.View() == Merged(View(known))
    {
      hide Zero, Add, Get, Total, HeapMetrics.View, Indexed, AllShaped, Indices;
      ghost var r := View(known);
      snap.sums.Accumulate(dead);
      AddZero(dead.View());
      for i := 0 to heapCount
        invariant View(known) == r && Valid(known)
        invariant snap.sums.View() == Fold(r.dead, r.live[..i], r.counts)
      {
        EntryShaped(r, heapPtrs[i]);
        assert r.counts[heapPtrs[i]] == heapPtrs[i].View();
        snap.sums.Accumulate(heapPtrs[i]);
        assert r.live[..i + 1][..i] == r.live[..i];
      }
      assert r.live[..heapCount] == r.live;
    }
  }

  lemma EntryShaped<H>(r: Registry<H>, h: H)
    requires Wellformed(r) && h in r.counts
    ensures r.counts[h].Shaped()
  {
  }

  lemma DeregisterShaped<H>(r: Registry<H>, h: H)
    requires Wellformed(r) && h in r.index && r.index[h] < |r.live|
    ensures Wellformed(Deregister(r, h))
  {
  }

  lemma AddZero(t: Totals)
    requires t.Shaped()
    ensures Add(Zero(), t) == t
  {
    hide Zeros;
  }
}
