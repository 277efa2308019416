/**
 Heap counters and their registry, on values (src/metrics.rs:53-209).

 Heaps of type `H` come and go; each counts its own work. What a snapshot adds up, dead heaps plus
 registered ones, is shown to be what registered heaps have ever recorded.
 */
module HeapRegistry {
  import opened Places
  import opened SizeClasses

  const MAX_HEAPS: nat := 1024
  type Class = i: nat | i < NUM_CLASSES

  datatype Totals = Totals(
    allocBytes: nat, freeBytes: nat, remoteFrees: nat,
    largeAllocs: nat, largeBytes: nat, largeFreed: nat,
    classAllocs: seq<nat>, classFrees: seq<nat>, classBytes: seq<nat>, classFreed: seq<nat>)
  {
    predicate Shaped() {
      |classAllocs| == |classFrees| == |classBytes| == |classFreed| == NUM_CLASSES
    }
  }

  function Zeros(n: nat): (z: seq<nat>)
    ensures |z| == n && forall i :: 0 <= i < n ==> z[i] == 0
  {
    if n == 0 then [] else Zeros(n - 1) + [0]
  }

  /** `HeapMetrics::ZERO`. */
  function Zero(): (t: Totals)
    ensures t.Shaped()
  {
    var none := Zeros(NUM_CLASSES);
    Totals(0, 0, 0, 0, 0, 0, none, none, none, none)
  }

  /** The names of the counters. */
  datatype Counter =
    | AllocBytes | FreeBytes | RemoteFrees | LargeAllocs | LargeBytes | LargeFreed
    | ClassAllocs(i: Class) | ClassFrees(i: Class) | ClassBytes(i: Class) | ClassFreed(i: Class)

  function Get(t: Totals, k: Counter): nat
    requires t.Shaped()
  {
    match k
    case AllocBytes => t.allocBytes
    case FreeBytes => t.freeBytes
    case RemoteFrees => t.remoteFrees
    case LargeAllocs => t.largeAllocs
    case LargeBytes => t.largeBytes
    case LargeFreed => t.largeFreed
    case ClassAllocs(i) => t.classAllocs[i]
    case ClassFrees(i) => t.classFrees[i]
    case ClassBytes(i) => t.classBytes[i]
    case ClassFreed(i) => t.classFreed[i]
  }

  /** What a heap reports to its own counters. */
  datatype Act = Alloc(c: Class) | Free(c: Class) | LargeAlloc(n: nat) | LargeFree(n: nat) | RemoteFree(n: nat)

  /** How much an act adds to one counter. */
  function Amount(a: Act, k: Counter): nat {
    match a
    case Alloc(c) =>
      if k == AllocBytes || k == ClassBytes(c) then ClassSize(c) else if k == ClassAllocs(c) then 1 else 0
    case Free(c) =>
      if k == FreeBytes || k == ClassFreed(c) then ClassSize(c) else if k == ClassFrees(c) then 1 else 0
    case LargeAlloc(n) =>
      if k == AllocBytes || k == LargeBytes then n else if k == LargeAllocs then 1 else 0
    case LargeFree(n) =>
      if k == FreeBytes || k == LargeFreed then n else 0
    case RemoteFree(n) =>
      if k == RemoteFrees then n else 0
  }

  /** `on_alloc`, `on_dealloc`, `on_large_alloc`, `on_large_dealloc`, `on_remote_free`. */
  function Recorded(t: Totals, a: Act): (r: Totals)
    requires t.Shaped()
    ensures r.Shaped()
  {
    match a
    case Alloc(c) =>
      t.(allocBytes := t.allocBytes + ClassSize(c),
         classAllocs := t.classAllocs[c := t.classAllocs[c] + 1],
         classBytes := t.classBytes[c := t.classBytes[c] + ClassSize(c)])
    case Free(c) =>
      t.(freeBytes := t.freeBytes + ClassSize(c),
         classFrees := t.classFrees[c := t.classFrees[c] + 1],
         classFreed := t.classFreed[c := t.classFreed[c] + ClassSize(c)])
    case LargeAlloc(n) =>
      t.(allocBytes := t.allocBytes + n, largeAllocs := t.largeAllocs + 1, largeBytes := t.largeBytes + n)
    case LargeFree(n) =>
      t.(freeBytes := t.freeBytes + n, largeFreed := t.largeFreed + n)
    case RemoteFree(n) =>
      t.(remoteFrees := t.remoteFrees + n)
  }

  lemma RecordedAdds(t: Totals, a: Act, k: Counter)
    requires t.Shaped()
    ensures Get(Recorded(t, a), k) == Get(t, k) + Amount(a, k)
  {
    hide ClassSize;
    match k
    case AllocBytes | FreeBytes | RemoteFrees | LargeAllocs | LargeBytes | LargeFreed =>
    case ClassAllocs(_) | ClassFrees(_) | ClassBytes(_) | ClassFreed(_) =>
  }

  function Pointwise(a: seq<nat>, b: seq<nat>): (r: seq<nat>)
    requires |a| == |b|
    ensures |r| == |a| && forall i :: 0 <= i < |a| ==> r[i] == a[i] + b[i]
  {
    seq(|a|, i requires 0 <= i < |a| => a[i] + b[i])
  }

  /** `accumulate`. */
  function Add(t: Totals, u: Totals): (r: Totals)
    requires t.Shaped() && u.Shaped()
    ensures r.Shaped()
    ensures forall k :: Get(r, k) == Get(t, k) + Get(u, k)
  {
    Totals(
      t.allocBytes + u.allocBytes, t.freeBytes + u.freeBytes, t.remoteFrees + u.remoteFrees,
      t.largeAllocs + u.largeAllocs, t.largeBytes + u.largeBytes, t.largeFreed + u.largeFreed,
      Pointwise(t.classAllocs, u.classAllocs), Pointwise(t.classFrees, u.classFrees),
      Pointwise(t.classBytes, u.classBytes), Pointwise(t.classFreed, u.classFreed))
  }

  /* ---- The registry ---- */

  datatype Registry<H> = Registry(live: seq<H>, index: map<H, nat>, counts: map<H, Totals>, dead: Totals)

  predicate AllShaped<H>(counts: map<H, Totals>) {
    forall h :: h in counts ==> counts[h].Shaped()
  }

  predicate Wellformed<H>(r: Registry<H>) {
    r.dead.Shaped() && AllShaped(r.counts)
  }

  /** Entry `i` records index `i`. */
  predicate Indexed<H>(r: Registry<H>) {
    forall i :: 0 <= i < |r.live| ==> r.live[i] in r.index && r.index[r.live[i]] == i
  }

  /** A heap that has recorded nothing has all counters at zero. */
  function CountsOf<H>(counts: map<H, Totals>, h: H): (t: Totals)
    requires AllShaped(counts)
    ensures t.Shaped()
  {
    if h in counts then counts[h] else Zero()
  }

  /** `register_heap`; `None` is the "heap registry full" panic. */
  function Register<H>(r: Registry<H>, h: H): Option<Registry<H>> {
    if |r.live| >= MAX_HEAPS then None
    else Some(r.(live := r.live + [h], index := r.index[h := |r.live|]))
  }

  /** `deregister_heap`: fold into the dead, then the last entry takes the freed place. */
  function Deregister<H>(r: Registry<H>, h: H): Registry<H>
    requires Wellformed(r) && h in r.index && r.index[h] < |r.live|
  {
    var i, last := r.index[h], |r.live| - 1;
    var dead := Add(r.dead, CountsOf(r.counts, h));
    if i == last then
      r.(dead := dead, live := r.live[..last])
    else
      r.(dead := dead, live := r.live[i := r.live[last]][..last], index := r.index[r.live[last] := i])
  }

  /** What `aggregate_heap_metrics` adds up. */
  function Merged<H>(r: Registry<H>): (t: Totals)
    requires Wellformed(r)
    ensures t.Shaped()
  {
    Fold(r.dead, r.live, r.counts)
  }

  function Fold<H>(t: Totals, live: seq<H>, counts: map<H, Totals>): (u: Totals)
    requires t.Shaped() && AllShaped(counts)
    ensures u.Shaped()
    decreases |live|
  {
    if live == [] then t
    else Add(Fold(t, live[..|live| - 1], counts), CountsOf(counts, live[|live| - 1]))
  }

  /* ---- Sums ---- */

  function Sum(xs: seq<nat>): nat {
    if xs == [] then 0 else Sum(xs[..|xs| - 1]) + xs[|xs| - 1]
  }

  lemma {:induction false} SumUpdate(xs: seq<nat>, i: nat, x: nat)
    requires i < |xs|
    ensures Sum(xs[i := x]) + xs[i] == Sum(xs) + x
  {
    var n := |xs| - 1;
    if i == n {
      assert xs[i := x][..n] == xs[..n];
    } else {
      assert xs[i := x][..n] == xs[..n][i := x];
      SumUpdate(xs[..n], i, x);
    }
  }

  lemma SumSwapRemove(xs: seq<nat>, i: nat)
    requires i < |xs|
    ensures Sum(xs[i := xs[|xs| - 1]][..|xs| - 1]) + xs[i] == Sum(xs)
  {
    var last := |xs| - 1;
    var ys := xs[i := xs[last]];
    SumUpdate(xs, i, xs[last]);
    assert Sum(ys) == Sum(ys[..last]) + ys[last];
  }

  lemma {:induction false} SumPointwise(a: seq<nat>, b: seq<nat>)
    requires |a| == |b|
    ensures Sum(Pointwise(a, b)) == Sum(a) + Sum(b)
  {
    if a != [] {
      var n := |a| - 1;
      SumPointwise(a[..n], b[..n]);
      assert Pointwise(a, b)[..n] == Pointwise(a[..n], b[..n]);
    }
  }

  lemma {:induction false} SumZeros(n: nat)
    ensures Sum(Zeros(n)) == 0
  {
    if n > 0 {
      SumZeros(n - 1);
      assert Zeros(n)[..n - 1] == Zeros(n - 1);
    }
  }

  /** Counter `k` of every registered heap. */
  function Column<H>(live: seq<H>, counts: map<H, Totals>, k: Counter): (c: seq<nat>)
    requires AllShaped(counts)
    ensures |c| == |live| && forall i :: 0 <= i < |live| ==> c[i] == Get(CountsOf(counts, live[i]), k)
  {
    seq(|live|, i requires 0 <= i < |live| => Get(CountsOf(counts, live[i]), k))
  }

  /** Dead plus live, for one counter. */
  function Total<H>(r: Registry<H>, k: Counter): nat
    requires Wellformed(r)
  {
    Get(r.dead, k) + Sum(Column(r.live, r.counts, k))
  }

  lemma {:induction false} FoldTotals<H>(t: Totals, live: seq<H>, counts: map<H, Totals>, k: Counter)
    requires t.Shaped() && AllShaped(counts)
    ensures Get(Fold(t, live, counts), k) == Get(t, k) + Sum(Column(live, counts, k))
    decreases |live|
  {
    hide Get, CountsOf;
    if live != [] {
      var n := |live| - 1;
      FoldTotals(t, live[..n], counts, k);
      assert Column(live, counts, k)[..n] == Column(live[..n], counts, k);
    }
  }

  /* ---- Runs ---- */

  datatype Event<H> = Registers(h: H) | Deregisters(h: H) | Records(h: H, a: Act)

  /** Heaps that were ever registered. */
  function Ever<H>(es: seq<Event<H>>): set<H> {
    set e | e in es && e.Registers? :: e.h
  }

  /**
   What may come next: a heap is registered once and within capacity, only a registered heap is
   deregistered, and a heap that is gone records nothing.
   */
  predicate Enabled<H>(es: seq<Event<H>>, r: Registry<H>, e: Event<H>) {
    match e
    case Registers(h) => h !in Ever(es) && |r.live| < MAX_HEAPS
    case Deregisters(h) => h in r.live
    case Records(h, _) => h in r.live || h !in Ever(es)
  }

  /** One event; `None` is a panic: a full registry or an index that is no entry. */
  function Next<H>(r: Registry<H>, e: Event<H>): (r': Option<Registry<H>>)
    requires Wellformed(r)
    ensures r'.Some? ==> Wellformed(r'.value)
  {
    match e
    case Registers(h) => Register(r, h)
    case Deregisters(h) => if h in r.index && r.index[h] < |r.live| then Some(Deregister(r, h)) else None
    case Records(h, a) => Some(r.(counts := r.counts[h := Recorded(CountsOf(r.counts, h), a)]))
  }

  /** The registry after a run; `None` if some event was not enabled, or panicked. */
  function Run<H>(es: seq<Event<H>>): (r: Option<Registry<H>>)
    ensures r.Some? ==> Wellformed(r.value)
    decreases |es|
  {
    if es == [] then Some(Registry([], map[], map[], Zero()))
    else
      var before, e := es[..|es| - 1], es[|es| - 1];
      match Run(before)
      case Some(q) => if Enabled(before, q, e) then Next(q, e) else None
      case None => None
  }

  /** What heaps in `hs` recorded on counter `k`. */
  function Ledger<H>(es: seq<Event<H>>, hs: set<H>, k: Counter): nat
    decreases |es|
  {
    if es == [] then 0
    else
      var e := es[|es| - 1];
      Ledger(es[..|es| - 1], hs, k) + if e.Records? && e.h in hs then Amount(e.a, k) else 0
  }

  lemma {:induction false} LedgerSplit<H>(es: seq<Event<H>>, hs: set<H>, h: H, k: Counter)
    requires h !in hs
    ensures Ledger(es, hs + {h}, k) == Ledger(es, hs, k) + Ledger(es, {h}, k)
    decreases |es|
  {
    hide Amount;
    if es != [] { LedgerSplit(es[..|es| - 1], hs, h, k); }
  }

  lemma EverStep<H>(es: seq<Event<H>>)
    requires es != []
    ensures var e := es[|es| - 1];
            Ever(es) == Ever(es[..|es| - 1]) + if e.Registers? then {e.h} else {}
  {
    assert es == es[..|es| - 1] + [es[|es| - 1]];
  }

  lemma DeregisterIndexed<H>(r: Registry<H>, h: H)
    requires Wellformed(r) && Indexed(r) && h in r.live
    ensures var r' := Deregister(r, h);
            && Indexed(r') && |r'.live| == |r.live| - 1
            && (forall g :: g in r'.live <==> g in r.live && g != h)
  {
    hide Add, CountsOf;
    var r' := Deregister(r, h);
    var i, last := r.index[h], |r.live| - 1;
    forall g | g in r.live && g != h ensures g in r'.live {
      var j := r.index[g];
      assert r'.live[if j == last then i else j] == g;
    }
  }

  /** Deregistering a heap changes no total. */
  lemma DeregisterKeeps<H>(r: Registry<H>, h: H, k: Counter)
    requires Wellformed(r) && Indexed(r) && h in r.live
    ensures Total(Deregister(r, h), k) == Total(r, k)
  {
    hide Get, CountsOf;
    var r' := Deregister(r, h);
    var i, last := r.index[h], |r.live| - 1;
    var xs := Column(r.live, r.counts, k);
    assert Column(r'.live, r'.counts, k) == xs[i := xs[last]][..last];
    SumSwapRemove(xs, i);
  }

  lemma RegisterTotal<H>(r: Registry<H>, h: H, k: Counter)
    requires Wellformed(r) && |r.live| < MAX_HEAPS
    ensures Total(Register(r, h).value, k) == Total(r, k) + Get(CountsOf(r.counts, h), k)
  {
    hide Get, CountsOf;
    var xs := Column(r.live + [h], r.counts, k);
    assert xs[..|r.live|] == Column(r.live, r.counts, k);
  }

  /** A record by a registered heap moves its own entry only. */
  lemma RecordTotal<H>(r: Registry<H>, h: H, a: Act, k: Counter)
    requires Wellformed(r) && Indexed(r)
    ensures Total(Next(r, Records(h, a)).value, k) == Total(r, k) + if h in r.live then Amount(a, k) else 0
  {
    hide Get, Amount, Recorded, Sum;
    var r' := Next(r, Records(h, a)).value;
    RecordedAdds(CountsOf(r.counts, h), a, k);
    var xs, ys := Column(r.live, r.counts, k), Column(r'.live, r'.counts, k);
    forall i | 0 <= i < |xs| ensures ys[i] == if r.live[i] == h then xs[i] + Amount(a, k) else xs[i] {}
    if h in r.live {
      var i := r.index[h];
      assert ys == xs[i := xs[i] + Amount(a, k)];
      SumUpdate(xs, i, xs[i] + Amount(a, k));
    } else {
      assert ys == xs;
    }
  }

  /**
   In every run entry `i` records index `i`, entries are distinct registered heaps, and an event that
   is enabled does not panic.
   */
  lemma {:induction false} RunIndexed<H>(es: seq<Event<H>>)
    requires Run(es).Some?
    ensures Indexed(Run(es).value)
    ensures forall i, j :: 0 <= i < j < |Run(es).value.live| ==> Run(es).value.live[i] != Run(es).value.live[j]
    ensures forall h :: h in Run(es).value.live ==> h in Ever(es)
    ensures forall e :: Enabled(es, Run(es).value, e) ==> Next(Run(es).value, e).Some?
    decreases |es|
  {
    hide Recorded, Add, Wellformed;
    if es != [] {
      var before, e := es[..|es| - 1], es[|es| - 1];
      RunIndexed(before);
      EverStep(es);
      if e.Deregisters? { DeregisterIndexed(Run(before).value, e.h); }
    }
  }

  /** A heap's counters are what it recorded. */
  lemma {:induction false} RunCounts<H>(es: seq<Event<H>>, h: H, k: Counter)
    requires Run(es).Some?
    ensures Get(CountsOf(Run(es).value.counts, h), k) == Ledger(es, {h}, k)
    decreases |es|
  {
    if es != [] {
      hide Get, Amount, Recorded, Add;
      var before, e := es[..|es| - 1], es[|es| - 1];
      RunCounts(before, h, k);
      if e.Records? { RecordedAdds(CountsOf(Run(before).value.counts, e.h), e.a, k); }
    }
  }

  lemma LedgerStep<H>(es: seq<Event<H>>, k: Counter)
    requires es != []
    ensures var before, e := es[..|es| - 1], es[|es| - 1];
            Ledger(es, Ever(es), k) == match e
              case Registers(h) => Ledger(before, Ever(before) + {h}, k)
              case Deregisters(_) => Ledger(before, Ever(before), k)
              case Records(h, a) => Ledger(before, Ever(before), k) + if h in Ever(before) then Amount(a, k) else 0
  {
    hide Amount, Ever;
    EverStep(es);
    var before, e := es[..|es| - 1], es[|es| - 1];
    if !e.Registers? { assert Ever(es) == Ever(before); }
  }

  /** The totals of a run, counter by counter. */
  lemma {:induction false} RunLedger<H>(es: seq<Event<H>>, k: Counter)
    requires Run(es).Some?
    ensures Total(Run(es).value, k) == Ledger(es, Ever(es), k)
    decreases |es|
  {
    if es != [] {
      hide Get, Amount, Recorded, Add, Total, Ledger, Ever, CountsOf, Wellformed, Indexed;
      var before, e := es[..|es| - 1], es[|es| - 1];
      var q := Run(before).value;
      RunLedger(before, k);
      RunIndexed(before);
      LedgerStep(es, k);
      match e
      case Registers(h) =>
        RegisterTotal(q, h, k);
        RunCounts(before, h, k);
        LedgerSplit(before, Ever(before), h, k);
      case Deregisters(h) =>
        DeregisterKeeps(q, h, k);
      case Records(h, a) =>
        RecordTotal(q, h, a, k);
    }
  }

  /**
   In every run of registrations, deregistrations and records, each total of a snapshot (dead
   heaps plus registered ones) is what all the heaps ever registered have recorded.
   */
  lemma RunTotals<H>(es: seq<Event<H>>, k: Counter)
    requires Run(es).Some?
    ensures Get(Merged(Run(es).value), k) == Ledger(es, Ever(es), k)
  {
    hide Run, Get, Ledger, Ever;
    RunLedger(es, k);
    FoldTotals(Run(es).value.dead, Run(es).value.live, Run(es).value.counts, k);
  }

  /* ---- Counters that agree with each other ---- */

  /** Byte totals split by class and large, and class bytes are counts times the class size. */
  predicate Balanced(t: Totals) {
    && t.Shaped()
    && t.allocBytes == Sum(t.classBytes) + t.largeBytes
    && t.freeBytes == Sum(t.classFreed) + t.largeFreed
    && (forall i :: 0 <= i < NUM_CLASSES ==> t.classBytes[i] == t.classAllocs[i] * ClassSize(i))
    && (forall i :: 0 <= i < NUM_CLASSES ==> t.classFreed[i] == t.classFrees[i] * ClassSize(i))
  }

  lemma Distribute(a: nat, b: nat, c: nat)
    ensures (a + b) * c == a * c + b * c
  {
  }

  lemma ZeroBalanced()
    ensures Balanced(Zero())
  {
    hide ClassSize, Sum, Zeros;
    SumZeros(NUM_CLASSES);
  }

  lemma RecordedBalanced(t: Totals, a: Act)
    requires Balanced(t)
    ensures Balanced(Recorded(t, a))
  {
    hide ClassSize, Sum;
    match a
    case Alloc(c) =>
      SumUpdate(t.classBytes, c, t.classBytes[c] + ClassSize(c));
      Distribute(t.classAllocs[c], 1, ClassSize(c));
    case Free(c) =>
      SumUpdate(t.classFreed, c, t.classFreed[c] + ClassSize(c));
      Distribute(t.classFrees[c], 1, ClassSize(c));
    case LargeAlloc(_) =>
    case LargeFree(_) =>
    case RemoteFree(_) =>
  }

  lemma AddBalanced(t: Totals, u: Totals)
    requires Balanced(t) && Balanced(u)
    ensures Balanced(Add(t, u))
  {
    hide ClassSize, Sum;
    SumPointwise(t.classBytes, u.classBytes);
    SumPointwise(t.classFreed, u.classFreed);
    forall i | 0 <= i < NUM_CLASSES
      ensures (t.classAllocs[i] + u.classAllocs[i]) * ClassSize(i)
              == t.classAllocs[i] * ClassSize(i) + u.classAllocs[i] * ClassSize(i)
      ensures (t.classFrees[i] + u.classFrees[i]) * ClassSize(i)
              == t.classFrees[i] * ClassSize(i) + u.classFrees[i] * ClassSize(i)
    {
      Distribute(t.classAllocs[i], u.classAllocs[i], ClassSize(i));
      Distribute(t.classFrees[i], u.classFrees[i], ClassSize(i));
    }
  }

  lemma {:induction false} FoldBalanced<H>(t: Totals, live: seq<H>, counts: map<H, Totals>)
    requires t.Shaped() && Balanced(t) && AllShaped(counts) && forall h :: h in counts ==> Balanced(counts[h])
    ensures Balanced(Fold(t, live, counts))
    decreases |live|
  {
    hide Balanced, Add, Zero;
    if live != [] {
      var last := live[|live| - 1];
      FoldBalanced(t, live[..|live| - 1], counts);
      ZeroBalanced();
      AddBalanced(Fold(t, live[..|live| - 1], counts), CountsOf(counts, last));
    }
  }

  lemma {:induction false} RunParts<H>(es: seq<Event<H>>)
    requires Run(es).Some?
    ensures Balanced(Run(es).value.dead)
    ensures forall h :: h in Run(es).value.counts ==> Balanced(Run(es).value.counts[h])
    decreases |es|
  {
    hide Balanced, Add, Recorded, Zero;
    ZeroBalanced();
    if es != [] {
      var before, e := es[..|es| - 1], es[|es| - 1];
      var q := Run(before).value;
      RunParts(before);
      match e
      case Registers(_) =>
      case Deregisters(h) => AddBalanced(q.dead, CountsOf(q.counts, h));
      case Records(h, a) => RecordedBalanced(CountsOf(q.counts, h), a);
    }
  }

  /** In every run the totals of a snapshot agree with each other. */
  lemma RunBalanced<H>(es: seq<Event<H>>)
    requires Run(es).Some?
    ensures Balanced(Merged(Run(es).value))
  {
    hide Balanced, Run;
    RunParts(es);
    FoldBalanced(Run(es).value.dead, Run(es).value.live, Run(es).value.counts);
  }

  /** The `allocated` gauge of a snapshot with these totals: it saturates at zero. */
  function Allocated(t: Totals): nat {
    if t.freeBytes <= t.allocBytes then t.allocBytes - t.freeBytes else 0
  }
}
