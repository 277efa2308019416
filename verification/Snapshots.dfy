/**
 What a snapshot reads, over whole runs of the allocator: heaps register and deregister, each counts
 its own work, and the totals the registry adds up order the gauges (src/global.rs:45-122,
 src/pool.rs:555-568).
 */
module Snapshots {
  import opened Places
  import opened Tiling
  import opened PoolSections
  import opened PoolInvariant
  import opened PoolSteps
  import opened SizeClasses
  import opened SlabGeometry
  import opened System
  import opened SystemInvariant
  import opened Frames
  import opened ControlSteps
  import opened SlotSteps
  import opened Safety
  import opened Gauges
  import opened Mappings
  import HR = HeapRegistry

  type Log = seq<HR.Event<nat>>

  /** The class an allocation step is about. */
  function ClassOf(op: Op): nat {
    match op
    case Alloc(c, _) => c
    case Retry(c) => c
    case AdoptJudge(c, _) => c
    case Await(c) => c
    case _ => 0
  }

  // ----- what a step counts

  /** The step neither registers nor deregisters a heap, unless it crashes. */
  ghost predicate Heaped(s: State, s': State, t: Tid) {
    && t in s.threads && t in s'.threads && s'.threads == s.threads[t := s'.threads[t]] && s'.nextHeap == s.nextHeap
    && (s'.threads[t].op.Crashed? ||
        ((Active(s'.threads[t]) <==> Active(s.threads[t])) &&
            (Active(s.threads[t]) ==> s'.threads[t].heap == s.threads[t].heap)))
  }

  /** The step counts one allocation of the class its thread is working on, or nothing. */
  ghost predicate Books(s: State, s': State, t: Tid) {
    && Heaped(s, s', t) && s'.freeBytes == s.freeBytes
    && (s'.allocBytes == s.allocBytes ||
        (ClassOf(s.threads[t].op) < NUM_CLASSES && Active(s.threads[t])
         && s'.allocBytes == s.allocBytes + ClassSize(ClassOf(s.threads[t].op))))
  }

  lemma AllocBooks(s: State, w: Witness, t: Tid, c: nat)
    requires Inv(s, w) && t in s.threads
    ensures s.threads[t].op.Alloc? && s.threads[t].op.c == c ==> Books(s, StepAlloc(s, t, c), t)
    ensures s.threads[t].op == Retry(c) ==> Books(s, StepRetry(s, t, c), t)
  {
    hide Inv, ClassSize, SlotCount, Free, Shift, Pour, HoldsOK;
    if At(s.pages, Bin(t, c)) != [] { PageAt(s, w, Bin(t, c), 0); }
    ThreadFacts(s, w, t);
  }

  lemma AdoptBooks(s: State, w: Witness, t: Tid, c: nat, got: bool)
    requires Inv(s, w) && t in s.threads && s.threads[t].op == AdoptJudge(c, got)
    ensures Books(s, StepAdoptJudge(s, t, c, got), t)
  {
    hide Inv, ClassSize, SlotCount, Free, Shift, HoldsOK;
    if At(s.pages, Hand(t)) != [] { PageAt(s, w, Hand(t), 0); }
    ThreadFacts(s, w, t);
  }

  lemma AwaitBooks(s: State, w: Witness, t: Tid, c: nat)
    requires Inv(s, w) && t in s.threads && s.threads[t].op == Await(c)
    ensures Books(s, StepAwait(s, t, c), t)
  {
    hide Inv, ClassSize, SlotCount, Free, Shift, HoldsOK, AllSlots;
    ThreadFacts(s, w, t);
  }

  lemma ScanBooks(s: State, t: Tid, c: nat, k: nat)
    requires t in s.threads
    ensures s.threads[t].op == Partials(c) ==> Books(s, StepPartials(s, t, c), t)
    ensures s.threads[t].op == Scan(c, k) ==> Books(s, StepScan(s, t, c, k), t)
    ensures s.threads[t].op == ScanSwap(c, k) ==> Books(s, StepScanSwap(s, t, c, k), t)
  {
    hide Shift, Pour;
  }

  lemma JudgeBooks(s: State, t: Tid, c: nat, k: nat)
    requires t in s.threads
    ensures s.threads[t].op == ScanJudge(c, k) ==> Books(s, StepScanJudge(s, t, c, k), t)
  {
    hide SlotCount, ClassSize, Free, FullyFree, Shift, Pour;
  }

  lemma RequestBooks(s: State, t: Tid, c: nat)
    requires t in s.threads
    ensures s.threads[t].op == AdoptLoad(c) ==> Books(s, StepAdoptLoad(s, t, c), t)
    ensures s.threads[t].op == AdoptTake(c) ==> Books(s, StepAdoptTake(s, t, c), t)
  {
    hide Pour;
  }

  lemma ClaimBooks(s: State, t: Tid, c: nat, got: bool)
    requires t in s.threads
    ensures s.threads[t].op == Adopt(c, got) ==> Books(s, StepAdopt(s, t, c, got), t)
    ensures s.threads[t].op == AdoptDrain(c, got) ==> Books(s, StepAdoptDrain(s, t, c, got), t)
  {
    hide Shift, Pour;
  }

  lemma FreshBooks(s: State, t: Tid, c: nat)
    requires t in s.threads && s.threads[t].op == Fresh(c)
    ensures Books(s, StepFresh(s, t, c), t)
  {
    hide Shift;
  }

  lemma DrainBooks(s: State, t: Tid, p: Page, next: Cont)
    requires t in s.threads
    ensures s.threads[t].op == Drain(p, next) ==> Books(s, StepDrain(s, t, p, next), t)
    ensures s.threads[t].op == Push ==> Books(s, StepPush(s, t), t)
  {
    hide Shift;
    assert s.threads == s.threads[t := s.threads[t]];
  }

  lemma DropBooks(s: State, t: Tid, c: nat)
    requires t in s.threads
    ensures s.threads[t].op == Drop(c) ==> Books(s, StepDrop(s, t, c), t)
    ensures s.threads[t].op == DropDrain(c) ==> Books(s, StepDropDrain(s, t, c), t)
  {
    hide Shift, Pour;
  }

  lemma DiscardBooks(s: State, t: Tid, c: nat)
    requires t in s.threads
    ensures s.threads[t].op == DropJudge(c) ==> Books(s, StepDropJudge(s, t, c), t)
    ensures s.threads[t].op == Abandon(c) ==> Books(s, StepAbandon(s, t, c), t)
  {
    hide SlotCount, Free, FullyFree, Shift, Pour;
  }

  lemma StillBooks(s: State, t: Tid)
    requires t in s.threads
    ensures Books(s, s, t)
  {
    assert s.threads == s.threads[t := s.threads[t]];
  }

  lemma OpBooks(s: State, w: Witness, t: Tid)
    requires Inv(s, w) && t in s.threads
    ensures Books(s, StepOp(s, t), t)
  {
    hide Inv, Books, StepAlloc, StepRetry, StepPartials, StepScan, StepScanSwap, StepScanJudge, StepAdoptLoad,
         StepAdoptTake, StepAdopt, StepAdoptDrain, StepAdoptJudge, StepFresh, StepAwait, StepDrain, StepPush,
         StepDrop, StepDropDrain, StepDropJudge, StepAbandon;
    match s.threads[t].op {
      case Idle => StillBooks(s, t);
      case Crashed => StillBooks(s, t);
      case Alloc(c, _) => AllocBooks(s, w, t, c);
      case Retry(c) => AllocBooks(s, w, t, c);
      case Partials(c) => ScanBooks(s, t, c, 0);
      case Scan(c, k) => ScanBooks(s, t, c, k);
      case ScanSwap(c, k) => ScanBooks(s, t, c, k);
      case ScanJudge(c, k) => JudgeBooks(s, t, c, k);
      case AdoptLoad(c) => RequestBooks(s, t, c);
      case AdoptTake(c) => RequestBooks(s, t, c);
      case Adopt(c, got) => ClaimBooks(s, t, c, got);
      case AdoptDrain(c, got) => ClaimBooks(s, t, c, got);
      case AdoptJudge(c, got) => AdoptBooks(s, w, t, c, got);
      case Fresh(c) => FreshBooks(s, t, c);
      case Await(c) => AwaitBooks(s, w, t, c);
      case Drain(p, next) => DrainBooks(s, t, p, next);
      case Push => DrainBooks(s, t, 0, ToDrop(0));
      case Drop(c) => DropBooks(s, t, c);
      case DropDrain(c) => DropBooks(s, t, c);
      case DropJudge(c) => DiscardBooks(s, t, c);
      case Abandon(c) => DiscardBooks(s, t, c);
    }
  }

  /** Bytes and heaps are as before, and the thread has moved inside the pool at most, or crashed. */
  ghost predicate PoolOnly(s: State, s': State, t: Tid) {
    && t in s.threads && t in s'.threads && s'.threads == s.threads[t := s'.threads[t]] && s'.nextHeap == s.nextHeap
    && s'.freeBytes == s.freeBytes && s'.allocBytes == s.allocBytes
    && s'.threads[t].heap == s.threads[t].heap && (s'.threads[t].op == s.threads[t].op || s'.threads[t].op.Crashed?)
  }

  lemma PoolOnlyBooks(s: State, s': State, t: Tid)
    requires PoolOnly(s, s', t)
    ensures Books(s, s', t)
  {
    hide ClassOf, Dying;
  }

  lemma DeallocBooks(s: State, t: Tid)
    requires t in s.threads
    ensures PoolOnly(s, StepDealloc(s, t), t)
  {
    hide DeallocSection, At;
  }

  lemma PurgeBooks(s: State, t: Tid)
    requires t in s.threads
    ensures PoolOnly(s, StepPurgeEnter(s, t), t) && PoolOnly(s, StepPurgeExit(s, t), t)
  {
    hide PurgeTake, PurgeReturn, At;
  }

  lemma ObtainBooks(s: State, t: Tid)
    requires t in s.threads
    ensures PoolOnly(s, StepAllocEnter(s, t), t)
  {
    hide AllocSection, At;
  }

  lemma MapBooks(s: State, t: Tid, refused: bool)
    requires t in s.threads
    ensures PoolOnly(s, StepRegister(s, t), t) && PoolOnly(s, StepUnmap(s, t, refused), t)
  {
    hide RegisterSection, At;
  }

  lemma PoolBooks(s: State, t: Tid)
    requires t in s.threads
    ensures Books(s, StepPool(s, t), t)
  {
    hide StepDealloc, StepPurgeEnter, StepPurgeExit, StepAllocEnter, StepRegister, StepUnmap, Shift, Books;
    match s.threads[t].pool {
      case DeallocEnter => DeallocBooks(s, t);
      case PurgeEnter => PurgeBooks(s, t);
      case PurgeExit => PurgeBooks(s, t);
      case AllocEnter => ObtainBooks(s, t);
      case Register => MapBooks(s, t, false);
      case Unmap(refused) => MapBooks(s, t, refused);
      case PIdle => StillPool(s, t);
      case Got => StillPool(s, t);
      case Failed => StillPool(s, t);
      case _ =>
    }
    PoolOnlyBooks(s, StepPool(s, t), t);
  }

  lemma StillPool(s: State, t: Tid)
    requires t in s.threads
    ensures PoolOnly(s, s, t)
  {
    assert s.threads == s.threads[t := s.threads[t]];
  }

  /** A free counts once, on the freeing heap, or is lost. */
  lemma FreeBooks(s: State, w: Witness, t: Tid, id: nat)
    requires Inv(s, w) && Enabled(s, t, StartFree(id))
    ensures var s', p := StepFree(s, t, id), At(s.slots, Live(id))[0].page;
            && Heaped(s, s', t) && s'.allocBytes == s.allocBytes
            && p in s.slabs && s.slabs[p].sizeClass < NUM_CLASSES
            && s'.freeBytes == s.freeBytes + if s.threads[t].heap.Running? then ClassSize(s.slabs[p].sizeClass) else 0
  {
    hide Inv, SlotCount, ClassSize, Shift, FullyFree, Free;
    SlotFacts(s, w, Live(id), 0);
    SlabClass(s, w, At(s.slots, Live(id))[0].page);
    assert s.threads == s.threads[t := s.threads[t]];
  }

  lemma SlabClass(s: State, w: Witness, p: Page)
    requires Inv(s, w) && p in s.slabs
    ensures s.slabs[p].sizeClass < NUM_CLASSES
  {
    hide Pooled, SlotsOK, SpansOK, ThreadsOK, OwnersOK, IdsOK, SlotCount, Tiled;
    assert p in w.pages && PlaceOK(s, p, w.pages[p]);
  }

  // ----- what the registry sees

  /** The event a step is to the registry, if any. */
  function Entry(s: State, s': State, l: Label): Option<HR.Event<nat>>
    requires l.t in s.threads
  {
    var th := s.threads[l.t];
    if l.e.NewHeap? then Some(HR.Registers(s.nextHeap))
    else if !th.heap.Running? then None
    else
      match l.e
      case Exit => Some(HR.Deregisters(th.heap.id))
      case Go =>
        if s'.allocBytes != s.allocBytes && ClassOf(th.op) < NUM_CLASSES
        then Some(HR.Records(th.heap.id, HR.Alloc(ClassOf(th.op)))) else None
      case StartFree(id) =>
        var q := At(s.slots, Live(id));
        if q != [] && q[0].page in s.slabs && s.slabs[q[0].page].sizeClass < NUM_CLASSES
        then Some(HR.Records(th.heap.id, HR.Free(s.slabs[q[0].page].sizeClass))) else None
      case _ => None
  }

  function Append(es: Log, e: Option<HR.Event<nat>>): Log {
    match e
    case Some(v) => es + [v]
    case None => es
  }

  /** The log of the first `n` steps. */
  function LogTo(tr: seq<State>, ls: seq<Label>, n: nat): Log
    requires n <= |ls| < |tr| && forall i :: 0 <= i < |ls| ==> ls[i].t in tr[i].threads
  {
    if n == 0 then [] else Append(LogTo(tr, ls, n - 1), Entry(tr[n - 1], tr[n], ls[n - 1]))
  }

  /** The registry behind `es` is as full as `s` says, and has recorded the same bytes. */
  ghost predicate Agrees(s: State, es: Log) {
    && HR.Run(es).Some?
    && (forall e :: e in es ==> e.h < s.nextHeap)
    && (forall t :: t in s.threads && Active(s.threads[t]) ==> s.threads[t].heap.id in HR.Run(es).value.live)
    && HR.Ledger(es, HR.Ever(es), HR.AllocBytes) == s.allocBytes
    && HR.Ledger(es, HR.Ever(es), HR.FreeBytes) == s.freeBytes
  }

  lemma {:induction false} NoRecords(es: Log, h: nat, k: HR.Counter)
    requires forall e :: e in es ==> e.h != h
    ensures HR.Ledger(es, {h}, k) == 0
    decreases |es|
  {
    if es != [] { NoRecords(es[..|es| - 1], h, k); }
  }

  /** One more event the registry accepts. */
  lemma Accepts(es: Log, e: HR.Event<nat>)
    requires HR.Run(es).Some? && HR.Enabled(es, HR.Run(es).value, e)
    ensures HR.Run(es + [e]).Some? && HR.Run(es + [e]) == HR.Next(HR.Run(es).value, e)
  {
    HR.RunIndexed(es);
    assert (es + [e])[..|es|] == es;
  }

  /** What one more event adds to the ledger. */
  lemma LedgerAdds(es: Log, e: HR.Event<nat>, k: HR.Counter)
    requires HR.Run(es).Some? && HR.Enabled(es, HR.Run(es).value, e)
    requires e.Registers? ==> forall d :: d in es ==> d.h != e.h
    ensures HR.Ledger(es + [e], HR.Ever(es + [e]), k)
         == HR.Ledger(es, HR.Ever(es), k) + if e.Records? && e.h in HR.Run(es).value.live then HR.Amount(e.a, k) else 0
  {
    hide HR.Amount, HR.Run;
    var es' := es + [e];
    assert es'[..|es' | - 1] == es && es'[|es'| - 1] == e;
    HR.LedgerStep(es', k);
    HR.RunIndexed(es);
    match e
    case Registers(h) =>
      HR.LedgerSplit(es, HR.Ever(es), h, k);
      NoRecords(es, h, k);
    case _ =>
  }

  lemma RegisterAgrees(s: State, s': State, t: Tid, es: Log)
    requires Agrees(s, es) && t in s.threads && |HR.Run(es).value.live| < HR.MAX_HEAPS
    requires s' == s.(threads := s.threads[t := s.threads[t].(heap := Running(s.nextHeap))], nextHeap := s.nextHeap + 1)
    ensures Agrees(s', es + [HR.Registers(s.nextHeap)])
  {
    var e := HR.Registers(s.nextHeap);
    assert HR.Enabled(es, HR.Run(es).value, e);
    Accepts(es, e);
    LedgerAdds(es, e, HR.AllocBytes);
    LedgerAdds(es, e, HR.FreeBytes);
    hide HR.Ledger, HR.Ever, HR.Run, HR.Wellformed;
  }

  lemma DeregisterAgrees(s: State, s': State, t: Tid, es: Log)
    requires Agrees(s, es) && t in s.threads && Active(s.threads[t])
    requires forall u :: u in s.threads && u != t && Active(s.threads[u]) ==>
             s.threads[u].heap.id != s.threads[t].heap.id
    requires t in s'.threads && s' == s.(threads := s.threads[t := s'.threads[t]]) && !Active(s'.threads[t])
    ensures Agrees(s', es + [HR.Deregisters(s.threads[t].heap.id)])
  {
    var e := HR.Deregisters(s.threads[t].heap.id);
    assert HR.Enabled(es, HR.Run(es).value, e);
    Accepts(es, e);
    HR.RunIndexed(es);
    HR.DeregisterIndexed(HR.Run(es).value, e.h);
    LedgerAdds(es, e, HR.AllocBytes);
    LedgerAdds(es, e, HR.FreeBytes);
    hide HR.Ledger, HR.Ever, HR.Run, HR.Wellformed, HR.Deregister;
  }

  /** A step that records at most one act, on an active heap, keeps the registry in agreement. */
  lemma RecordAgrees(s: State, s': State, t: Tid, es: Log, a: HR.Act)
    requires Agrees(s, es) && Heaped(s, s', t) && !s'.threads[t].op.Crashed? && Active(s.threads[t])
    requires s.threads[t].heap.id < s.nextHeap
    requires s'.allocBytes == s.allocBytes + HR.Amount(a, HR.AllocBytes)
    requires s'.freeBytes == s.freeBytes + HR.Amount(a, HR.FreeBytes)
    ensures Agrees(s', es + [HR.Records(s.threads[t].heap.id, a)])
  {
    hide HR.Amount;
    var e := HR.Records(s.threads[t].heap.id, a);
    assert HR.Enabled(es, HR.Run(es).value, e);
    Accepts(es, e);
    LedgerAdds(es, e, HR.AllocBytes);
    LedgerAdds(es, e, HR.FreeBytes);
    hide HR.Ledger, HR.Ever, HR.Run, HR.Wellformed, HR.Recorded, HR.CountsOf, Dying;
  }

  lemma QuietAgrees(s: State, s': State, t: Tid, es: Log)
    requires Agrees(s, es) && Heaped(s, s', t) && !s'.threads[t].op.Crashed?
    requires s'.allocBytes == s.allocBytes && s'.freeBytes == s.freeBytes
    ensures Agrees(s', es)
  {
    hide HR.Ledger, HR.Ever, HR.Run, Dying;
  }

  /** The capacity the code asserts: the registry is not full when a heap registers. */
  predicate Room(e: Event, es: Log) {
    e.NewHeap? && HR.Run(es).Some? ==> |HR.Run(es).value.live| < HR.MAX_HEAPS
  }

  lemma GoAgrees(s: State, w: Witness, t: Tid, es: Log)
    requires Inv(s, w) && t in s.threads && Agrees(s, es)
    ensures Agrees(Next(s, t, Go), Append(es, Entry(s, Next(s, t, Go), Label(t, Go))))
  {
    hide Inv, StepOp, StepPool, Agrees;
    var w' := StepInv(s, w, t, Go);
    var s' := Next(s, t, Go);
    if InPool(s.threads[t]) { PoolBooks(s, t); } else { OpBooks(s, w, t); }
    ThreadFacts(s', w', t);
    hide HoldsOK, ClassOf, ClassSize, Next;
    if s'.allocBytes == s.allocBytes {
      QuietAgrees(s, s', t, es);
    } else {
      IdBelow(s, w, t);
      RecordAgrees(s, s', t, es, HR.Alloc(ClassOf(s.threads[t].op)));
    }
  }

  lemma IdBelow(s: State, w: Witness, t: Tid)
    requires Inv(s, w) && t in s.threads && s.threads[t].heap.Running?
    ensures s.threads[t].heap.id < s.nextHeap
    ensures forall u :: u in s.threads && u != t && s.threads[u].heap.Running? ==>
            s.threads[u].heap.id != s.threads[t].heap.id
  {
    hide Pooled, SlotsOK, SpansOK, ThreadsOK, OwnersOK, PagesOK, Tiled;
  }

  lemma FreeAgrees(s: State, w: Witness, t: Tid, id: nat, es: Log)
    requires Inv(s, w) && Enabled(s, t, StartFree(id)) && Agrees(s, es)
    ensures var s' := Next(s, t, StartFree(id)); Agrees(s', Append(es, Entry(s, s', Label(t, StartFree(id)))))
  {
    hide Inv, StepFree, Agrees;
    var w' := StepInv(s, w, t, StartFree(id));
    var s' := Next(s, t, StartFree(id));
    FreeBooks(s, w, t, id);
    ThreadFacts(s', w', t);
    hide HoldsOK, ClassSize;
    if s.threads[t].heap.Running? {
      IdBelow(s, w, t);
      RecordAgrees(s, s', t, es, HR.Free(s.slabs[At(s.slots, Live(id))[0].page].sizeClass));
    } else {
      QuietAgrees(s, s', t, es);
    }
  }

  lemma StepAgrees(s: State, w: Witness, l: Label, es: Log)
    requires Inv(s, w) && Enabled(s, l.t, l.e) && Agrees(s, es) && Room(l.e, es)
    ensures var s' := Next(s, l.t, l.e); Agrees(s', Append(es, Entry(s, s', l)))
  {
    hide Inv, StepFree, StepOp, StepPool, Agrees;
    var s', t := Next(s, l.t, l.e), l.t;
    match l.e {
      case Go => GoAgrees(s, w, t, es);
      case StartFree(id) => FreeAgrees(s, w, t, id, es);
      case NewHeap => AgreesRuns(s, es); RegisterAgrees(s, s', t, es);
      case Exit => IdBelow(s, w, t); DeregisterAgrees(s, s', t, es);
      case StartAlloc(c) => QuietAgrees(s, s', t, es);
      case Mapped(base) => NotCrashed(s, w, t); QuietAgrees(s, s', t, es);
    }
  }

  lemma NotCrashed(s: State, w: Witness, t: Tid)
    requires Inv(s, w) && t in s.threads
    ensures !s.threads[t].op.Crashed?
  {
    hide Inv, HoldsOK;
    ThreadFacts(s, w, t);
  }

  lemma AgreesRuns(s: State, es: Log)
    requires Agrees(s, es)
    ensures HR.Run(es).Some?
  {
  }

  /** Who did what is known, and the registry was never full when a heap registered. */
  ghost predicate Logged(tr: seq<State>, ls: seq<Label>) {
    && History(tr, ls) && (forall i :: 0 <= i < |ls| ==> ls[i].t in tr[i].threads)
    && forall i :: 0 <= i < |ls| ==> Room(ls[i].e, LogTo(tr, ls, i))
  }

  lemma {:induction false} RunAgrees(tr: seq<State>, ls: seq<Label>, n: nat)
    requires Logged(tr, ls) && n <= |ls|
    ensures Agrees(tr[n], LogTo(tr, ls, n))
  {
    if n > 0 {
      hide Init, Next, Enabled, Inv, Agrees, Entry, Room;
      var i := n - 1;
      RunAgrees(tr, ls, i);
      HistoryRuns(tr, ls);
      var w := RunInv(tr, i);
      assert Enabled(tr[i], ls[i].t, ls[i].e) && tr[i + 1] == Next(tr[i], ls[i].t, ls[i].e);
      assert Room(ls[i].e, LogTo(tr, ls, i));
      StepAgrees(tr[i], w, ls[i], LogTo(tr, ls, i));
    }
  }

  /**
   A snapshot in any state of any history without large allocations: the totals summed over dead and
   registered heaps agree with each other, `allocated` computed from them is exactly the bytes of
   live slots plus those freed by threads without a heap, and apart from the latter it is at most
   `active`, which is at most `mapped`.
   */
  lemma SnapshotOrdered(tr: seq<State>, ls: seq<Label>, n: nat)
    requires Logged(tr, ls) && n <= |ls|
    ensures HR.Run(LogTo(tr, ls, n)).Some?
    ensures var s, totals := tr[n], HR.Merged(HR.Run(LogTo(tr, ls, n)).value);
            var active, mapped := s.pool.outstanding * SLAB_SIZE, |s.pool.segs| * SEGMENT_SIZE;
            && HR.Balanced(totals)
            && HR.Allocated(totals) == SumBytes(s.slabs, LiveSlots(s)) + s.lostBytes
            && HR.Allocated(totals) - s.lostBytes <= active <= mapped
  {
    hide HR.Run, HR.Merged, HR.Balanced, HR.Ledger, HR.Ever, LiveSlots, LogTo, Init, Enabled, Next, Entry, Room;
    RunAgrees(tr, ls, n);
    HistoryRuns(tr, ls);
    hide Run;
    GaugesOrdered(tr, n, 0);
    var es := LogTo(tr, ls, n);
    HR.RunBalanced(es);
    HR.RunTotals(es, HR.AllocBytes);
    HR.RunTotals(es, HR.FreeBytes);
  }
}
