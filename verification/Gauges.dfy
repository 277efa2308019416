/**
 The gauges of a snapshot. Over every run, bytes allocated minus bytes freed are exactly the bytes
 of live slots plus what threads without a heap have freed past the counters; live bytes fit in the
 pages in use, and pages in use fit in the registered segments.
 */
module Gauges {
  import opened Places
  import opened Tiling
  import opened PoolSections
  import opened PoolInvariant
  import opened PoolSteps
  import opened SizeClasses
  import opened SlabGeometry
  import opened System
  import opened SystemInvariant
  import opened Frames
  import opened ControlSteps
  import opened SlotSteps
  import opened PageSteps
  import opened SlabSteps
  import opened LifeSteps
  import opened Safety

  const SEGMENT_SIZE: nat := SLABS_PER_SEGMENT * SLAB_SIZE

  /** The slots the client holds. */
  ghost function LiveSlots(s: State): set<Slot> {
    set id, x | 0 <= id < s.nextId && x in At(s.slots, Live(id)) :: x
  }

  /** The bytes a slot takes. */
  function SizeOf(slabs: map<Page, Header>, x: Slot): nat {
    if x.page in slabs then ClassSize(slabs[x.page].sizeClass) else 0
  }

  ghost function SumBytes(slabs: map<Page, Header>, xs: set<Slot>): nat {
    if xs == {} then 0 else var x :| x in xs; SizeOf(slabs, x) + SumBytes(slabs, xs - {x})
  }

  lemma {:induction false} SumPick(slabs: map<Page, Header>, xs: set<Slot>, x: Slot)
    requires x in xs
    ensures SumBytes(slabs, xs) == SizeOf(slabs, x) + SumBytes(slabs, xs - {x})
  {
    hide SizeOf;
    var y :| y in xs && SumBytes(slabs, xs) == SizeOf(slabs, y) + SumBytes(slabs, xs - {y});
    if y != x {
      SumPick(slabs, xs - {y}, x);
      SumPick(slabs, xs - {x}, y);
      assert xs - {y} - {x} == xs - {x} - {y};
    }
  }

  lemma {:induction false} SumSame(slabs: map<Page, Header>, slabs': map<Page, Header>, xs: set<Slot>)
    requires forall x :: x in xs ==> SizeOf(slabs', x) == SizeOf(slabs, x)
    ensures SumBytes(slabs', xs) == SumBytes(slabs, xs)
  {
    hide SizeOf;
    if xs != {} {
      var x :| x in xs;
      SumPick(slabs, xs, x);
      SumPick(slabs', xs, x);
      SumSame(slabs, slabs', xs - {x});
    }
  }

  lemma {:induction false} SumUnion(slabs: map<Page, Header>, xs: set<Slot>, ys: set<Slot>)
    requires xs !! ys
    ensures SumBytes(slabs, xs + ys) == SumBytes(slabs, xs) + SumBytes(slabs, ys)
  {
    hide SizeOf;
    if xs == {} {
      assert xs + ys == ys;
    } else {
      var x :| x in xs;
      SumPick(slabs, xs, x);
      SumPick(slabs, xs + ys, x);
      assert xs + ys - {x} == (xs - {x}) + ys;
      SumUnion(slabs, xs - {x}, ys);
    }
  }

  /** The counters account for every live byte. */
  ghost predicate BytesOK(s: State) {
    s.allocBytes == s.freeBytes + s.lostBytes + SumBytes(s.slabs, LiveSlots(s))
  }

  // ----- effects of steps on the live slots

  /** A live slot lies in a slab, and a slab that survives a step keeps its class. */
  ghost predicate ClassesKept(s: State, s': State) {
    forall q :: q in s.slabs && q in s'.slabs ==> s'.slabs[q].sizeClass == s.slabs[q].sizeClass
  }

  ghost predicate LiveSame(s: State, s': State) {
    && s'.nextId == s.nextId && (forall id :: At(s'.slots, Live(id)) == At(s.slots, Live(id)))
    && s'.allocBytes == s.allocBytes && s'.freeBytes == s.freeBytes && s'.lostBytes == s.lostBytes
    && ClassesKept(s, s')
  }

  /** One slot becomes live and its bytes are counted. */
  ghost predicate Gain(s: State, s': State) {
    && s'.nextId == s.nextId + 1 && |At(s'.slots, Live(s.nextId))| == 1
    && (forall id :: id != s.nextId ==> At(s'.slots, Live(id)) == At(s.slots, Live(id)))
    && s'.allocBytes == s.allocBytes + SizeOf(s'.slabs, At(s'.slots, Live(s.nextId))[0])
    && s'.freeBytes == s.freeBytes && s'.lostBytes == s.lostBytes
    && ClassesKept(s, s')
  }

  /** One slot stops being live and its bytes are counted. */
  ghost predicate Loss(s: State, s': State, n: nat) {
    && s'.nextId == s.nextId && |At(s.slots, Live(n))| == 1 && At(s'.slots, Live(n)) == []
    && (forall id :: id != n ==> At(s'.slots, Live(id)) == At(s.slots, Live(id)))
    && s'.freeBytes + s'.lostBytes == s.freeBytes + s.lostBytes + SizeOf(s.slabs, At(s.slots, Live(n))[0])
    && s'.allocBytes == s.allocBytes
    && ClassesKept(s, s')
  }

  lemma LivePage(s: State, w: Witness, x: Slot)
    requires Inv(s, w) && x in LiveSlots(s)
    ensures x.page in s.slabs
  {
    hide Inv, SlotCount;
    var id: nat :| id < s.nextId && x in At(s.slots, Live(id));
    var i :| 0 <= i < |At(s.slots, Live(id))| && At(s.slots, Live(id))[i] == x;
    SlotFacts(s, w, Live(id), i);
  }

  lemma LiveSizes(s: State, w: Witness, s': State, w': Witness, xs: set<Slot>)
    requires Inv(s, w) && Inv(s', w') && ClassesKept(s, s') && xs <= LiveSlots(s) && xs <= LiveSlots(s')
    ensures SumBytes(s'.slabs, xs) == SumBytes(s.slabs, xs)
  {
    hide Inv, LiveSlots, ClassSize;
    forall x | x in xs ensures SizeOf(s'.slabs, x) == SizeOf(s.slabs, x) {
      LivePage(s, w, x);
      LivePage(s', w', x);
    }
    SumSame(s.slabs, s'.slabs, xs);
  }

  lemma SameBytes(s: State, w: Witness, s': State, w': Witness)
    requires Inv(s, w) && Inv(s', w') && LiveSame(s, s') && BytesOK(s)
    ensures BytesOK(s')
  {
    hide Inv;
    assert LiveSlots(s') == LiveSlots(s);
    hide LiveSlots;
    LiveSizes(s, w, s', w', LiveSlots(s));
  }

  lemma LiveApart(s: State, w: Witness, a: nat, b: nat, x: Slot)
    requires Inv(s, w) && x in At(s.slots, Live(a)) && x in At(s.slots, Live(b))
    ensures a == b
  {
    hide PoolInv, ThreadsOK, SpansOK, OwnersOK, SlotsOK, PagesOK, IdsOK;
    assert w.slots[x] == Live(a) && w.slots[x] == Live(b);
  }

  lemma GainBytes(s: State, w: Witness, s': State, w': Witness)
    requires Inv(s, w) && Inv(s', w') && Gain(s, s') && BytesOK(s)
    ensures BytesOK(s')
  {
    hide Inv, ClassSize;
    var x := At(s'.slots, Live(s.nextId))[0];
    assert x in At(s'.slots, Live(s.nextId));
    assert LiveSlots(s') == LiveSlots(s) + {x};
    assert x !in LiveSlots(s) by {
      forall id: nat | id < s.nextId ensures x !in At(s.slots, Live(id)) {
        if x in At(s'.slots, Live(id)) { LiveApart(s', w', id, s.nextId, x); }
      }
    }
    hide LiveSlots;
    SumPick(s'.slabs, LiveSlots(s'), x);
    assert LiveSlots(s') - {x} == LiveSlots(s);
    LiveSizes(s, w, s', w', LiveSlots(s));
  }

  lemma LossBytes(s: State, w: Witness, s': State, w': Witness, n: nat)
    requires Inv(s, w) && Inv(s', w') && Loss(s, s', n) && BytesOK(s) && n < s.nextId
    ensures BytesOK(s')
  {
    hide Inv, ClassSize;
    var x := At(s.slots, Live(n))[0];
    assert x in At(s.slots, Live(n));
    assert LiveSlots(s') == LiveSlots(s) - {x} by {
      forall id: nat | id < s.nextId && id != n ensures x !in At(s.slots, Live(id)) {
        if x in At(s.slots, Live(id)) { LiveApart(s, w, id, n, x); }
      }
    }
    assert x in LiveSlots(s);
    hide LiveSlots;
    SumPick(s.slabs, LiveSlots(s), x);
    LiveSizes(s, w, s', w', LiveSlots(s'));
  }

  // ----- heap.rs

  lemma LiveFrame(m: map<SlotPlace, seq<Slot>>)
    ensures forall a: SlotPlace, i: nat, b: SlotPlace, id: nat {:trigger At(Shift(m, a, i, b), Live(id))} ::
              i < |At(m, a)| && !a.Live? && !b.Live? ==> At(Shift(m, a, i, b), Live(id)) == At(m, Live(id))
    ensures forall a: SlotPlace, b: SlotPlace, id: nat {:trigger At(Pour(m, a, b), Live(id))} ::
              !a.Live? && !b.Live? ==> At(Pour(m, a, b), Live(id)) == At(m, Live(id))
  {
  }

  lemma WalkSame(s: State, t: Tid, c: nat, k: nat)
    requires t in s.threads
    ensures LiveSame(s, StepPartials(s, t, c)) && LiveSame(s, StepScan(s, t, c, k)) &&
            LiveSame(s, StepScanSwap(s, t, c, k))
    ensures LiveSame(s, StepAdoptLoad(s, t, c)) && LiveSame(s, StepAdoptTake(s, t, c))
  {
    LiveFrame(s.slots);
    hide Shift, Pour;
  }

  lemma AdoptSame(s: State, t: Tid, c: nat, got: bool)
    requires t in s.threads
    ensures LiveSame(s, StepAdopt(s, t, c, got)) && LiveSame(s, StepAdoptDrain(s, t, c, got)) &&
            LiveSame(s, StepFresh(s, t, c))
  {
    LiveFrame(s.slots);
    hide Shift, Pour;
  }

  lemma DropSame(s: State, t: Tid, c: nat, p: Page, next: Cont)
    requires t in s.threads
    ensures LiveSame(s, StepDrain(s, t, p, next)) && LiveSame(s, StepPush(s, t)) && LiveSame(s, StepDropDrain(s, t, c))
    ensures LiveSame(s, StepDrop(s, t, c)) && LiveSame(s, StepAbandon(s, t, c)) && LiveSame(s, Crash(s, t))
  {
    LiveFrame(s.slots);
    hide Shift, Pour;
  }

  lemma JudgeSame(s: State, t: Tid, c: nat, k: nat)
    requires t in s.threads
    ensures LiveSame(s, StepScanJudge(s, t, c, k))
  {
    hide Shift, SlotCount, Free, FullyFree;
  }

  lemma DropJudgeSame(s: State, t: Tid, c: nat)
    requires t in s.threads
    ensures LiveSame(s, StepDropJudge(s, t, c))
  {
    hide Shift, SlotCount, Free, FullyFree;
  }

  lemma TookGain(s: State, w: Witness, p: Page)
    requires Inv(s, w) && p in s.slabs && Free(s, p) > 0
    ensures Gain(s, SlabAlloc(s, p))
  {
    hide Inv, SlotCount, ClassSize;
    FreshId(s, w);
    SlotFacts(s, w, Source(s, p), 0);
    ShiftAt(s.slots, Source(s, p), 0, Live(s.nextId));
    hide Shift;
  }

  lemma GainMore(s: State, s1: State, s': State)
    requires Gain(s, s1) && s' == s1.(pages := s'.pages, threads := s'.threads)
    ensures Gain(s, s')
  {
  }

  lemma AllocEffectBytes(s: State, w: Witness, t: Tid, c: nat)
    requires Inv(s, w) && t in s.threads &&
             (s.threads[t].op == Retry(c) || (s.threads[t].op.Alloc? && s.threads[t].op.c == c))
    ensures var s' := if s.threads[t].op.Retry? then StepRetry(s, t, c) else StepAlloc(s, t, c);
            Gain(s, s') || LiveSame(s, s')
  {
    hide Inv, ClassSize, SlotCount;
    LiveFrame(s.slots);
    var bin := At(s.pages, Bin(t, c));
    if bin != [] && bin[0] in s.slabs && Free(s, bin[0]) > 0 {
      TookGain(s, w, bin[0]);
      hide SlabAlloc, Gain;
      GainMore(s, SlabAlloc(s, bin[0]), SetOp(SlabAlloc(s, bin[0]), t, Idle));
    } else {
      hide Shift, Pour;
    }
  }

  lemma AdoptJudgeBytes(s: State, w: Witness, t: Tid, c: nat, got: bool)
    requires Inv(s, w) && t in s.threads && s.threads[t].op == AdoptJudge(c, got)
    ensures Gain(s, StepAdoptJudge(s, t, c, got)) || LiveSame(s, StepAdoptJudge(s, t, c, got))
  {
    hide Inv, ClassSize, SlotCount;
    var chain := At(s.pages, Hand(t));
    if chain != [] && chain[0] in s.slabs && !FullyFree(s, chain[0]) && !got && Free(s, chain[0]) > 0 {
      TookGain(s, w, chain[0]);
      hide SlabAlloc, Gain, FullyFree;
      GainMore(s, SlabAlloc(s, chain[0]), StepAdoptJudge(s, t, c, got));
    } else {
      hide Shift;
    }
  }

  lemma AwaitBytes(s: State, w: Witness, t: Tid, c: nat)
    requires Inv(s, w) && t in s.threads && s.threads[t].op == Await(c) && !InPool(s.threads[t])
    ensures Gain(s, StepAwait(s, t, c)) || LiveSame(s, StepAwait(s, t, c))
  {
    hide Inv, ClassSize, SlotCount, AllSlots;
    ThreadFacts(s, w, t);
    hide ThreadOK;
    if s.threads[t].pool.Got? {
      InitFacts(s, w, t, c);
      var p := At(s.pages, Raw(t))[0];
      var s0 := Inited(s, p, c, s.threads[t].heap.id);
      hide StepAwait;
      InitGain(s, s0, p, c);
      hide SlabAlloc, Gain, Inited;
      GainMore(s, SlabAlloc(s0, p), StepAwait(s, t, c));
    }
  }

  /** The first slot of a fresh slab becomes live. */
  lemma InitGain(s: State, s0: State, p: Page, c: nat)
    requires At(s.slots, Local(p)) == [] && At(s.slots, Virgin(p)) == [] && p !in s.slabs
    requires At(s.slots, Live(s.nextId)) == []
    requires s0 == s.(slabs := s0.slabs, slots := s.slots[Virgin(p) := AllSlots(p, c)])
    requires p in s0.slabs && s0.slabs == s.slabs[p := s0.slabs[p]]
    ensures Free(s0, p) > 0 && Gain(s, SlabAlloc(s0, p))
  {
    hide ClassSize, SlotCount, AllSlots;
    assert At(s0.slots, Local(p)) == [] && At(s0.slots, Virgin(p)) == AllSlots(p, c);
    assert AllSlots(p, c)[0].page == p by { FirstSlot(p, c); }
    assert At(s0.slots, Live(s0.nextId)) == [];
    ShiftAt(s0.slots, Virgin(p), 0, Live(s0.nextId));
    hide Shift;
  }

  lemma FirstSlot(p: Page, c: nat)
    ensures AllSlots(p, c)[0] == Slot(p, 0)
  {
  }

  lemma OpBytes(s: State, w: Witness, t: Tid)
    requires Inv(s, w) && t in s.threads && !InPool(s.threads[t])
    ensures Gain(s, StepOp(s, t)) || LiveSame(s, StepOp(s, t))
  {
    hide Inv, StepAlloc, StepRetry, StepPartials, StepScan, StepScanSwap, StepScanJudge, StepAdoptLoad,
         StepAdoptTake, StepAdopt, StepAdoptDrain, StepAdoptJudge, StepFresh, StepAwait, StepDrain, StepPush,
         StepDrop, StepDropDrain, StepDropJudge, StepAbandon, LiveSame, Gain;
    match s.threads[t].op {
      case Idle => StillSame(s);
      case Crashed => StillSame(s);
      case Alloc(c, _) => AllocEffectBytes(s, w, t, c);
      case Retry(c) => AllocEffectBytes(s, w, t, c);
      case Partials(c) => WalkSame(s, t, c, 0);
      case Scan(c, k) => WalkSame(s, t, c, k);
      case ScanSwap(c, k) => WalkSame(s, t, c, k);
      case ScanJudge(c, k) => JudgeSame(s, t, c, k);
      case AdoptLoad(c) => WalkSame(s, t, c, 0);
      case AdoptTake(c) => WalkSame(s, t, c, 0);
      case Adopt(c, got) => AdoptSame(s, t, c, got);
      case AdoptDrain(c, got) => AdoptSame(s, t, c, got);
      case AdoptJudge(c, got) => AdoptJudgeBytes(s, w, t, c, got);
      case Fresh(c) => AdoptSame(s, t, c, false);
      case Await(c) => AwaitBytes(s, w, t, c);
      case Drain(p, next) => DropSame(s, t, 0, p, next);
      case Push => DropSame(s, t, 0, 0, ToDrop(0));
      case Drop(c) => DropSame(s, t, c, 0, ToDrop(0));
      case DropDrain(c) => DropSame(s, t, c, 0, ToDrop(0));
      case DropJudge(c) => DropJudgeSame(s, t, c);
      case Abandon(c) => DropSame(s, t, c, 0, ToDrop(0));
    }
  }

  lemma StillSame(s: State)
    ensures LiveSame(s, s)
  {
  }

  lemma PoolSame(s: State, t: Tid)
    requires t in s.threads
    ensures LiveSame(s, StepPool(s, t))
  {
    hide LiveSame;
    PoolKeeps(s, t);
    PlainSame(s, StepPool(s, t));
  }

  predicate SlotsKept(s: State, s': State) {
    && s'.slots == s.slots && s'.slabs == s.slabs && s'.nextId == s.nextId
    && s'.allocBytes == s.allocBytes && s'.freeBytes == s.freeBytes && s'.lostBytes == s.lostBytes
  }

  lemma SectionsKeep(s: State, t: Tid)
    requires t in s.threads
    ensures SlotsKept(s, StepDealloc(s, t)) && SlotsKept(s, StepPurgeEnter(s, t)) && SlotsKept(s, StepPurgeExit(s, t))
    ensures SlotsKept(s, StepAllocEnter(s, t)) && SlotsKept(s, StepRegister(s, t))
    ensures forall refused :: SlotsKept(s, StepUnmap(s, t, refused))
  {
    hide DeallocSection, PurgeTake, PurgeReturn, AllocSection, RegisterSection;
  }

  lemma PoolKeeps(s: State, t: Tid)
    requires t in s.threads
    ensures SlotsKept(s, StepPool(s, t))
  {
    hide StepDealloc, StepPurgeEnter, StepPurgeExit, StepAllocEnter, StepRegister, StepUnmap, Shift, SlotsKept;
    SectionsKeep(s, t);
    match s.threads[t].pool {
      case PIdle => PlainKeeps(s, s);
      case Got => PlainKeeps(s, s);
      case Failed => PlainKeeps(s, s);
      case CacheEnter => PlainKeeps(s, StepPool(s, t));
      case CachePush => PlainKeeps(s, StepPool(s, t));
      case CacheCount => PlainKeeps(s, StepPool(s, t));
      case UncacheCount => PlainKeeps(s, StepPool(s, t));
      case Mmap => PlainKeeps(s, StepPool(s, t));
      case _ =>
    }
  }

  lemma PlainKeeps(s: State, s': State)
    requires s'.slots == s.slots && s'.slabs == s.slabs && s'.nextId == s.nextId
    requires s'.allocBytes == s.allocBytes && s'.freeBytes == s.freeBytes && s'.lostBytes == s.lostBytes
    ensures SlotsKept(s, s')
  {
  }

  /** `dealloc` up to what it does with pages and positions: one slot leaves the live ones. */
  lemma FreeLists(s: State, t: Tid, id: nat)
    requires Enabled(s, t, StartFree(id)) && At(s.slots, Live(id))[0].page in s.slabs
    ensures var s', p := StepFree(s, t, id), At(s.slots, Live(id))[0].page;
            && s'.nextId == s.nextId && s'.allocBytes == s.allocBytes
            && s'.freeBytes + s'.lostBytes == s.freeBytes + s.lostBytes + ClassSize(s.slabs[p].sizeClass)
            && (s'.slabs == s.slabs || s'.slabs == s.slabs - {p})
            && (s'.slots == Shift(s.slots, Live(id), 0, Pushing(t)) || s'.slots == Shift(s.slots, Live(id), 0, Local(p))
                || s'.slots == Shift(s.slots, Live(id), 0, Local(p))[Local(p) := []][Virgin(p) := []])
  {
    hide SlotCount, ClassSize, Shift, FullyFree, Free;
    var x := At(s.slots, Live(id))[0];
    var s1 := s.(freeBytes := s.freeBytes + ClassSize(s.slabs[x.page].sizeClass),
                 slots := Shift(s.slots, Live(id), 0, Local(x.page)));
    QueuedLists(s1, t, s.slabs[x.page].sizeClass, x.page);
    hide FreeQueued;
  }

  /** What becomes of the slab after a free leaves the slots alone, or forgets those of the slab. */
  lemma QueuedLists(s: State, t: Tid, c: nat, p: Page)
    requires t in s.threads && p in s.slabs
    ensures var s' := FreeQueued(s, t, c, p);
            && s'.nextId == s.nextId && s'.allocBytes == s.allocBytes
            && s'.freeBytes == s.freeBytes && s'.lostBytes == s.lostBytes
            && ((s'.slabs == s.slabs && s'.slots == s.slots) ||
                (s'.slabs == s.slabs - {p} && s'.slots == s.slots[Local(p) := []][Virgin(p) := []]))
  {
    hide SlotCount, Shift, FullyFree, Free;
  }

  lemma FreeLoss(s: State, w: Witness, t: Tid, id: nat)
    requires Inv(s, w) && Enabled(s, t, StartFree(id))
    ensures Loss(s, StepFree(s, t, id), id) && id < s.nextId
  {
    hide Inv, SlotCount, ClassSize, StepFree, Shift;
    LiveFacts(s, w, id);
    var p := At(s.slots, Live(id))[0].page;
    FreeFrame(s.slots, id, Local(p));
    FreeFrame(s.slots, id, Pushing(t));
    FreeLists(s, t, id);
  }

  lemma LiveFacts(s: State, w: Witness, id: nat)
    requires Inv(s, w) && At(s.slots, Live(id)) != []
    ensures |At(s.slots, Live(id))| == 1 && id < s.nextId && At(s.slots, Live(id))[0].page in s.slabs
  {
    hide Inv, SlotCount, Tiled;
    SlotFacts(s, w, Live(id), 0);
    InvSlots(s, w);
  }

  lemma FreeFrame(m: map<SlotPlace, seq<Slot>>, id: nat, b: SlotPlace)
    requires |At(m, Live(id))| == 1 && !b.Live?
    ensures At(Shift(m, Live(id), 0, b), Live(id)) == []
    ensures forall n :: n != id ==> At(Shift(m, Live(id), 0, b), Live(n)) == At(m, Live(n))
  {
  }

  lemma BytesStep(s: State, w: Witness, t: Tid, e: Event)
    requires Inv(s, w) && Enabled(s, t, e) && BytesOK(s)
    ensures BytesOK(Next(s, t, e))
  {
    hide Inv, BytesOK, LiveSame, Gain, Loss, StepPool, StepOp, StepFree;
    var s' := Next(s, t, e);
    var w' := StepInv(s, w, t, e);
    match e {
      case Go =>
        if InPool(s.threads[t]) { PoolSame(s, t); } else { OpBytes(s, w, t); }
        if LiveSame(s, s') { SameBytes(s, w, s', w'); } else { GainBytes(s, w, s', w'); }
      case StartFree(id) => FreeLoss(s, w, t, id); LossBytes(s, w, s', w', id);
      case NewHeap => PlainSame(s, s'); SameBytes(s, w, s', w');
      case StartAlloc(c) => PlainSame(s, s'); SameBytes(s, w, s', w');
      case Exit => PlainSame(s, s'); SameBytes(s, w, s', w');
      case Mapped(base) => PlainSame(s, s'); SameBytes(s, w, s', w');
    }
  }

  lemma PlainSame(s: State, s': State)
    requires s'.slots == s.slots && s'.slabs == s.slabs && s'.nextId == s.nextId
    requires s'.allocBytes == s.allocBytes && s'.freeBytes == s.freeBytes && s'.lostBytes == s.lostBytes
    ensures LiveSame(s, s')
  {
  }

  /** Over every run: allocated minus freed is live plus lost, to the byte. */
  lemma {:induction false} RunBytes(tr: seq<State>, n: nat)
    requires Run(tr) && n < |tr|
    ensures BytesOK(tr[n])
  {
    if n == 0 {
      assert LiveSlots(tr[0]) == {};
    } else {
      hide Init, Next, BytesOK;
      RunBytes(tr, n - 1);
      var w := RunInv(tr, n - 1);
      var t, e := StepOf(tr, n);
      hide Inv;
      BytesStep(tr[n - 1], w, t, e);
    }
  }

  // ----- allocated <= active <= mapped

  lemma {:induction false} SumBound(slabs: map<Page, Header>, xs: set<Slot>, n: nat)
    requires forall x :: x in xs ==> SizeOf(slabs, x) == n
    ensures SumBytes(slabs, xs) == |xs| * n
  {
    hide SizeOf;
    if xs != {} {
      var x :| x in xs;
      SumPick(slabs, xs, x);
      SumBound(slabs, xs - {x}, n);
      assert |xs| * n == |xs - {x}| * n + n;
    }
  }

  /** The slots of one page fit in the page. */
  lemma PageBytes(s: State, w: Witness, p: Page)
    requires Inv(s, w) && p in s.slabs
    ensures SumBytes(s.slabs, set x | x in LiveSlots(s) && x.page == p) <= SLAB_SIZE
  {
    hide Inv, ClassSize, SlotCount, LiveSlots;
    var xs := set x | x in LiveSlots(s) && x.page == p;
    var c := s.slabs[p].sizeClass;
    SumBound(s.slabs, xs, ClassSize(c));
    forall x | x in xs ensures x in PageSlots(p, SlotCount(c)) {
      LiveIndex(s, w, x);
      assert x == Slot(p, x.idx);
    }
    PageSlotsSize(p, SlotCount(c));
    SubsetSize(xs, PageSlots(p, SlotCount(c)));
    MulMono(|xs|, SlotCount(c), ClassSize(c));
    SlotBounds(c, SlotCount(c) - 1);
    assert SlotCount(c) * ClassSize(c) == (SlotCount(c) - 1) * ClassSize(c) + ClassSize(c);
  }

  lemma LiveIndex(s: State, w: Witness, x: Slot)
    requires Inv(s, w) && x in LiveSlots(s)
    ensures x.page in s.slabs && x.idx < SlotCount(s.slabs[x.page].sizeClass)
  {
    hide Inv, SlotCount;
    var id: nat :| id < s.nextId && x in At(s.slots, Live(id));
    var i :| 0 <= i < |At(s.slots, Live(id))| && At(s.slots, Live(id))[i] == x;
    SlotFacts(s, w, Live(id), i);
  }

  lemma {:induction false} PagesBytes(s: State, w: Witness, ps: set<Page>)
    requires Inv(s, w) && ps <= s.slabs.Keys
    ensures SumBytes(s.slabs, set x | x in LiveSlots(s) && x.page in ps) <= |ps| * SLAB_SIZE
  {
    hide Inv, LiveSlots, SizeOf;
    var xs := set x | x in LiveSlots(s) && x.page in ps;
    if ps == {} {
      assert xs == {};
    } else {
      var p :| p in ps;
      var here, rest := set x | x in LiveSlots(s) && x.page == p, set x | x in LiveSlots(s) && x.page in ps - {p};
      assert xs == here + rest;
      SumUnion(s.slabs, here, rest);
      PageBytes(s, w, p);
      PagesBytes(s, w, ps - {p});
    }
  }

  lemma {:induction false} SegmentsHold(segs: seq<nat>, ps: set<Page>)
    requires forall p :: p in ps ==> exists i :: 0 <= i < |segs| && InSegment(segs[i], p)
    ensures |ps| <= SLABS_PER_SEGMENT * |segs|
  {
    hide InSegment, SegmentPages;
    if segs == [] {
      assert ps == {};
    } else {
      var n := |segs| - 1;
      var last := set p | p in ps && InSegment(segs[n], p);
      SegmentSize(segs[n]);
      SubsetSize(last, SegmentPages(segs[n]));
      forall p | p in ps - last ensures exists i :: 0 <= i < n && InSegment(segs[..n][i], p) {
        var i :| 0 <= i < |segs| && InSegment(segs[i], p);
        assert segs[..n][i] == segs[i];
      }
      SegmentsHold(segs[..n], ps - last);
      assert ps == (ps - last) + last;
    }
  }

  /** Slab pages are in use, and pages in use belong to registered segments. */
  lemma UseBounds(s: State, w: Witness)
    requires Inv(s, w)
    ensures |s.slabs| <= s.pool.outstanding <= SLABS_PER_SEGMENT * |s.pool.segs|
  {
    hide Tiled, ThreadsOK, SlotsOK, SpansOK, OwnersOK, IdsOK, SlotCount, Counted, AllApart, CursorOK;
    forall p | p in s.slabs.Keys ensures p in InUse(w.pages) {
      assert PlaceOK(s, p, w.pages[p]);
    }
    SubsetSize(s.slabs.Keys, InUse(w.pages));
    forall p | p in InUse(w.pages) ensures exists i :: 0 <= i < |s.pool.segs| && InSegment(s.pool.segs[i], p) {
      var i := FindSegment(s.pool.segs, p).value;
      assert InSegment(s.pool.segs[i], p);
    }
    SegmentsHold(s.pool.segs, InUse(w.pages));
  }

  /**
   `allocated <= active <= mapped` in every state of every run in which no thread without a heap
   has freed anything; `large` is the footprint of large allocations, the same in all three gauges
   when no large allocation is under way. Otherwise `allocated` overstates by exactly the lost bytes.
   */
  lemma GaugesOrdered(tr: seq<State>, n: nat, large: nat)
    requires Run(tr) && n < |tr|
    ensures var s := tr[n];
            var bytes := s.allocBytes - s.freeBytes + large;
            var active := s.pool.outstanding * SLAB_SIZE + large;
            var mapped := |s.pool.segs| * SEGMENT_SIZE + large;
            && 0 <= bytes - s.lostBytes <= active <= mapped
            && bytes - s.lostBytes == SumBytes(s.slabs, LiveSlots(s)) + large
  {
    hide Inv, Run, SizeOf, LiveSlots;
    var s := tr[n];
    var w := RunInv(tr, n);
    RunBytes(tr, n);
    UseBounds(s, w);
    PagesBytes(s, w, s.slabs.Keys);
    assert (set x | x in LiveSlots(s) && x.page in s.slabs.Keys) == LiveSlots(s) by {
      forall x | x in LiveSlots(s) ensures x.page in s.slabs.Keys { LivePage(s, w, x); }
    }
  }
}
