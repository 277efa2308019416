/**
 What it means when an allocation fails with nobody else at work: not one slot of the class was to
 be had in the heap or among the abandoned slabs, and not one page in the cache or in the pool.
 */
module Alone {
  import opened Places
  import opened Tiling
  import opened PoolSections
  import opened PoolInvariant
  import opened PoolSteps
  import opened SizeClasses
  import opened SlabGeometry
  import opened System
  import opened SystemInvariant
  import opened Frames
  import opened ControlSteps
  import opened SlotSteps
  import opened Safety

  type Slots = map<SlotPlace, seq<Slot>>

  /** The first `k` slabs of `q` have nothing on their remote stacks. */
  ghost predicate ClearTo(m: Slots, q: seq<Page>, k: nat) {
    forall i :: 0 <= i < k && i < |q| ==> At(m, Remote(q[i])) == []
  }

  ghost predicate AllClear(s: State, t: Tid, c: nat) {
    var full := At(s.pages, Full(t, c));
    ClearTo(s.slots, full, |full|)
  }

  ghost predicate NoneLeft(s: State, t: Tid, c: nat) {
    AllClear(s, t, c) && At(s.pages, Abandoned(c)) == []
  }

  predicate PoolEmpty(o: Pool) {
    o.dirty == [] && o.clean == [] && o.cursor >= o.end
  }

  /** What a thread that works alone knows at each position on the way to a new page. */
  ghost predicate Known(s: State, t: Tid) {
    t in s.threads &&
    var po := s.threads[t].pool;
    match s.threads[t].op
    case Scan(c, k) => ClearTo(s.slots, At(s.pages, Full(t, c)), k)
    case ScanSwap(c, k) => ClearTo(s.slots, At(s.pages, Full(t, c)), k)
    case ScanJudge(c, k) => ClearTo(s.slots, At(s.pages, Full(t, c)), k + 1)
    case Drain(_, ToScan(c, k)) => ClearTo(s.slots, At(s.pages, Full(t, c)), k + 1)
    case AdoptLoad(c) => AllClear(s, t, c)
    case AdoptTake(c) => AllClear(s, t, c)
    case Adopt(c, _) => NoneLeft(s, t, c)
    case AdoptDrain(c, _) => NoneLeft(s, t, c)
    case Drain(_, ToAdopt(c, _)) => NoneLeft(s, t, c) && ClearTo(s.slots, At(s.pages, Hand(t)), 1)
    case AdoptJudge(c, _) => NoneLeft(s, t, c) && ClearTo(s.slots, At(s.pages, Hand(t)), 1)
    case Fresh(c) => NoneLeft(s, t, c)
    case Await(c) =>
      && NoneLeft(s, t, c)
      && (po in {AllocEnter, Mmap, Register, Unmap(true), Failed} ==> At(s.pages, Cached) == [])
      && (po in {Mmap, Register, Unmap(true), Failed} ==> PoolEmpty(s.pool))
    case _ => true
  }

  /** Moves of slots that leave remote stacks alone. */
  lemma RemoteFrame(m: Slots)
    ensures forall a: SlotPlace, i: nat, b: SlotPlace, p: Page {:trigger At(Shift(m, a, i, b), Remote(p))} ::
              i < |At(m, a)| && !a.Remote? && !b.Remote? ==> At(Shift(m, a, i, b), Remote(p)) == At(m, Remote(p))
    ensures forall p: Page, t: Tid, r: Page {:trigger At(Pour(m, Remote(p), Draining(t)), Remote(r))} ::
              At(Pour(m, Remote(p), Draining(t)), Remote(r)) == if r == p then [] else At(m, Remote(r))
  {
  }

  lemma ScanKnown(s: State, t: Tid, c: nat, k: nat)
    requires Known(s, t)
    ensures s.threads[t].op == Scan(c, k) ==> Known(StepScan(s, t, c, k), t)
    ensures s.threads[t].op == ScanSwap(c, k) ==> Known(StepScanSwap(s, t, c, k), t)
    ensures s.threads[t].op == Partials(c) ==> Known(StepPartials(s, t, c), t)
  {
    RemoteFrame(s.slots);
    hide Shift, Pour;
  }

  lemma DrainKnown(s: State, t: Tid, p: Page, next: Cont)
    requires Known(s, t) && s.threads[t].op == Drain(p, next)
    ensures Known(StepDrain(s, t, p, next), t)
  {
    RemoteFrame(s.slots);
    hide Shift;
  }

  lemma ScanJudgeKnown(s: State, t: Tid, c: nat, k: nat)
    requires Known(s, t) && s.threads[t].op == ScanJudge(c, k) && k < |At(s.pages, Full(t, c))|
    ensures Known(StepScanJudge(s, t, c, k), t)
  {
    ShiftAt(s.pages, Full(t, c), k, Raw(t));
    ShiftAt(s.pages, Full(t, c), k, Bin(t, c));
    ShiftAt(s.pages, Full(t, c), k, Partial(t, c));
    hide SlotCount, ClassSize, Free, Shift;
  }

  lemma AdoptKnown(s: State, t: Tid, c: nat)
    requires Known(s, t)
    ensures s.threads[t].op == AdoptLoad(c) ==> Known(StepAdoptLoad(s, t, c), t)
    ensures s.threads[t].op == AdoptTake(c) ==> Known(StepAdoptTake(s, t, c), t)
  {
    hide ClearTo;
  }

  lemma ClaimKnown(s: State, t: Tid, c: nat, got: bool)
    requires Known(s, t)
    ensures s.threads[t].op == Adopt(c, got) ==> Known(StepAdopt(s, t, c, got), t)
    ensures s.threads[t].op == AdoptDrain(c, got) ==> Known(StepAdoptDrain(s, t, c, got), t)
  {
    RemoteFrame(s.slots);
    hide Shift;
  }

  lemma AdoptJudgeKnown(s: State, t: Tid, c: nat, got: bool)
    requires Known(s, t) && s.threads[t].op == AdoptJudge(c, got)
    ensures Known(StepAdoptJudge(s, t, c, got), t)
  {
    RemoteFrame(s.slots);
    if At(s.pages, Hand(t)) != [] {
      ShiftAt(s.pages, Hand(t), 0, Raw(t));
      ShiftAt(s.pages, Hand(t), 0, Bin(t, c));
      ShiftAt(s.pages, Hand(t), 0, Partial(t, c));
      ShiftAt(s.pages, Hand(t), 0, Full(t, c));
    }
    hide SlotCount, ClassSize, Shift;
  }

  lemma FreshKnown(s: State, t: Tid, c: nat)
    requires Known(s, t)
    ensures s.threads[t].op == Fresh(c) ==> Known(StepFresh(s, t, c), t)
  {
    if At(s.pages, Cached) != [] { ShiftAt(s.pages, Cached, 0, Raw(t)); }
    hide Shift;
  }

  lemma AwaitKnown(s: State, t: Tid, c: nat)
    requires t in s.threads && s.threads[t].op == Await(c)
    ensures Elsewhere(StepAwait(s, t, c), t)
  {
    hide SlotCount, ClassSize, Shift, AllSlots, Free;
  }

  /** The thread is at a position where nothing needs to be known. */
  ghost predicate Elsewhere(s: State, t: Tid) {
    t in s.threads &&
    match s.threads[t].op
    case Idle => true
    case Crashed => true
    case Partials(_) => true
    case Drop(_) => true
    case DropDrain(_) => true
    case DropJudge(_) => true
    case Abandon(_) => true
    case Drain(_, next) => next.ToRetry? || next.ToDrop?
    case _ => false
  }

  lemma ElsewhereKnown(s: State, t: Tid)
    requires Elsewhere(s, t)
    ensures Known(s, t)
  {
  }

  lemma AllocKnown(s: State, t: Tid, c: nat)
    requires t in s.threads
    ensures Elsewhere(StepAlloc(s, t, c), t) && Elsewhere(StepRetry(s, t, c), t) && Elsewhere(StepPush(s, t), t)
  {
    hide SlotCount, ClassSize, Free, Shift, Pour;
  }

  lemma DropKnown(s: State, t: Tid, c: nat)
    requires t in s.threads
    ensures Elsewhere(StepDrop(s, t, c), t)
  {
    hide Shift;
  }

  lemma DiscardKnown(s: State, t: Tid, c: nat)
    requires t in s.threads
    ensures Elsewhere(StepDropDrain(s, t, c), t)
    ensures Elsewhere(StepDropJudge(s, t, c), t) && Elsewhere(StepAbandon(s, t, c), t)
  {
    hide SlotCount, Free, Shift, Pour;
  }

  lemma OpKnown(s: State, w: Witness, t: Tid)
    requires Inv(s, w) && t in s.threads && Known(s, t)
    ensures Known(StepOp(s, t), t)
  {
    hide Inv, Known, SlotCount, ClassSize, HoldsOK, Elsewhere, StepAlloc, StepRetry, StepPartials, StepScan,
         StepScanSwap, StepScanJudge, StepAdoptLoad, StepAdoptTake, StepAdopt, StepAdoptDrain, StepAdoptJudge,
         StepFresh, StepAwait, StepDrain, StepPush, StepDrop, StepDropDrain, StepDropJudge, StepAbandon;
    ThreadFacts(s, w, t);
    match s.threads[t].op {
      case Alloc(c, _) => AllocKnown(s, t, c); ElsewhereKnown(StepOp(s, t), t);
      case Retry(c) => AllocKnown(s, t, c); ElsewhereKnown(StepOp(s, t), t);
      case Push => AllocKnown(s, t, 0); ElsewhereKnown(StepOp(s, t), t);
      case Drop(c) => DropKnown(s, t, c); ElsewhereKnown(StepOp(s, t), t);
      case DropDrain(c) => DiscardKnown(s, t, c); ElsewhereKnown(StepOp(s, t), t);
      case DropJudge(c) => DiscardKnown(s, t, c); ElsewhereKnown(StepOp(s, t), t);
      case Abandon(c) => DiscardKnown(s, t, c); ElsewhereKnown(StepOp(s, t), t);
      case Partials(c) => ScanKnown(s, t, c, 0);
      case Scan(c, k) => ScanKnown(s, t, c, k);
      case ScanSwap(c, k) => ScanKnown(s, t, c, k);
      case ScanJudge(c, k) => ScanJudgeKnown(s, t, c, k);
      case AdoptLoad(c) => AdoptKnown(s, t, c);
      case AdoptTake(c) => AdoptKnown(s, t, c);
      case Adopt(c, got) => ClaimKnown(s, t, c, got);
      case AdoptDrain(c, got) => ClaimKnown(s, t, c, got);
      case AdoptJudge(c, got) => AdoptJudgeKnown(s, t, c, got);
      case Fresh(c) => FreshKnown(s, t, c);
      case Await(c) => AwaitKnown(s, t, c); ElsewhereKnown(StepOp(s, t), t);
      case Drain(p, next) => DrainKnown(s, t, p, next);
      case _ =>
    }
  }

  // ----- inside the pool

  /** The lists that `Known` speaks of, other than the cache, are as before. */
  ghost predicate SameKnown(s: State, s': State, t: Tid) {
    && s'.slots == s.slots
    && At(s'.pages, Hand(t)) == At(s.pages, Hand(t))
    && (forall c :: At(s'.pages, Full(t, c)) == At(s.pages, Full(t, c)))
    && (forall c :: At(s'.pages, Abandoned(c)) == At(s.pages, Abandoned(c)))
  }

  /** The cache and the pool are as before, or the thread does not count on them. */
  ghost predicate SamePool(s: State, s': State, t: Tid)
    requires t in s.threads && t in s'.threads
  {
    var po, po' := s.threads[t].pool, s'.threads[t].pool;
    && (po' in {AllocEnter, Mmap, Register, Unmap(true), Failed} ==>
          po in {AllocEnter, Mmap, Register, Unmap(true), Failed} && At(s'.pages, Cached) == At(s.pages, Cached))
    && (po' in {Mmap, Register, Unmap(true), Failed} ==>
          PoolEmpty(s'.pool) || (po in {Mmap, Register, Unmap(true), Failed} && s'.pool == s.pool))
  }

  lemma PoolStays(s: State, s': State, t: Tid)
    requires t in s'.threads && Known(s, t)
    requires SameKnown(s, s', t) && SamePool(s, s', t) && s'.threads[t].op == s.threads[t].op
    ensures Known(s', t)
  {
    hide ClearTo;
    match s.threads[t].op
    case Drain(_, next) => {
      match next {
        case ToRetry(_) =>
        case ToScan(_, _) =>
        case ToAdopt(_, _) =>
        case ToDrop(_) =>
      }
    }
    case _ =>
  }

  /** The step of pool.rs goes on with what is known, or crashes. */
  ghost predicate Stays(s: State, s': State, t: Tid) {
    && t in s.threads && t in s'.threads
    && (s'.threads[t].op.Crashed? ||
        (SameKnown(s, s', t) && SamePool(s, s', t) && s'.threads[t].op == s.threads[t].op))
  }

  lemma FreePages(s: State, s': State, t: Tid, a: PagePlace)
    requires s'.slots == s.slots && (a.Raw? || a.Purging?)
    requires s'.pages == s.pages || (a in s'.pages && s'.pages == s.pages[a := s'.pages[a]])
    ensures SameKnown(s, s', t) && At(s'.pages, Cached) == At(s.pages, Cached)
  {
  }

  lemma DeallocStays(s: State, t: Tid)
    requires t in s.threads
    ensures Stays(s, StepDealloc(s, t), t)
  {
    hide DeallocSection, SameKnown, At;
    FreePages(s, StepDealloc(s, t), t, Raw(t));
  }

  lemma PurgeStays(s: State, t: Tid)
    requires t in s.threads
    ensures Stays(s, StepPurgeEnter(s, t), t) && Stays(s, StepPurgeExit(s, t), t)
  {
    hide PurgeTake, PurgeReturn, SameKnown, At;
    FreePages(s, StepPurgeEnter(s, t), t, Purging(t));
    FreePages(s, StepPurgeExit(s, t), t, Purging(t));
  }

  lemma AllocStays(s: State, t: Tid)
    requires t in s.threads && s.threads[t].pool.AllocEnter?
    ensures Stays(s, StepAllocEnter(s, t), t)
  {
    FreePages(s, StepAllocEnter(s, t), t, Raw(t));
    EmptyHanded(s.pool);
    hide AllocSection, SameKnown, At, PoolEmpty;
  }

  lemma EmptyHanded(o: Pool)
    ensures AllocSection(o).AllocEmpty? ==> PoolEmpty(o)
  {
    hide Charge;
  }

  lemma RegisterStays(s: State, t: Tid)
    requires t in s.threads && s.threads[t].pool.Register?
    ensures Stays(s, StepRegister(s, t), t)
  {
    hide RegisterSection, SameKnown, At;
    FreePages(s, StepRegister(s, t), t, Raw(t));
  }

  lemma UnmapStays(s: State, t: Tid, refused: bool)
    requires t in s.threads && s.threads[t].pool == Unmap(refused)
    ensures Stays(s, StepUnmap(s, t, refused), t)
  {
    hide SameKnown, At;
    FreePages(s, StepUnmap(s, t, refused), t, Raw(t));
  }

  lemma CacheStays(s: State, t: Tid)
    requires t in s.threads && s.threads[t].pool.CachePush?
    ensures Stays(s, StepPool(s, t), t)
  {
    if At(s.pages, Raw(t)) != [] { ShiftAt(s.pages, Raw(t), 0, Cached); }
    hide Shift, At;
  }

  lemma PoolKnown(s: State, t: Tid)
    requires Known(s, t) && InPool(s.threads[t])
    ensures Known(StepPool(s, t), t)
  {
    var s' := StepPool(s, t);
    assert Stays(s, s', t) by {
      hide StepDealloc, StepPurgeEnter, StepPurgeExit, StepAllocEnter, StepRegister, StepUnmap, Shift, Known;
      match s.threads[t].pool {
        case DeallocEnter => DeallocStays(s, t);
        case PurgeEnter => PurgeStays(s, t);
        case PurgeExit => PurgeStays(s, t);
        case AllocEnter => AllocStays(s, t);
        case Register => RegisterStays(s, t);
        case Unmap(refused) => UnmapStays(s, t, refused);
        case CachePush => CacheStays(s, t);
        case _ =>
      }
    }
    hide StepPool;
    if !s'.threads[t].op.Crashed? {
      hide Known;
      PoolStays(s, s', t);
    }
  }

  // ----- runs of one thread

  lemma KnownStep(s: State, w: Witness, t: Tid, e: Event)
    requires Inv(s, w) && Enabled(s, t, e) && Known(s, t) && (e == Go || e.Mapped?)
    ensures Known(Next(s, t, e), t)
  {
    hide Inv, StepOp, StepPool, Known;
    match e {
      case Go => if InPool(s.threads[t]) { PoolKnown(s, t); } else { OpKnown(s, w, t); }
      case Mapped(base) => PoolStays(s, Next(s, t, e), t);
    }
  }

  /** From state `tr[0]` on, thread `t` works alone; the page allocator may answer as it likes. */
  ghost predicate AloneFrom(tr: seq<State>, t: Tid) {
    && tr != [] && t in tr[0].threads
    && forall i :: 0 <= i < |tr| - 1 ==>
         exists e: Event :: (e == Go || e.Mapped?) && Enabled(tr[i], t, e) && tr[i + 1] == Next(tr[i], t, e)
  }

  lemma {:induction false} AloneKnown(tr: seq<State>, w: Witness, t: Tid, n: nat) returns (w': Witness)
    requires AloneFrom(tr, t) && Inv(tr[0], w) && Known(tr[0], t) && n < |tr|
    ensures Inv(tr[n], w') && Known(tr[n], t)
  {
    hide Inv, Known, Next;
    w' := w;
    if n > 0 {
      var v := AloneKnown(tr, w, t, n - 1);
      var e: Event :| (e == Go || e.Mapped?) && Enabled(tr[n - 1], t, e) && tr[n - 1 + 1] == Next(tr[n - 1], t, e);
      KnownStep(tr[n - 1], v, t, e);
      w' := StepInv(tr[n - 1], v, t, e);
    }
  }

  /** Nothing to allocate from, anywhere. */
  ghost predicate Exhausted(s: State, t: Tid, c: nat) {
    && At(s.pages, Bin(t, c)) == [] && At(s.pages, Partial(t, c)) == []
    && (forall p :: p in At(s.pages, Full(t, c)) ==> Free(s, p) == 0 && At(s.slots, Remote(p)) == [])
    && At(s.pages, Abandoned(c)) == [] && At(s.pages, Cached) == []
    && s.pool.dirty == [] && s.pool.clean == [] && s.pool.cursor >= s.pool.end
  }

  lemma FailedKnows(s: State, w: Witness, t: Tid, c: nat)
    requires Inv(s, w) && Known(s, t) && s.threads[t].op == Await(c) && s.threads[t].pool.Failed?
    ensures Exhausted(s, t, c)
  {
    hide Inv, SlotCount, HoldsOK, Free;
    ThreadFacts(s, w, t);
    forall p | p in At(s.pages, Full(t, c)) ensures PlaceOK(s, p, Full(t, c)) {
      PageAt(s, w, Full(t, c), IndexOf(At(s.pages, Full(t, c)), p));
    }
  }

  lemma StartKnown(s: State, t: Tid, c: nat)
    requires Enabled(s, t, StartAlloc(c))
    ensures Known(Next(s, t, StartAlloc(c)), t)
  {
  }

  /**
   A thread that allocates alone, from any state of any run, is refused only when there is nothing:
   its heap has no active and no partial slab of the class, its full slabs have no free and no
   remotely freed slot, no slab of the class is abandoned, the page cache is empty, and the pool has
   no dirty, clean or uncarved page.
   */
  lemma FailsOnlyWhenNothingIsLeft(past: seq<State>, tr: seq<State>, t: Tid, c: nat, n: nat)
    requires Run(past) && AloneFrom(tr, t) && n < |tr|
    requires Enabled(past[|past| - 1], t, StartAlloc(c)) && tr[0] == Next(past[|past| - 1], t, StartAlloc(c))
    requires t in tr[n].threads && tr[n].threads[t].op == Await(c) && tr[n].threads[t].pool.Failed?
    ensures Exhausted(tr[n], t, c)
  {
    assert past != [];
    hide Run, Inv, Known, Next, Enabled, Exhausted;
    var w := RunInv(past, |past| - 1);
    StartKnown(past[|past| - 1], t, c);
    var w0 := StepInv(past[|past| - 1], w, t, StartAlloc(c));
    var w' := AloneKnown(tr, w0, t, n);
    FailedKnows(tr[n], w', t, c);
  }
}
