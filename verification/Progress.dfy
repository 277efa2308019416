/**
 Every call ends. A measure of what a thread still has to do goes down with every step of that
 thread and is not moved by any step of any other, so a call takes finitely many steps of its own
 whatever the others do; in particular a thread left alone comes to rest.
 */
module Progress {
  import opened Places
  import opened Tiling
  import opened PoolSections
  import opened PoolInvariant
  import opened PoolSteps
  import opened SizeClasses
  import opened SlabGeometry
  import opened System
  import opened SystemInvariant
  import opened Frames
  import opened ControlSteps
  import opened SlotSteps
  import opened Safety

  /** Compared in the order of the fields. */
  datatype Measure = Measure(phase: nat, outer: nat, sub: nat, drain: nat, pool: nat)

  predicate Less(a: Measure, b: Measure) {
    || a.phase < b.phase
    || (a.phase == b.phase && (
          || a.outer < b.outer
          || (a.outer == b.outer && (
                || a.sub < b.sub
                || (a.sub == b.sub && (a.drain < b.drain || (a.drain == b.drain && a.pool < b.pool)))))))
  }

  function DropPhase(c: nat): nat {
    if c <= NUM_CLASSES then 12 + NUM_CLASSES - c else 12
  }

  function Phase(op: Op): nat {
    match op
    case Idle => 0
    case Crashed => 0
    case Alloc(_, again) => if again then 1 else 11
    case Push => 1
    case Await(_) => 2
    case Fresh(_) => 3
    case Adopt(_, _) => 4
    case AdoptDrain(_, _) => 4
    case AdoptJudge(_, _) => 4
    case AdoptTake(_) => 5
    case AdoptLoad(_) => 6
    case Scan(_, _) => 7
    case ScanSwap(_, _) => 7
    case ScanJudge(_, _) => 7
    case Partials(_) => 8
    case Retry(_) => 9
    case Drain(_, next) =>
      (match next
       case ToRetry(_) => 10
       case ToScan(_, _) => 7
       case ToAdopt(_, _) => 4
       case ToDrop(c) => DropPhase(c))
    case Drop(c) => DropPhase(c)
    case DropDrain(c) => DropPhase(c)
    case DropJudge(c) => DropPhase(c)
    case Abandon(c) => DropPhase(c)
  }

  function Sub(op: Op): nat {
    match op
    case Scan(_, _) => 4
    case ScanSwap(_, _) => 3
    case ScanJudge(_, _) => 1
    case Adopt(_, _) => 4
    case AdoptDrain(_, _) => 3
    case AdoptJudge(_, _) => 1
    case DropDrain(_) => 3
    case DropJudge(_) => 1
    case Drain(_, _) => 2
    case _ => 0
  }

  function Ahead(m: Lists, t: Tid, c: nat, k: nat): nat {
    if k <= |At(m, Full(t, c))| then |At(m, Full(t, c))| - k else 0
  }

  function ToDiscard(m: Lists, t: Tid, c: nat): nat {
    2 * (|At(m, Bin(t, c))| + |At(m, Full(t, c))| + |At(m, Partial(t, c))|) + |At(m, Hand(t))|
  }

  /** Slabs of the queue still to be scanned, of the chain to be adopted, or of the class to be given up. */
  function Outer(m: Lists, t: Tid, op: Op): nat {
    match op
    case Scan(c, k) => Ahead(m, t, c, k)
    case ScanSwap(c, k) => Ahead(m, t, c, k)
    case ScanJudge(c, k) => Ahead(m, t, c, k)
    case Adopt(_, _) => |At(m, Hand(t))|
    case AdoptDrain(_, _) => |At(m, Hand(t))|
    case AdoptJudge(_, _) => |At(m, Hand(t))|
    case Drain(_, next) =>
      (match next
       case ToRetry(_) => 0
       case ToScan(c, k) => Ahead(m, t, c, k)
       case ToAdopt(_, _) => |At(m, Hand(t))|
       case ToDrop(c) => ToDiscard(m, t, c))
    case Drop(c) => ToDiscard(m, t, c)
    case DropDrain(c) => ToDiscard(m, t, c)
    case DropJudge(c) => ToDiscard(m, t, c)
    case Abandon(c) => ToDiscard(m, t, c)
    case _ => 0
  }

  function PoolRank(po: PoolOp): nat {
    match po
    case PIdle => 0
    case Got => 0
    case Failed => 0
    case CacheEnter => 5
    case CachePush => 2
    case CacheCount => 1
    case UncacheCount => 1
    case DeallocEnter => 4
    case PurgeEnter => 3
    case PurgeExit => 2
    case AllocEnter => 4
    case Mmap => 3
    case Register => 2
    case Unmap(_) => 1
  }

  function Left(s: State, t: Tid): Measure
    requires t in s.threads
  {
    var th := s.threads[t];
    Measure(Phase(th.op), Outer(s.pages, t, th.op), Sub(th.op), |At(s.slots, Draining(t))|, PoolRank(th.pool))
  }

  // ----- own steps go down

  /** The step of `t` from `s` to `s'` goes down, or the thread has crashed. */
  ghost predicate Down(s: State, s': State, t: Tid) {
    t in s.threads && t in s'.threads && (s'.threads[t].op.Crashed? || Less(Left(s', t), Left(s, t)))
  }

  lemma AllocDown(s: State, t: Tid, c: nat, again: bool)
    requires t in s.threads && s.threads[t].op == Alloc(c, again)
    requires again ==> At(s.pages, Bin(t, c)) != [] && Free(s, At(s.pages, Bin(t, c))[0]) > 0
    ensures Down(s, StepAlloc(s, t, c), t)
  {
    hide SlotCount, ClassSize, Free, Outer;
  }

  lemma RetryDown(s: State, t: Tid, c: nat)
    requires t in s.threads
    ensures s.threads[t].op == Retry(c) ==> Down(s, StepRetry(s, t, c), t)
    ensures s.threads[t].op == Partials(c) ==> Down(s, StepPartials(s, t, c), t)
  {
    hide SlotCount, ClassSize, Free, Outer, Shift;
  }

  lemma RequestDown(s: State, t: Tid, c: nat)
    requires t in s.threads
    ensures s.threads[t].op == AdoptLoad(c) ==> Down(s, StepAdoptLoad(s, t, c), t)
    ensures s.threads[t].op == AdoptTake(c) ==> Down(s, StepAdoptTake(s, t, c), t)
    ensures s.threads[t].op == Push ==> Down(s, StepPush(s, t), t)
  {
    hide Outer, Shift, Pour;
  }

  lemma ObtainDown(s: State, t: Tid, c: nat)
    requires t in s.threads
    ensures s.threads[t].op == Fresh(c) ==> Down(s, StepFresh(s, t, c), t)
    ensures s.threads[t].op == Await(c) ==> Down(s, StepAwait(s, t, c), t)
  {
    hide SlotCount, ClassSize, Free, Outer, AllSlots, Shift, Pour;
  }

  lemma ScanDown(s: State, t: Tid, c: nat, k: nat)
    requires t in s.threads && k <= |At(s.pages, Full(t, c))|
    ensures s.threads[t].op == Scan(c, k) ==> Down(s, StepScan(s, t, c, k), t)
    ensures s.threads[t].op == ScanSwap(c, k) ==> Down(s, StepScanSwap(s, t, c, k), t)
  {
    hide SlotCount, ClassSize, Free, Shift, Pour;
  }

  lemma ScanJudgeDown(s: State, t: Tid, c: nat, k: nat)
    requires t in s.threads && k < |At(s.pages, Full(t, c))| && s.threads[t].op == ScanJudge(c, k)
    ensures Down(s, StepScanJudge(s, t, c, k), t)
  {
    ShiftAt(s.pages, Full(t, c), k, Raw(t));
    ShiftAt(s.pages, Full(t, c), k, Bin(t, c));
    ShiftAt(s.pages, Full(t, c), k, Partial(t, c));
    hide SlotCount, ClassSize, Free, Shift, At;
  }

  lemma AdoptDown(s: State, t: Tid, c: nat, got: bool)
    requires t in s.threads
    ensures s.threads[t].op == Adopt(c, got) ==> Down(s, StepAdopt(s, t, c, got), t)
    ensures s.threads[t].op == AdoptDrain(c, got) ==> Down(s, StepAdoptDrain(s, t, c, got), t)
  {
    hide SlotCount, ClassSize, Free, Shift, Pour;
  }

  lemma AdoptJudgeDown(s: State, t: Tid, c: nat, got: bool)
    requires t in s.threads && s.threads[t].op == AdoptJudge(c, got)
    ensures Down(s, StepAdoptJudge(s, t, c, got), t)
  {
    if At(s.pages, Hand(t)) != [] {
      ShiftAt(s.pages, Hand(t), 0, Raw(t));
      ShiftAt(s.pages, Hand(t), 0, Bin(t, c));
      ShiftAt(s.pages, Hand(t), 0, Partial(t, c));
      ShiftAt(s.pages, Hand(t), 0, Full(t, c));
    }
    hide SlotCount, ClassSize, Free, Shift, At;
  }

  lemma DrainDown(s: State, t: Tid, p: Page, next: Cont)
    requires t in s.threads && s.threads[t].op == Drain(p, next)
    ensures Down(s, StepDrain(s, t, p, next), t)
  {
    if At(s.slots, Draining(t)) != [] { ShiftAt(s.slots, Draining(t), 0, Local(p)); }
    hide Shift, At;
  }

  lemma DropDown(s: State, t: Tid, c: nat)
    requires t in s.threads && s.threads[t].op == Drop(c)
    ensures Down(s, StepDrop(s, t, c), t)
  {
    if At(s.pages, Bin(t, c)) != [] { TakenOne(s.pages, t, c, Bin(t, c)); }
    if At(s.pages, Full(t, c)) != [] { TakenOne(s.pages, t, c, Full(t, c)); }
    if At(s.pages, Partial(t, c)) != [] { TakenOne(s.pages, t, c, Partial(t, c)); }
    hide Shift, At, ToDiscard;
  }

  /** A slab taken in hand is half done. */
  lemma TakenOne(m: Lists, t: Tid, c: nat, a: PagePlace)
    requires a in {Bin(t, c), Full(t, c), Partial(t, c)} && At(m, a) != []
    ensures ToDiscard(Shift(m, a, 0, Hand(t)), t, c) < ToDiscard(m, t, c)
  {
    ShiftAt(m, a, 0, Hand(t));
    hide Shift, At;
  }

  lemma DiscardDown(s: State, t: Tid, c: nat)
    requires t in s.threads
    ensures s.threads[t].op == DropDrain(c) ==> Down(s, StepDropDrain(s, t, c), t)
  {
    hide Pour, At;
  }

  lemma DropJudgeDown(s: State, t: Tid, c: nat)
    requires t in s.threads
    ensures s.threads[t].op == DropJudge(c) ==> Down(s, StepDropJudge(s, t, c), t)
  {
    if At(s.pages, Hand(t)) != [] { ShiftAt(s.pages, Hand(t), 0, Raw(t)); }
    hide SlotCount, Free, Shift, Pour, At;
  }

  lemma AbandonDown(s: State, t: Tid, c: nat)
    requires t in s.threads
    ensures s.threads[t].op == Abandon(c) ==> Down(s, StepAbandon(s, t, c), t)
  {
    var hand := At(s.pages, Hand(t));
    if hand != [] && hand[0] in s.slabs { ShiftAt(s.pages, Hand(t), 0, Abandoned(s.slabs[hand[0]].sizeClass)); }
    hide Shift, At;
  }

  /** A step of heap.rs. */
  lemma OpDown(s: State, w: Witness, t: Tid)
    requires Inv(s, w) && t in s.threads && !s.threads[t].op.Idle?
    ensures Down(s, StepOp(s, t), t)
  {
    hide Inv, Down, SlotCount, ClassSize, StepAlloc, StepRetry, StepPartials, StepScan, StepScanSwap,
         StepScanJudge, StepAdoptLoad, StepAdoptTake, StepAdopt, StepAdoptDrain, StepAdoptJudge, StepFresh,
         StepAwait, StepDrain, StepPush, StepDrop, StepDropDrain, StepDropJudge, StepAbandon, HoldsOK;
    ThreadFacts(s, w, t);
    match s.threads[t].op {
      case Alloc(c, again) =>
        if again { PageAt(s, w, Bin(t, c), 0); }
        AllocDown(s, t, c, again);
      case Retry(c) => RetryDown(s, t, c);
      case Partials(c) => RetryDown(s, t, c);
      case Scan(c, k) => ScanDown(s, t, c, k);
      case ScanSwap(c, k) => ScanDown(s, t, c, k);
      case ScanJudge(c, k) => ScanJudgeDown(s, t, c, k);
      case AdoptLoad(c) => RequestDown(s, t, c);
      case AdoptTake(c) => RequestDown(s, t, c);
      case Adopt(c, got) => AdoptDown(s, t, c, got);
      case AdoptDrain(c, got) => AdoptDown(s, t, c, got);
      case AdoptJudge(c, got) => AdoptJudgeDown(s, t, c, got);
      case Fresh(c) => ObtainDown(s, t, c);
      case Await(c) => ObtainDown(s, t, c);
      case Drain(p, next) => DrainDown(s, t, p, next);
      case Push => RequestDown(s, t, 0);
      case Drop(c) => DropDown(s, t, c);
      case DropDrain(c) => DiscardDown(s, t, c);
      case DropJudge(c) => DropJudgeDown(s, t, c);
      case Abandon(c) => AbandonDown(s, t, c);
    }
  }

  /** The lists that count are as before. */
  ghost predicate SameWork(s: State, s': State, t: Tid) {
    && At(s'.slots, Draining(t)) == At(s.slots, Draining(t))
    && At(s'.pages, Hand(t)) == At(s.pages, Hand(t))
    && SameQueues(s.pages, s'.pages, t)
  }

  lemma SameOuter(s: State, s': State, t: Tid, op: Op)
    requires SameWork(s, s', t)
    ensures Outer(s'.pages, t, op) == Outer(s.pages, t, op)
  {
  }

  /** The step keeps the position in heap.rs and lowers the rank in pool.rs, or crashes. */
  ghost predicate Lower(s: State, s': State, t: Tid) {
    && t in s.threads && t in s'.threads
    && (s'.threads[t].op.Crashed? ||
        (SameWork(s, s', t) && s'.threads[t].op == s.threads[t].op &&
            PoolRank(s'.threads[t].pool) < PoolRank(s.threads[t].pool)))
  }

  lemma LowerDown(s: State, s': State, t: Tid)
    requires Lower(s, s', t)
    ensures Down(s, s', t)
  {
    hide Outer, SameQueues;
    if !s'.threads[t].op.Crashed? { SameOuter(s, s', t, s.threads[t].op); }
  }

  /** Lists of free pages do not count. */
  lemma FreePagesOnly(s: State, s': State, t: Tid, a: PagePlace)
    requires s'.slots == s.slots && (a.Raw? || a.Purging?)
    requires s'.pages == s.pages || (a in s'.pages && s'.pages == s.pages[a := s'.pages[a]])
    ensures SameWork(s, s', t)
  {
  }

  lemma DeallocLower(s: State, t: Tid)
    requires t in s.threads && s.threads[t].pool.DeallocEnter?
    ensures Lower(s, StepDealloc(s, t), t)
  {
    hide DeallocSection, SameWork, At;
    FreePagesOnly(s, StepDealloc(s, t), t, Raw(t));
  }

  lemma PurgeLower(s: State, t: Tid)
    requires t in s.threads
    ensures s.threads[t].pool.PurgeEnter? ==> Lower(s, StepPurgeEnter(s, t), t)
    ensures s.threads[t].pool.PurgeExit? ==> Lower(s, StepPurgeExit(s, t), t)
  {
    hide PurgeTake, PurgeReturn, SameWork, At;
    FreePagesOnly(s, StepPurgeEnter(s, t), t, Purging(t));
    FreePagesOnly(s, StepPurgeExit(s, t), t, Purging(t));
  }

  lemma AllocLower(s: State, t: Tid)
    requires t in s.threads && s.threads[t].pool.AllocEnter?
    ensures Lower(s, StepAllocEnter(s, t), t)
  {
    hide AllocSection, SameWork, At;
    FreePagesOnly(s, StepAllocEnter(s, t), t, Raw(t));
  }

  lemma RegisterLower(s: State, t: Tid)
    requires t in s.threads && s.threads[t].pool.Register?
    ensures Lower(s, StepRegister(s, t), t)
  {
    hide RegisterSection, SameWork, At;
    FreePagesOnly(s, StepRegister(s, t), t, Raw(t));
  }

  lemma UnmapLower(s: State, t: Tid, refused: bool)
    requires t in s.threads && s.threads[t].pool == Unmap(refused)
    ensures Lower(s, StepUnmap(s, t, refused), t)
  {
    hide SameWork, At;
    FreePagesOnly(s, StepUnmap(s, t, refused), t, Raw(t));
  }

  lemma CacheLower(s: State, t: Tid)
    requires t in s.threads && s.threads[t].pool.CachePush?
    ensures Lower(s, StepPool(s, t), t)
  {
    if At(s.pages, Raw(t)) != [] { ShiftAt(s.pages, Raw(t), 0, Cached); }
    hide Shift, At;
  }

  /** A step of pool.rs. */
  lemma PoolLower(s: State, t: Tid)
    requires t in s.threads && InPool(s.threads[t])
    ensures Lower(s, StepPool(s, t), t)
  {
    hide StepDealloc, StepPurgeEnter, StepPurgeExit, StepAllocEnter, StepRegister, StepUnmap, Shift;
    match s.threads[t].pool {
      case DeallocEnter => DeallocLower(s, t);
      case PurgeEnter => PurgeLower(s, t);
      case PurgeExit => PurgeLower(s, t);
      case AllocEnter => AllocLower(s, t);
      case Register => RegisterLower(s, t);
      case Unmap(refused) => UnmapLower(s, t, refused);
      case CachePush => CacheLower(s, t);
      case _ =>
    }
  }

  lemma PoolDown(s: State, t: Tid)
    requires t in s.threads && InPool(s.threads[t])
    ensures Down(s, StepPool(s, t), t)
  {
    hide StepPool, Lower;
    PoolLower(s, t);
    LowerDown(s, StepPool(s, t), t);
  }

  /** Every step of a thread that is not at rest goes down. */
  lemma OwnStepDown(s: State, w: Witness, t: Tid, e: Event)
    requires Inv(s, w) && Enabled(s, t, e) && (e == Go || e.Mapped?) && !AtRest(s.threads[t])
    ensures t in Next(s, t, e).threads && Less(Left(Next(s, t, e), t), Left(s, t))
  {
    hide Inv, StepOp, StepPool;
    var w' := StepInv(s, w, t, e);
    var s' := Next(s, t, e);
    if e.Mapped? {
      SameOuter(s, s', t, s.threads[t].op);
    } else if InPool(s.threads[t]) {
      PoolDown(s, t);
      ThreadFacts(s', w', t);
    } else {
      ThreadFacts(s, w, t);
      OpDown(s, w, t);
      ThreadFacts(s', w', t);
    }
  }

  // ----- the steps of others do not count

  ghost predicate SamePages(m: Lists, m': Lists, t: Tid) {
    At(m', Hand(t)) == At(m, Hand(t)) && SameQueues(m, m', t)
  }

  /** Thread `t` and the lists that count for it are as before. */
  ghost predicate Unmoved(s: State, s': State, t: Tid) {
    && t in s.threads && t in s'.threads && s'.threads[t] == s.threads[t]
    && SamePages(s.pages, s'.pages, t)
    && At(s'.slots, Draining(t)) == At(s.slots, Draining(t))
  }

  lemma PageFrame(m: Lists, t: Tid)
    ensures forall a: PagePlace, i: nat, b: PagePlace {:trigger Shift(m, a, i, b)} ::
              i < |At(m, a)| && !a.Mine(t) && !b.Mine(t) ==> SamePages(m, Shift(m, a, i, b), t)
    ensures forall a: PagePlace, b: PagePlace {:trigger Pour(m, a, b)} ::
              !a.Mine(t) && !b.Mine(t) ==> SamePages(m, Pour(m, a, b), t)
    ensures SamePages(m, m, t)
  {
  }

  lemma SlotFrame(m: map<SlotPlace, seq<Slot>>, t: Tid)
    ensures forall a: SlotPlace, i: nat, b: SlotPlace {:trigger Shift(m, a, i, b)} ::
              i < |At(m, a)| && a != Draining(t) && b != Draining(t) ==>
                  At(Shift(m, a, i, b), Draining(t)) == At(m, Draining(t))
    ensures forall a: SlotPlace, b: SlotPlace {:trigger Pour(m, a, b)} ::
              a != Draining(t) && b != Draining(t) ==> At(Pour(m, a, b), Draining(t)) == At(m, Draining(t))
  {
  }

  lemma AllocUnmoved(s: State, u: Tid, t: Tid, c: nat, k: nat)
    requires u in s.threads && t in s.threads && t != u
    ensures Unmoved(s, StepAlloc(s, u, c), t) && Unmoved(s, StepRetry(s, u, c), t) &&
            Unmoved(s, StepPartials(s, u, c), t)
    ensures Unmoved(s, StepScan(s, u, c, k), t) && Unmoved(s, StepScanSwap(s, u, c, k), t)
  {
    PageFrame(s.pages, t);
    SlotFrame(s.slots, t);
    hide SlotCount, ClassSize, Shift, Pour, SamePages;
  }

  lemma JudgeUnmoved(s: State, u: Tid, t: Tid, c: nat, k: nat, got: bool)
    requires u in s.threads && t in s.threads && t != u
    ensures Unmoved(s, StepScanJudge(s, u, c, k), t) && Unmoved(s, StepAdoptJudge(s, u, c, got), t)
    ensures Unmoved(s, StepDropJudge(s, u, c), t)
  {
    PageFrame(s.pages, t);
    SlotFrame(s.slots, t);
    hide SlotCount, ClassSize, Shift, SamePages;
  }

  lemma AdoptUnmoved(s: State, u: Tid, t: Tid, c: nat, got: bool)
    requires u in s.threads && t in s.threads && t != u
    ensures Unmoved(s, StepAdoptLoad(s, u, c), t) && Unmoved(s, StepAdoptTake(s, u, c), t)
    ensures Unmoved(s, StepAdopt(s, u, c, got), t) && Unmoved(s, StepAdoptDrain(s, u, c, got), t)
  {
    PageFrame(s.pages, t);
    SlotFrame(s.slots, t);
    hide Shift, Pour, SamePages;
  }

  lemma FreshUnmoved(s: State, u: Tid, t: Tid, c: nat)
    requires u in s.threads && t in s.threads && t != u
    ensures Unmoved(s, StepFresh(s, u, c), t)
  {
    PageFrame(s.pages, t);
    hide Shift, SamePages;
  }

  lemma AwaitUnmoved(s: State, u: Tid, t: Tid, c: nat)
    requires u in s.threads && t in s.threads && t != u
    ensures Unmoved(s, StepAwait(s, u, c), t)
  {
    PageFrame(s.pages, t);
    var raw := At(s.pages, Raw(u));
    if raw != [] { SlotFrame(s.slots[Virgin(raw[0]) := AllSlots(raw[0], c)], t); }
    hide SlotCount, ClassSize, Shift, AllSlots, SamePages;
  }

  lemma DropUnmoved(s: State, u: Tid, t: Tid, c: nat)
    requires u in s.threads && t in s.threads && t != u
    ensures Unmoved(s, StepDrop(s, u, c), t) && Unmoved(s, StepAbandon(s, u, c), t)
  {
    PageFrame(s.pages, t);
    hide Shift, SamePages;
  }

  lemma SlotsUnmoved(s: State, u: Tid, t: Tid, c: nat, p: Page, next: Cont)
    requires u in s.threads && t in s.threads && t != u
    ensures Unmoved(s, StepDrain(s, u, p, next), t) && Unmoved(s, StepPush(s, u), t) &&
            Unmoved(s, StepDropDrain(s, u, c), t)
  {
    PageFrame(s.pages, t);
    SlotFrame(s.slots, t);
    hide Shift, Pour, SamePages;
  }

  lemma FreeUnmoved(s: State, u: Tid, t: Tid, id: nat)
    requires u in s.threads && t in s.threads && t != u && At(s.slots, Live(id)) != []
    ensures Unmoved(s, StepFree(s, u, id), t)
  {
    PageFrame(s.pages, t);
    SlotFrame(s.slots, t);
    hide SlotCount, ClassSize, Shift, FullyFree, Free, SamePages;
  }

  lemma OpUnmoved(s: State, u: Tid, t: Tid)
    requires u in s.threads && t in s.threads && t != u
    ensures Unmoved(s, StepOp(s, u), t)
  {
    hide StepAlloc, StepRetry, StepPartials, StepScan, StepScanSwap, StepScanJudge, StepAdoptLoad, StepAdoptTake,
         StepAdopt, StepAdoptDrain, StepAdoptJudge, StepFresh, StepAwait, StepDrain, StepPush, StepDrop,
         StepDropDrain, StepDropJudge, StepAbandon, Unmoved;
    match s.threads[u].op {
      case Idle => StillUnmoved(s, t);
      case Crashed => StillUnmoved(s, t);
      case Alloc(c, _) => AllocUnmoved(s, u, t, c, 0);
      case Retry(c) => AllocUnmoved(s, u, t, c, 0);
      case Partials(c) => AllocUnmoved(s, u, t, c, 0);
      case Scan(c, k) => AllocUnmoved(s, u, t, c, k);
      case ScanSwap(c, k) => AllocUnmoved(s, u, t, c, k);
      case ScanJudge(c, k) => JudgeUnmoved(s, u, t, c, k, false);
      case AdoptLoad(c) => AdoptUnmoved(s, u, t, c, false);
      case AdoptTake(c) => AdoptUnmoved(s, u, t, c, false);
      case Adopt(c, got) => AdoptUnmoved(s, u, t, c, got);
      case AdoptDrain(c, got) => AdoptUnmoved(s, u, t, c, got);
      case AdoptJudge(c, got) => JudgeUnmoved(s, u, t, c, 0, got);
      case Fresh(c) => FreshUnmoved(s, u, t, c);
      case Await(c) => AwaitUnmoved(s, u, t, c);
      case Drain(p, next) => SlotsUnmoved(s, u, t, 0, p, next);
      case Push => SlotsUnmoved(s, u, t, 0, 0, ToDrop(0));
      case Drop(c) => DropUnmoved(s, u, t, c);
      case DropDrain(c) => SlotsUnmoved(s, u, t, c, 0, ToDrop(0));
      case DropJudge(c) => JudgeUnmoved(s, u, t, c, 0, false);
      case Abandon(c) => DropUnmoved(s, u, t, c);
    }
  }

  lemma StillUnmoved(s: State, t: Tid)
    requires t in s.threads
    ensures Unmoved(s, s, t)
  {
  }

  lemma DeallocUnmoved(s: State, u: Tid, t: Tid)
    requires u in s.threads && t in s.threads && t != u
    ensures Unmoved(s, StepDealloc(s, u), t)
  {
    hide DeallocSection, SameQueues, At;
    FreePagesOnly(s, StepDealloc(s, u), t, Raw(u));
  }

  lemma PurgeUnmoved(s: State, u: Tid, t: Tid)
    requires u in s.threads && t in s.threads && t != u
    ensures Unmoved(s, StepPurgeEnter(s, u), t) && Unmoved(s, StepPurgeExit(s, u), t)
  {
    hide PurgeTake, PurgeReturn, SameQueues, At;
    FreePagesOnly(s, StepPurgeEnter(s, u), t, Purging(u));
    FreePagesOnly(s, StepPurgeExit(s, u), t, Purging(u));
  }

  lemma AllocEnterUnmoved(s: State, u: Tid, t: Tid)
    requires u in s.threads && t in s.threads && t != u
    ensures Unmoved(s, StepAllocEnter(s, u), t)
  {
    hide AllocSection, SameQueues, At;
    FreePagesOnly(s, StepAllocEnter(s, u), t, Raw(u));
  }

  lemma MapUnmoved(s: State, u: Tid, t: Tid, refused: bool)
    requires u in s.threads && t in s.threads && t != u
    ensures Unmoved(s, StepRegister(s, u), t) && Unmoved(s, StepUnmap(s, u, refused), t)
  {
    hide RegisterSection, SameQueues, At;
    FreePagesOnly(s, StepRegister(s, u), t, Raw(u));
    FreePagesOnly(s, StepUnmap(s, u, refused), t, Raw(u));
  }

  lemma PoolUnmoved(s: State, u: Tid, t: Tid)
    requires u in s.threads && t in s.threads && t != u
    ensures Unmoved(s, StepPool(s, u), t)
  {
    PageFrame(s.pages, t);
    hide StepDealloc, StepPurgeEnter, StepPurgeExit, StepAllocEnter, StepRegister, StepUnmap, Shift, SamePages;
    match s.threads[u].pool {
      case DeallocEnter => DeallocUnmoved(s, u, t);
      case PurgeEnter => PurgeUnmoved(s, u, t);
      case PurgeExit => PurgeUnmoved(s, u, t);
      case AllocEnter => AllocEnterUnmoved(s, u, t);
      case Register => MapUnmoved(s, u, t, false);
      case Unmap(refused) => MapUnmoved(s, u, t, refused);
      case _ =>
    }
  }

  /** No step of another thread, of the client or of the page allocator changes what a thread has left to do. */
  lemma OtherStepSame(s: State, u: Tid, e: Event, t: Tid)
    requires Enabled(s, u, e) && t in s.threads && t != u
    ensures t in Next(s, u, e).threads && Left(Next(s, u, e), t) == Left(s, t)
  {
    var s' := Next(s, u, e);
    assert Unmoved(s, s', t) by {
      hide StepOp, StepPool, StepFree;
      match e {
        case Go =>
          if InPool(s.threads[u]) { PoolUnmoved(s, u, t); } else { OpUnmoved(s, u, t); }
        case StartFree(id) => FreeUnmoved(s, u, t, id);
        case _ =>
      }
    }
    hide Outer, Next;
    SameOuter(s, s', t, s.threads[t].op);
  }

  // ----- left alone, a thread comes to rest

  /** `n` steps of thread `t` alone, the page allocator refusing whenever it is asked. */
  ghost function Solo(s: State, t: Tid, n: nat): State
    decreases n
  {
    if n == 0 || t !in s.threads then s else Solo(Next(s, t, Go), t, n - 1)
  }

  /** Whatever a thread is in the middle of, it finishes on its own. */
  lemma {:induction false} ComesToRest(s: State, w: Witness, t: Tid) returns (n: nat, w': Witness)
    requires Inv(s, w) && t in s.threads
    ensures Inv(Solo(s, t, n), w') && t in Solo(s, t, n).threads && AtRest(Solo(s, t, n).threads[t])
    decreases Left(s, t).phase, Left(s, t).outer, Left(s, t).sub, Left(s, t).drain, Left(s, t).pool
  {
    hide Inv, Left, Next;
    if AtRest(s.threads[t]) {
      n, w' := 0, w;
    } else {
      OwnStepDown(s, w, t, Go);
      var w1 := StepInv(s, w, t, Go);
      var m, w2 := ComesToRest(Next(s, t, Go), w1, t);
      n, w' := m + 1, w2;
    }
  }

  // ----- every call returns

  /** An infinite run: at time `i` thread `who(i)` does `what(i)`. */
  ghost predicate Forever(f: nat -> State, who: nat -> Tid, what: nat -> Event) {
    && Init(f(0))
    && forall i: nat {:trigger who(i)} :: Enabled(f(i), who(i), what(i)) && f(i + 1) == Next(f(i), who(i), what(i))
  }

  /** Thread `t` gets a turn again and again. */
  ghost predicate Scheduled(who: nat -> Tid, t: Tid) {
    forall i: nat :: TurnAfter(who, t, i)
  }

  ghost predicate TurnAfter(who: nat -> Tid, t: Tid, i: nat) {
    exists j: nat :: i <= j && who(j) == t
  }

  lemma {:induction false} ForeverInv(f: nat -> State, who: nat -> Tid, what: nat -> Event, n: nat) returns (w: Witness)
    requires Forever(f, who, what)
    ensures Inv(f(n), w)
  {
    hide Inv, Init, Next, Enabled;
    if n == 0 {
      w := W(map[], map[], map[]);
      InitInv(f(0));
    } else {
      var i := n - 1;
      var w0 := ForeverInv(f, who, what, i);
      assert Enabled(f(i), who(i), what(i)) && f(i + 1) == Next(f(i), who(i), what(i));
      w := StepInv(f(i), w0, who(i), what(i));
    }
  }

  lemma OnlyGoes(s: State, t: Tid, e: Event)
    requires Enabled(s, t, e) && !AtRest(s.threads[t])
    ensures e == Go || e.Mapped?
  {
  }

  /** `j` is a coming turn of `t`. */
  lemma {:induction false} RestsAfter(f: nat -> State, who: nat -> Tid, what: nat -> Event, t: Tid, i: nat, j: nat)
      returns (k: nat)
    requires Forever(f, who, what) && Scheduled(who, t)
    requires i <= j && who(j) == t && t in f(i).threads
    ensures i <= k && t in f(k).threads && AtRest(f(k).threads[t])
    decreases Left(f(i), t).phase, Left(f(i), t).outer, Left(f(i), t).sub, Left(f(i), t).drain, Left(f(i), t).pool,
              j - i
  {
    hide Inv, Init, Next, Left, Enabled;
    if AtRest(f(i).threads[t]) {
      k := i;
    } else {
      assert Enabled(f(i), who(i), what(i)) && f(i + 1) == Next(f(i), who(i), what(i));
      if who(i) == t {
        OnlyGoes(f(i), t, what(i));
        var w := ForeverInv(f, who, what, i);
        OwnStepDown(f(i), w, t, what(i));
        assert TurnAfter(who, t, i + 1);
        var j' :| i + 1 <= j' && who(j') == t;
        k := RestsAfter(f, who, what, t, i + 1, j');
      } else {
        OtherStepSame(f(i), who(i), what(i), t);
        k := RestsAfter(f, who, what, t, i + 1, j);
      }
    }
  }

  /**
   In every infinite run, a thread that keeps getting turns keeps coming to rest: no allocation,
   free or exit goes on forever, whatever the other threads and the page allocator do meanwhile.
   */
  lemma EveryCallReturns(f: nat -> State, who: nat -> Tid, what: nat -> Event, t: Tid, i: nat) returns (k: nat)
    requires Forever(f, who, what) && Scheduled(who, t) && t in f(i).threads
    ensures i <= k && t in f(k).threads && AtRest(f(k).threads[t])
  {
    assert TurnAfter(who, t, i);
    var j :| i <= j && who(j) == t;
    k := RestsAfter(f, who, what, t, i, j);
  }
}
