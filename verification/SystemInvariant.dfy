/**
 The invariant of the whole allocator. `w` is the witness: it names the place of every page, slot
 and segment, and the lists of the state agree with it.
 */
module SystemInvariant {
  import opened Places
  import opened Tiling
  import opened PoolSections
  import opened PoolInvariant
  import opened PoolSteps
  import opened SizeClasses
  import opened SlabGeometry
  import opened System

  datatype Witness = W(pages: map<Page, PagePlace>, slots: map<Slot, SlotPlace>, spans: map<nat, SpanPlace>)

  // ----- what a thread's position says

  predicate Dying(op: Op) {
    op.Drop? || op.DropDrain? || op.DropJudge? || op.Abandon? || (op.Drain? && op.next.ToDrop?)
  }

  /** The slab at the head of `Hand` carries the thread's heap id already. */
  predicate Claiming(op: Op) {
    op.AdoptDrain? || op.AdoptJudge? || (op.Drain? && op.next.ToAdopt?)
  }

  predicate Adopting(op: Op, c: nat) {
    match op
    case Adopt(d, _) => c == d
    case AdoptDrain(d, _) => c == d
    case AdoptJudge(d, _) => c == d
    case Drain(_, ToAdopt(d, _)) => c == d
    case _ => false
  }

  predicate Discarding(op: Op) {
    op.DropDrain? || op.DropJudge? || op.Abandon? || (op.Drain? && op.next.ToDrop?)
  }

  /** `scan_full_list` has read the remote stack of the slab at this position and not judged it yet. */
  function ScanPos(op: Op, c: nat): Option<nat> {
    match op
    case ScanJudge(d, k) => if c == d then Some(k) else None
    case Drain(_, ToScan(d, k)) => if c == d then Some(k) else None
    case _ => None
  }

  /** The active slab of class `c` is known to have a free slot. */
  predicate Ready(op: Op, c: nat) {
    match op
    case Alloc(d, again) => again && c == d
    case Scan(d, _) => c == d
    case ScanSwap(d, _) => c == d
    case ScanJudge(d, _) => c == d
    case Drain(_, ToScan(d, _)) => c == d
    case _ => false
  }

  predicate Active(th: Thread) {
    th.heap.Running? && !Dying(th.op)
  }

  // ----- pages

  ghost predicate Owns(s: State, t: Tid, c: nat, p: Page) {
    && t in s.threads && s.threads[t].heap.Running? && c < NUM_CLASSES
    && p in s.slabs && s.slabs[p] == Header(c, s.threads[t].heap.id)
  }

  ghost predicate UnderScan(s: State, t: Tid, c: nat, p: Page)
    requires t in s.threads
  {
    var full, pos := At(s.pages, Full(t, c)), ScanPos(s.threads[t].op, c);
    pos.Some? && pos.value < |full| && full[pos.value] == p
  }

  /** `try_adopt` has written its heap id to this slab and not filed it yet. */
  ghost predicate Claimed(s: State, t: Tid, p: Page)
    requires t in s.threads
  {
    Claiming(s.threads[t].op) && At(s.pages, Hand(t)) != [] && At(s.pages, Hand(t))[0] == p
  }

  ghost predicate PlaceOK(s: State, p: Page, a: PagePlace) {
    && (p in s.slabs <==> a.Slab())
    && match a
       case Bin(t, c) => Owns(s, t, c, p) && (Ready(s.threads[t].op, c) ==> Free(s, p) > 0)
       case Full(t, c) => Owns(s, t, c, p) && (Free(s, p) == 0 || UnderScan(s, t, c, p))
       case Partial(t, c) => Owns(s, t, c, p) && 0 < Free(s, p) < SlotCount(c)
       case Abandoned(c) => c < NUM_CLASSES && s.slabs[p].sizeClass == c
       case Hand(t) =>
         && t in s.threads && s.threads[t].heap.Running? && s.slabs[p].sizeClass < NUM_CLASSES
         && (Discarding(s.threads[t].op) || Adopting(s.threads[t].op, s.slabs[p].sizeClass))
         && (Claimed(s, t, p) ==> s.slabs[p].heapId == s.threads[t].heap.id)
       case Raw(t) => t in s.threads
       case Purging(t) => t in s.threads
       case _ => true
  }

  ghost predicate PagesOK(s: State, w: map<Page, PagePlace>) {
    && (forall p :: p in w ==> PlaceOK(s, p, w[p]))
    && (forall p :: p in s.slabs ==> p in w)
  }

  // ----- slots

  ghost predicate SlotOK(s: State, x: Slot, a: SlotPlace) {
    && x.page in s.slabs && x.idx < SlotCount(s.slabs[x.page].sizeClass)
    && match a
       case Virgin(p) => p == x.page
       case Local(p) => p == x.page
       case Remote(p) => p == x.page
       case Draining(t) => t in s.threads && s.threads[t].op.Drain? && s.threads[t].op.p == x.page
       case Pushing(t) => t in s.threads
       case Live(id) => id < s.nextId
  }

  ghost predicate SlotsOK(s: State, w: map<Slot, SlotPlace>) {
    && (forall x :: x in w ==> SlotOK(s, x, w[x]))
    && (forall x: Slot :: x.page in s.slabs && x.idx < SlotCount(s.slabs[x.page].sizeClass) ==> x in w)
    && (forall id :: |At(s.slots, Live(id))| <= 1)
  }

  // ----- threads

  /** What a thread holds outside its heap. */
  ghost predicate HoldsOK(s: State, t: Tid)
    requires t in s.threads
  {
    var th := s.threads[t];
    && |At(s.pages, Raw(t))| == (if th.pool in {CacheEnter, CachePush, DeallocEnter, UncacheCount, Got} then 1 else 0)
    && (!th.pool.PurgeExit? ==> At(s.pages, Purging(t)) == [])
    && |At(s.spans, Flight(t))| == (if th.pool.Register? || th.pool.Unmap? then 1 else 0)
    && (!th.op.Drain? ==> At(s.slots, Draining(t)) == [])
    && |At(s.slots, Pushing(t))| == (if th.op.Push? then 1 else 0)
    && (!Discarding(th.op) && !th.op.Adopt? && !Claiming(th.op) ==> At(s.pages, Hand(t)) == [])
    && (Discarding(th.op) ==> |At(s.pages, Hand(t))| == 1)
    && (Claiming(th.op) ==> At(s.pages, Hand(t)) != [])
    && (th.op.Drain? && !th.op.next.ToRetry? && !th.op.next.ToScan? ==> At(s.pages, Hand(t))[0] == th.op.p)
  }

  /** Which positions in pool.rs go with which positions in heap.rs. */
  predicate PoolOpOK(th: Thread) {
    match th.pool
    case PIdle => !th.op.Await?
    case UncacheCount => th.op.Await?
    case AllocEnter => th.op.Await?
    case Mmap => th.op.Await?
    case Register => th.op.Await?
    case Got => th.op.Await?
    case Failed => th.op.Await?
    case Unmap(refused) => if refused then th.op.Await? else th.op.Idle? || th.op.Scan? || th.op.Adopt? || th.op.Drop?
    case _ => th.op.Idle? || th.op.Scan? || th.op.Adopt? || th.op.Drop?
  }

  ghost predicate ClassEmpty(m: Lists, t: Tid, c: nat) {
    At(m, Bin(t, c)) == [] && At(m, Full(t, c)) == [] && At(m, Partial(t, c)) == []
  }

  ghost predicate EmptyBelow(m: Lists, t: Tid, c: nat) {
    forall d :: 0 <= d < c ==> ClassEmpty(m, t, d)
  }

  /** Neither an active nor a partial slab. */
  ghost predicate NoneReady(m: Lists, t: Tid, c: nat) {
    At(m, Bin(t, c)) == [] && At(m, Partial(t, c)) == []
  }

  ghost predicate BinFirst(m: Lists, t: Tid, c: nat) {
    At(m, Bin(t, c)) == [] ==> At(m, Partial(t, c)) == []
  }

  /** The bin and queues of the class a thread is working on. */
  ghost predicate OpOK(s: State, t: Tid)
    requires t in s.threads
  {
    var op := s.threads[t].op;
    && !op.Crashed?
    && (!op.Idle? && !op.Push? ==> s.threads[t].heap.Running?)
    && match op
       case Alloc(c, again) => c < NUM_CLASSES && (again ==> At(s.pages, Bin(t, c)) != [])
       case Retry(c) => c < NUM_CLASSES && At(s.pages, Bin(t, c)) != []
       case Partials(c) => c < NUM_CLASSES && At(s.pages, Bin(t, c)) == []
       case Scan(c, k) => c < NUM_CLASSES && k <= |At(s.pages, Full(t, c))| && BinFirst(s.pages, t, c)
       case ScanSwap(c, k) => c < NUM_CLASSES && k < |At(s.pages, Full(t, c))| && BinFirst(s.pages, t, c)
       case ScanJudge(c, k) => c < NUM_CLASSES && k < |At(s.pages, Full(t, c))| && BinFirst(s.pages, t, c)
       case AdoptLoad(c) => c < NUM_CLASSES && NoneReady(s.pages, t, c)
       case AdoptTake(c) => c < NUM_CLASSES && NoneReady(s.pages, t, c)
       case Adopt(c, got) => c < NUM_CLASSES && (!got ==> NoneReady(s.pages, t, c))
       case AdoptDrain(c, got) => c < NUM_CLASSES && (!got ==> NoneReady(s.pages, t, c))
       case AdoptJudge(c, got) => c < NUM_CLASSES && (!got ==> NoneReady(s.pages, t, c))
       case Fresh(c) => c < NUM_CLASSES && NoneReady(s.pages, t, c)
       case Await(c) => c < NUM_CLASSES && NoneReady(s.pages, t, c)
       case Drain(p, ToRetry(c)) => c < NUM_CLASSES && At(s.pages, Bin(t, c)) == [p]
       case Drain(p, ToScan(c, k)) =>
         c < NUM_CLASSES && k < |At(s.pages, Full(t, c))| && At(s.pages, Full(t, c))[k] == p && BinFirst(s.pages, t, c)
       case Drain(p, ToAdopt(c, got)) => c < NUM_CLASSES && (!got ==> NoneReady(s.pages, t, c))
       case Drain(p, ToDrop(c)) => c < NUM_CLASSES && EmptyBelow(s.pages, t, c)
       case Drop(c) => c <= NUM_CLASSES && EmptyBelow(s.pages, t, c)
       case DropDrain(c) => c < NUM_CLASSES && EmptyBelow(s.pages, t, c)
       case DropJudge(c) => c < NUM_CLASSES && EmptyBelow(s.pages, t, c)
       case Abandon(c) => c < NUM_CLASSES && EmptyBelow(s.pages, t, c)
       case _ => true
  }

  ghost predicate ThreadOK(s: State, t: Tid)
    requires t in s.threads
  {
    && HoldsOK(s, t) && PoolOpOK(s.threads[t]) && OpOK(s, t)
    && (forall c :: |At(s.pages, Bin(t, c))| <= 1)
  }

  ghost predicate ThreadsOK(s: State) {
    forall t :: t in s.threads ==> ThreadOK(s, t)
  }

  // ----- identity

  ghost predicate IdsOK(s: State) {
    && (forall t :: t in s.threads && s.threads[t].heap.Running? ==> s.threads[t].heap.id < s.nextHeap)
    && (forall t, u :: t in s.threads && u in s.threads && t != u && s.threads[t].heap.Running?
                       ==> s.threads[t].heap != s.threads[u].heap)
    && (forall p :: p in s.slabs ==> s.slabs[p].heapId < s.nextHeap)
  }

  ghost predicate OwnedBy(s: State, t: Tid, p: Page, a: PagePlace)
    requires t in s.threads
  {
    match a
    case Bin(u, _) => u == t
    case Full(u, _) => u == t
    case Partial(u, _) => u == t
    case Hand(u) => u == t && Claimed(s, t, p)
    case _ => false
  }

  /** A header that names an active heap tells the truth. */
  ghost predicate OwnersOK(s: State, w: map<Page, PagePlace>) {
    forall t, p ::
      (t in s.threads && Active(s.threads[t]) && p in s.slabs && p in w && s.slabs[p].heapId == s.threads[t].heap.id)
      ==> OwnedBy(s, t, p, w[p])
  }

  // ----- segments

  function SpanLists(s: State): map<SpanPlace, seq<nat>> {
    s.spans[Registered := s.pool.segs]
  }

  ghost predicate SpansOK(s: State, w: map<nat, SpanPlace>) {
    && Tiled(SpanLists(s), w)
    && w.Keys == s.mapped
    && (forall a, b :: a in s.mapped && b in s.mapped && a != b ==> Apart(a, b))
    && (forall b :: b in w && w[b].Flight? ==> w[b].t in s.threads)
  }

  ghost predicate Inv(s: State, w: Witness) {
    && Pooled(s.pool, s.pages, w.pages)
    && Tiled(s.slots, w.slots)
    && SpansOK(s, w.spans)
    && PagesOK(s, w.pages)
    && SlotsOK(s, w.slots)
    && ThreadsOK(s)
    && IdsOK(s)
    && OwnersOK(s, w.pages)
  }
}
