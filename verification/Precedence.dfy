/**
 Which slab answers an allocation (src/heap.rs:118-149). A slab that is active and has anything to
 give, free or remotely freed, gives the slot; so does the first slab of the partial queue once that
 queue is reached, and the slab a scan has made active. Other threads cannot prevent it, because only
 the owner takes slots from a slab's local list or bump region.
 */
module Precedence {
  import opened Places
  import opened Tiling
  import opened PoolSections
  import opened PoolInvariant
  import opened PoolSteps
  import opened SizeClasses
  import opened SlabGeometry
  import opened System
  import opened SystemInvariant
  import opened Frames
  import opened ControlSteps
  import opened SlotSteps
  import opened PageSteps
  import opened SlabSteps
  import opened LifeSteps
  import opened Safety
  import opened Progress
  import opened Mappings
  import opened WholeMemory
  import opened Answers

  // ----- only the owner

  /** The slab whose local list, bump region or remote stack a thread takes from or drains. */
  function Works(k: Kind): Option<Page> {
    match k
    case Take(p) => Some(p)
    case Bump(p) => Some(p)
    case Swap(p) => Some(p)
    case Walk(p) => Some(p)
    case Put(x, _) => Some(x.page)
    case Birth(p, _) => Some(p)
    case _ => None
  }

  lemma OwnList(s: State, w: Witness, t: Tid, a: PagePlace, i: nat)
    requires Inv(s, w) && a.Mine(t) && i < |At(s.pages, a)|
    ensures At(s.pages, a)[i] in w.pages && w.pages[At(s.pages, a)[i]].Mine(t)
  {
    hide Inv, PlaceOK;
    PageAt(s, w, a, i);
  }

  lemma OpOwns(s: State, w: Witness, t: Tid)
    requires Inv(s, w) && t in s.threads
    ensures var q := Works(OpKind(s, t)); q.Some? ==> q.value in w.pages && w.pages[q.value].Mine(t)
  {
    hide Inv, Free, FullyFree;
    ThreadFacts(s, w, t);
    match s.threads[t].op {
      case Alloc(c, _) => if At(s.pages, Bin(t, c)) != [] { OwnList(s, w, t, Bin(t, c), 0); }
      case Retry(c) => if At(s.pages, Bin(t, c)) != [] { OwnList(s, w, t, Bin(t, c), 0); }
      case ScanSwap(c, k) => if k < |At(s.pages, Full(t, c))| { OwnList(s, w, t, Full(t, c), k); }
      case AdoptDrain(_, _) => if At(s.pages, Hand(t)) != [] { OwnList(s, w, t, Hand(t), 0); }
      case DropDrain(_) => if At(s.pages, Hand(t)) != [] { OwnList(s, w, t, Hand(t), 0); }
      case AdoptJudge(_, _) => if At(s.pages, Hand(t)) != [] { OwnList(s, w, t, Hand(t), 0); }
      case Await(_) => if At(s.pages, Raw(t)) != [] { OwnList(s, w, t, Raw(t), 0); }
      case Drain(p, ToRetry(c)) => OwnList(s, w, t, Bin(t, c), 0);
      case Drain(p, ToScan(c, k)) => OwnList(s, w, t, Full(t, c), k);
      case Drain(p, _) => OwnList(s, w, t, Hand(t), 0);
      case _ =>
    }
  }

  lemma FreeOwns(s: State, w: Witness, t: Tid, id: nat)
    requires Inv(s, w) && Enabled(s, t, StartFree(id))
    ensures var q := Works(KindOf(s, t, StartFree(id))); q.Some? ==> q.value in w.pages && w.pages[q.value].Mine(t)
  {
    hide Inv, Free, SlotCount;
    var x := At(s.slots, Live(id))[0];
    if KindOf(s, t, StartFree(id)).Put? {
      var c := s.slabs[x.page].sizeClass;
      if At(s.pages, Bin(t, c)) == [x.page] {
        OwnList(s, w, t, Bin(t, c), 0);
      } else {
        HeaderOwns(s, w, t, x.page);
      }
    }
  }

  /** A header with a resting heap's id: the slab is that heap's. */
  lemma HeaderOwns(s: State, w: Witness, t: Tid, p: Page)
    requires Inv(s, w) && t in s.threads && AtRest(s.threads[t]) && s.threads[t].heap.Running?
    requires p in s.slabs && s.slabs[p].heapId == s.threads[t].heap.id
    ensures p in w.pages && w.pages[p].Mine(t)
  {
    hide Pooled, SlotsOK, SpansOK, ThreadsOK, IdsOK, PlaceOK, Tiled;
    assert OwnedBy(s, t, p, w.pages[p]);
  }

  /** Whatever a thread takes from, drains or frees into locally is a slab of its own. */
  lemma OwnerOnly(s: State, w: Witness, t: Tid, e: Event)
    requires Inv(s, w) && Enabled(s, t, e)
    ensures var q := Works(KindOf(s, t, e)); q.Some? ==> q.value in w.pages && w.pages[q.value].Mine(t)
  {
    hide Inv, OpKind;
    match e {
      case Go => OpOwns(s, w, t);
      case StartFree(id) => FreeOwns(s, w, t, id);
      case _ =>
    }
  }

  /** A move of others leaves the slab's own lists alone, and takes nothing off its remote stack. */
  lemma MoveKeeps(s: State, t: Tid, k: Kind, p: Page)
    requires Can(s, t, k) && Works(k) != Some(p)
    ensures At(After(s, t, k), Local(p)) == At(s.slots, Local(p))
    ensures At(After(s, t, k), Virgin(p)) == At(s.slots, Virgin(p))
    ensures |At(After(s, t, k), Remote(p))| >= |At(s.slots, Remote(p))|
  {
    hide AllSlots;
  }

  /** No step of another thread takes from an active slab. */
  lemma OthersKeep(s: State, w: Witness, u: Tid, e: Event, t: Tid, a: PagePlace, p: Page)
    requires Inv(s, w) && Enabled(s, u, e) && t in s.threads && u != t
    requires (a.Bin? || a.Full? || a.Partial?) && a.Mine(t) && p in At(s.pages, a)
    ensures var s' := Next(s, u, e);
            && At(s'.slots, Local(p)) == At(s.slots, Local(p)) && At(s'.slots, Virgin(p)) == At(s.slots, Virgin(p))
            && |At(s'.slots, Remote(p))| >= |At(s.slots, Remote(p))|
  {
    assert u in s.threads;
    hide Inv, Next, KindOf, Enabled, Is, After, PlaceOK;
    var s', k := Next(s, u, e), KindOf(s, u, e);
    var i := IndexOf(At(s.pages, a), p);
    PageAt(s, w, a, i);
    OwnerOnly(s, w, u, e);
    EventIs(s, w, u, e);
    IsParts(s, s', u, k);
    StillSlab(s, w, u, e, t, a, i);
    hide Fits, Makes;
    MovedLists(s, s', u, k, p);
  }

  /** A slab in another thread's bin or queue stays a slab. */
  lemma StillSlab(s: State, w: Witness, u: Tid, e: Event, t: Tid, a: PagePlace, i: nat)
    requires Inv(s, w) && Enabled(s, u, e) && t in s.threads && u != t
    requires (a.Bin? || a.Full? || a.Partial?) && a.Mine(t) && i < |At(s.pages, a)|
    ensures At(s.pages, a)[i] in Next(s, u, e).slabs
  {
    hide Inv, Next, Enabled;
    var w' := StepInv(s, w, u, e);
    OtherThreadSame(s, u, e, t);
    assert At(Next(s, u, e).pages, a) == At(s.pages, a);
    ListFits(Next(s, u, e), w', a, i);
  }

  lemma MovedLists(s: State, s': State, u: Tid, k: Kind, p: Page)
    requires Makes(s, s', u, k) && Works(k) != Some(p) && p in s'.slabs
    ensures At(s'.slots, Local(p)) == At(s.slots, Local(p)) && At(s'.slots, Virgin(p)) == At(s.slots, Virgin(p))
    ensures |At(s'.slots, Remote(p))| >= |At(s.slots, Remote(p))|
  {
    MoveKeeps(s, u, k, p);
    hide After, Can, At;
  }

  // ----- the slab that will answer

  /** Thread `t`, allocating in class `c`, will be served by slab `p`. */
  ghost predicate Promise(s: State, t: Tid, c: nat, p: Page) {
    t in s.threads &&
    var bin := At(s.pages, Bin(t, c));
    match s.threads[t].op
    case Alloc(d, _) => d == c && bin == [p] && Free(s, p) + |At(s.slots, Remote(p))| > 0
    case Drain(q, ToRetry(d)) => d == c && q == p && bin == [p] && Free(s, p) + |At(s.slots, Draining(t))| > 0
    case Retry(d) => d == c && bin == [p] && Free(s, p) > 0
    case Partials(d) => d == c && At(s.pages, Partial(t, c)) != [] && At(s.pages, Partial(t, c))[0] == p
    case Scan(d, _) => d == c && bin == [p]
    case ScanSwap(d, _) => d == c && bin == [p]
    case ScanJudge(d, _) => d == c && bin == [p]
    case Drain(_, ToScan(d, _)) => d == c && bin == [p]
    case _ => false
  }

  ghost predicate Kept(s: State, s': State, t: Tid, c: nat, p: Page) {
    Promise(s', t, c, p) || Gives(s, s', c, p) || (t in s'.threads && s'.threads[t].op.Crashed?)
  }

  lemma AllocKept(s: State, w: Witness, t: Tid, c: nat, p: Page)
    requires Inv(s, w) && Promise(s, t, c, p) && (s.threads[t].op.Alloc? || s.threads[t].op.Retry?)
    ensures s.threads[t].op.Alloc? ==> Kept(s, StepAlloc(s, t, c), t, c, p)
    ensures s.threads[t].op.Retry? ==> Kept(s, StepRetry(s, t, c), t, c, p)
  {
    hide Inv, Gives;
    BinClass(s, w, t, c);
    if Free(s, p) > 0 { BinGives(s, w, t, c, SetOp(SlabAlloc(s, p), t, Idle)); }
    if s.threads[t].op.Alloc? { DrainsNothing(s, w, t); }
    hide SlabAlloc, Shift;
  }

  lemma DrainsNothing(s: State, w: Witness, t: Tid)
    requires Inv(s, w) && t in s.threads && !s.threads[t].op.Drain?
    ensures At(s.slots, Draining(t)) == []
  {
    hide Inv, OpOK;
    ThreadFacts(s, w, t);
  }

  lemma DrainKept(s: State, t: Tid, c: nat, p: Page, q: Page, next: Cont)
    requires Promise(s, t, c, p) && s.threads[t].op == Drain(q, next)
    ensures Kept(s, StepDrain(s, t, q, next), t, c, p)
  {
    if At(s.slots, Draining(t)) != [] { ShiftAt(s.slots, Draining(t), 0, Local(q)); }
    hide Shift, Gives;
  }

  lemma PartialsKept(s: State, w: Witness, t: Tid, c: nat, p: Page)
    requires Inv(s, w) && Promise(s, t, c, p) && s.threads[t].op == Partials(c)
    ensures Kept(s, StepPartials(s, t, c), t, c, p)
  {
    hide Inv, HoldsOK, Gives, SlotCount;
    PageAt(s, w, Partial(t, c), 0);
    ThreadFacts(s, w, t);
    ShiftAt(s.pages, Partial(t, c), 0, Bin(t, c));
    hide Shift, OpOK;
  }

  lemma ScanKept(s: State, w: Witness, t: Tid, c: nat, p: Page, k: nat)
    requires Inv(s, w) && Promise(s, t, c, p)
    ensures s.threads[t].op == Scan(c, k) ==> Kept(s, StepScan(s, t, c, k), t, c, p)
    ensures s.threads[t].op == ScanSwap(c, k) ==> Kept(s, StepScanSwap(s, t, c, k), t, c, p)
  {
    hide Inv, Gives, Owns, Pour;
    if s.threads[t].op == Scan(c, k) { BinOwned(s, w, t, c); }
  }

  lemma ScanJudgeKept(s: State, t: Tid, c: nat, p: Page, k: nat)
    requires Promise(s, t, c, p) && s.threads[t].op == ScanJudge(c, k)
    ensures Kept(s, StepScanJudge(s, t, c, k), t, c, p)
  {
    if k < |At(s.pages, Full(t, c))| {
      ShiftAt(s.pages, Full(t, c), k, Raw(t));
      ShiftAt(s.pages, Full(t, c), k, Partial(t, c));
    }
    hide Shift, Gives, SlotCount, Free;
  }

  lemma PoolKept(s: State, t: Tid, c: nat, p: Page)
    requires Promise(s, t, c, p) && InPool(s.threads[t])
    ensures Kept(s, StepPool(s, t), t, c, p)
  {
    hide StepPool, Gives;
    PoolLower(s, t);
    PoolSlots(s, t);
  }

  lemma PoolSlots(s: State, t: Tid)
    requires t in s.threads
    ensures StepPool(s, t).slots == s.slots && StepPool(s, t).slabs == s.slabs
  {
    hide StepPool;
    Gauges.PoolKeeps(s, t);
  }

  /** A step of the thread itself. */
  lemma OwnKept(s: State, w: Witness, t: Tid, e: Event, c: nat, p: Page)
    requires Inv(s, w) && Enabled(s, t, e) && Promise(s, t, c, p)
    ensures Promise(Next(s, t, e), t, c, p) || Gives(s, Next(s, t, e), c, p)
  {
    PromiseOp(s, t, c, p);
    hide Inv, Gives, Promise, HoldsOK, StepPool, StepAlloc, StepRetry, StepPartials, StepScan, StepScanSwap,
         StepScanJudge, StepDrain;
    var s' := Next(s, t, e);
    ThreadFacts(s, w, t);
    var w' := StepInv(s, w, t, e);
    if InPool(s.threads[t]) {
      PoolKept(s, t, c, p);
    } else {
      hide OpOK;
      match s.threads[t].op {
        case Alloc(_, _) => AllocKept(s, w, t, c, p);
        case Retry(_) => AllocKept(s, w, t, c, p);
        case Partials(_) => PartialsKept(s, w, t, c, p);
        case Scan(_, k) => ScanKept(s, w, t, c, p, k);
        case ScanSwap(_, k) => ScanKept(s, w, t, c, p, k);
        case ScanJudge(_, k) => ScanJudgeKept(s, t, c, p, k);
        case Drain(q, next) => DrainKept(s, t, c, p, q, next);
        case _ =>
      }
    }
    NeverCrashed(s', w', t);
  }

  lemma PromiseOp(s: State, t: Tid, c: nat, p: Page)
    requires Promise(s, t, c, p)
    ensures t in s.threads && ClassIn(s.threads[t].op) == Some(c)
    ensures var op := s.threads[t].op;
            op.Alloc? || op.Retry? || op.Partials? || op.Scan? || op.ScanSwap? || op.ScanJudge? || op.Drain?
  {
  }

  /** A step of anybody else. */
  lemma OtherKept(s: State, w: Witness, u: Tid, e: Event, t: Tid, c: nat, p: Page)
    requires Inv(s, w) && Enabled(s, u, e) && t != u && Promise(s, t, c, p)
    ensures Promise(Next(s, u, e), t, c, p)
  {
    hide Inv, Next, Enabled;
    OtherThreadSame(s, u, e, t);
    if At(s.pages, Bin(t, c)) == [p] { OthersKeep(s, w, u, e, t, Bin(t, c), p); }
    hide At;
  }

  /** Step `j` of `t` hands out a slot of slab `p`, of class `c`. */
  ghost predicate GivenFrom(tr: seq<State>, ls: seq<Label>, t: Tid, c: nat, p: Page, j: nat)
    requires j < |ls| < |tr|
  {
    ls[j].t == t && Gives(tr[j], tr[j + 1], c, p)
  }

  /**
   A promise is kept in every history: once it stands, the call does not return before one of its own
   steps has handed out a slot of that very slab. It stands for an active slab with a free or remotely
   freed slot when the call tries it, for the first slab of the partial queue when that is tried, and
   for the slab that is active while the full queue is scanned.
   */
  lemma {:induction false} PromiseServed(tr: seq<State>, ls: seq<Label>, t: Tid, c: nat, p: Page, j: nat, k: nat)
    requires History(tr, ls) && j <= k <= |ls| && Promise(tr[j], t, c, p)
    requires t in tr[k].threads && AtRest(tr[k].threads[t])
    ensures exists l :: j <= l < k && GivenFrom(tr, ls, t, c, p, l)
    decreases k - j
  {
    hide Init, Next, Enabled, Inv, Gives, Promise, Goes;
    PromiseOp(tr[j], t, c, p);
    RestOrInside(tr[j], t, c);
    assert Enabled(tr[j], ls[j].t, ls[j].e) && tr[j + 1] == Next(tr[j], ls[j].t, ls[j].e);
    HistoryRuns(tr, ls);
    var w := RunInv(tr, j);
    if ls[j].t == t {
      OwnKept(tr[j], w, t, ls[j].e, c, p);
    } else {
      OtherKept(tr[j], w, ls[j].t, ls[j].e, t, c, p);
    }
    if Promise(tr[j + 1], t, c, p) {
      PromiseServed(tr, ls, t, c, p, j + 1, k);
      var l :| j + 1 <= l < k && GivenFrom(tr, ls, t, c, p, l);
    } else {
      assert GivenFrom(tr, ls, t, c, p, j);
    }
  }

  /** Inside an allocation not yet served, an active slab with a free slot is a promise. */
  lemma ActivePromises(s: State, w: Witness, t: Tid, c: nat, p: Page)
    requires Inv(s, w) && t in s.threads && ClassIn(s.threads[t].op) == Some(c) && !HasSlot(s.threads[t].op)
    requires At(s.pages, Bin(t, c)) == [p] && Free(s, p) > 0
    ensures Promise(s, t, c, p)
  {
    hide Inv, HoldsOK, Free;
    ThreadFacts(s, w, t);
  }

  /**
   In every history a thread inside an allocation that has an active slab of the class with a free slot
   does not come to rest without a new allocation: it has been served already, or that slab serves it.
   */
  lemma ActiveAnswers(tr: seq<State>, ls: seq<Label>, t: Tid, c: nat, p: Page, j: nat, k: nat)
    requires History(tr, ls) && j <= k <= |ls| && t in tr[j].threads && ClassIn(tr[j].threads[t].op) == Some(c)
    requires At(tr[j].pages, Bin(t, c)) == [p] && Free(tr[j], p) > 0
    requires t in tr[k].threads && AtRest(tr[k].threads[t])
    ensures HasSlot(tr[j].threads[t].op) || exists l :: j <= l < k && GivenFrom(tr, ls, t, c, p, l)
  {
    if !HasSlot(tr[j].threads[t].op) {
      HistoryRuns(tr, ls);
      var w := RunInv(tr, j);
      hide History, Inv, Promise, Free;
      ActivePromises(tr[j], w, t, c, p);
      PromiseServed(tr, ls, t, c, p, j, k);
    }
  }
}
