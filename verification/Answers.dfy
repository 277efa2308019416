/**
 What a call of `alloc` answers (src/heap.rs:106-219). Over whole histories: a call that begins and
 returns has handed out exactly one slot of the requested class, or it has been refused a page. And
 which slab answers: the active one if it has anything, free or remotely freed; then the first of the
 partial queue; then the first of the full queue found with a free slot.
 */
module Answers {
  import opened Places
  import opened Tiling
  import opened PoolSections
  import opened PoolInvariant
  import opened PoolSteps
  import opened SizeClasses
  import opened SlabGeometry
  import opened System
  import opened SystemInvariant
  import opened Frames
  import opened ControlSteps
  import opened SlotSteps
  import opened SlabSteps
  import opened LifeSteps
  import opened Safety
  import opened Gauges
  import opened Progress
  import opened Mappings
  import opened Alone

  /** The class of the allocation a thread is inside. */
  function ClassIn(op: Op): Option<nat> {
    match op
    case Alloc(c, _) => Some(c)
    case Retry(c) => Some(c)
    case Partials(c) => Some(c)
    case Scan(c, _) => Some(c)
    case ScanSwap(c, _) => Some(c)
    case ScanJudge(c, _) => Some(c)
    case AdoptLoad(c) => Some(c)
    case AdoptTake(c) => Some(c)
    case Adopt(c, _) => Some(c)
    case AdoptDrain(c, _) => Some(c)
    case AdoptJudge(c, _) => Some(c)
    case Fresh(c) => Some(c)
    case Await(c) => Some(c)
    case Drain(_, ToRetry(c)) => Some(c)
    case Drain(_, ToScan(c, _)) => Some(c)
    case Drain(_, ToAdopt(c, _)) => Some(c)
    case _ => None
  }

  /** The call has its slot already and goes on with the chain it is adopting. */
  predicate HasSlot(op: Op) {
    match op
    case Adopt(_, got) => got
    case AdoptDrain(_, got) => got
    case AdoptJudge(_, got) => got
    case Drain(_, ToAdopt(_, got)) => got
    case _ => false
  }

  /** The step hands out one slot of slab `p`, which is of class `c`. */
  ghost predicate Gives(s: State, s': State, c: nat, p: Page) {
    && s'.nextId == s.nextId + 1 && |At(s'.slots, Live(s.nextId))| == 1
    && At(s'.slots, Live(s.nextId))[0].page == p && p in s'.slabs && s'.slabs[p].sizeClass == c
  }

  ghost predicate GivesOne(s: State, s': State, c: nat) {
    exists p :: Gives(s, s', c, p)
  }

  /** The call goes on, and is served in this step, before, or not yet. */
  ghost predicate GoesOn(s: State, s': State, t: Tid, c: nat) {
    && t in s.threads && t in s'.threads && ClassIn(s'.threads[t].op) == Some(c)
    && if HasSlot(s'.threads[t].op) && !HasSlot(s.threads[t].op) then GivesOne(s, s', c)
       else s'.nextId == s.nextId && HasSlot(s'.threads[t].op) == HasSlot(s.threads[t].op)
  }

  /** The call returns: served in this step, served before, or refused a page. */
  ghost predicate Returns(s: State, s': State, t: Tid, c: nat) {
    && t in s.threads && t in s'.threads && AtRest(s'.threads[t])
    && if HasSlot(s.threads[t].op) then s'.nextId == s.nextId
       else GivesOne(s, s', c) ||
            (s'.nextId == s.nextId && s.threads[t].op == Await(c) && s.threads[t].pool.Failed?)
  }

  ghost predicate Answer(s: State, s': State, t: Tid, c: nat) {
    GoesOn(s, s', t, c) || Returns(s, s', t, c) || (t in s'.threads && s'.threads[t].op.Crashed?)
  }

  // ----- one step

  lemma TookGives(s: State, w: Witness, p: Page)
    requires Inv(s, w) && p in s.slabs && Free(s, p) > 0
    ensures Gives(s, SlabAlloc(s, p), s.slabs[p].sizeClass, p) && SlabAlloc(s, p).slabs == s.slabs
  {
    hide Inv, SlotCount, ClassSize;
    FreshId(s, w);
    SlotFacts(s, w, Source(s, p), 0);
    ShiftAt(s.slots, Source(s, p), 0, Live(s.nextId));
    hide Shift;
  }

  lemma GivesMore(s: State, s1: State, s': State, c: nat, p: Page)
    requires Gives(s, s1, c, p) && s' == s1.(pages := s'.pages, threads := s'.threads)
    ensures Gives(s, s', c, p)
  {
  }

  lemma BinOwned(s: State, w: Witness, t: Tid, c: nat)
    requires Inv(s, w) && t in s.threads && At(s.pages, Bin(t, c)) != []
    ensures |At(s.pages, Bin(t, c))| == 1 && Owns(s, t, c, At(s.pages, Bin(t, c))[0])
    ensures Ready(s.threads[t].op, c) ==> Free(s, At(s.pages, Bin(t, c))[0]) > 0
  {
    hide Inv, HoldsOK, OpOK, Free, SlotCount;
    PageAt(s, w, Bin(t, c), 0);
    ThreadFacts(s, w, t);
  }

  /** The active slab gives a slot when it has one. */
  lemma BinGives(s: State, w: Witness, t: Tid, c: nat, s': State)
    requires Inv(s, w) && t in s.threads && At(s.pages, Bin(t, c)) != []
    requires var p := At(s.pages, Bin(t, c))[0];
             Free(s, p) > 0 && p in s.slabs && s' == SetOp(SlabAlloc(s, p), t, Idle)
    ensures Gives(s, s', c, At(s.pages, Bin(t, c))[0])
  {
    hide Inv, Free, SlabAlloc, Gives, Owns;
    var p := At(s.pages, Bin(t, c))[0];
    BinClass(s, w, t, c);
    TookGives(s, w, p);
    GivesMore(s, SlabAlloc(s, p), s', c, p);
  }

  lemma BinClass(s: State, w: Witness, t: Tid, c: nat)
    requires Inv(s, w) && t in s.threads && At(s.pages, Bin(t, c)) != []
    ensures var p := At(s.pages, Bin(t, c))[0]; p in s.slabs && s.slabs[p].sizeClass == c
  {
    hide Inv;
    BinOwned(s, w, t, c);
  }

  lemma BinAnswers(s: State, w: Witness, t: Tid, c: nat)
    requires Inv(s, w) && t in s.threads && s.threads[t].pool.PIdle?
    ensures s.threads[t].op.Alloc? && s.threads[t].op.c == c ==> Answer(s, StepAlloc(s, t, c), t, c)
    ensures s.threads[t].op == Retry(c) ==> Answer(s, StepRetry(s, t, c), t, c)
  {
    hide Inv, Gives;
    var bin := At(s.pages, Bin(t, c));
    if bin != [] {
      BinClass(s, w, t, c);
      if Free(s, bin[0]) > 0 { BinGives(s, w, t, c, SetOp(SlabAlloc(s, bin[0]), t, Idle)); }
      hide SlabAlloc, Free;
    }
    hide Shift, Pour;
  }

  lemma ScanAnswers(s: State, t: Tid, c: nat, k: nat)
    requires t in s.threads && s.threads[t].pool.PIdle?
    ensures s.threads[t].op == Partials(c) ==> Answer(s, StepPartials(s, t, c), t, c)
    ensures s.threads[t].op == Scan(c, k) ==> Answer(s, StepScan(s, t, c, k), t, c)
    ensures s.threads[t].op == ScanSwap(c, k) ==> Answer(s, StepScanSwap(s, t, c, k), t, c)
    ensures s.threads[t].op == ScanJudge(c, k) ==> Answer(s, StepScanJudge(s, t, c, k), t, c)
  {
    hide SlotCount, Shift, Pour, Free, Gives;
  }

  lemma DrainAnswers(s: State, t: Tid, p: Page, next: Cont, c: nat)
    requires t in s.threads && s.threads[t].op == Drain(p, next) && ClassIn(s.threads[t].op) == Some(c)
    ensures Answer(s, StepDrain(s, t, p, next), t, c)
  {
    hide Shift, Gives;
  }

  lemma AdoptAnswers(s: State, t: Tid, c: nat, got: bool)
    requires t in s.threads && s.threads[t].pool.PIdle?
    ensures s.threads[t].op == AdoptLoad(c) ==> Answer(s, StepAdoptLoad(s, t, c), t, c)
    ensures s.threads[t].op == AdoptTake(c) ==> Answer(s, StepAdoptTake(s, t, c), t, c)
    ensures s.threads[t].op == Adopt(c, got) ==> Answer(s, StepAdopt(s, t, c, got), t, c)
    ensures s.threads[t].op == AdoptDrain(c, got) ==> Answer(s, StepAdoptDrain(s, t, c, got), t, c)
  {
    hide Pour, Gives;
  }

  lemma FreshAnswers(s: State, t: Tid, c: nat)
    requires t in s.threads && s.threads[t].op == Fresh(c)
    ensures Answer(s, StepFresh(s, t, c), t, c)
  {
    hide Shift, Gives;
  }

  lemma AdoptJudgeAnswers(s: State, w: Witness, t: Tid, c: nat, got: bool)
    requires Inv(s, w) && t in s.threads && s.threads[t].op == AdoptJudge(c, got)
    ensures Answer(s, StepAdoptJudge(s, t, c, got), t, c)
  {
    hide Inv, Gives, SlotCount;
    var chain := At(s.pages, Hand(t));
    if chain != [] && chain[0] in s.slabs && Free(s, chain[0]) > 0 {
      HandClass(s, w, t, c, got);
      TookGives(s, w, chain[0]);
      if !FullyFree(s, chain[0]) && !got {
        hide SlabAlloc, FullyFree, Free;
        GivesMore(s, SlabAlloc(s, chain[0]), StepAdoptJudge(s, t, c, got), c, chain[0]);
      }
    }
    hide Shift, SlabAlloc, Free, FullyFree;
  }

  lemma HandClass(s: State, w: Witness, t: Tid, c: nat, got: bool)
    requires Inv(s, w) && t in s.threads && s.threads[t].op == AdoptJudge(c, got) && At(s.pages, Hand(t)) != []
    ensures var p := At(s.pages, Hand(t))[0]; p in s.slabs && s.slabs[p].sizeClass == c
  {
    hide Inv, Free, SlotCount;
    PageAt(s, w, Hand(t), 0);
  }

  lemma AwaitAnswers(s: State, w: Witness, t: Tid, c: nat)
    requires Inv(s, w) && t in s.threads && s.threads[t].op == Await(c) && !InPool(s.threads[t])
    ensures Answer(s, StepAwait(s, t, c), t, c)
  {
    hide Inv, Gives, ClassSize, SlotCount, HoldsOK;
    ThreadFacts(s, w, t);
    hide OpOK;
    if s.threads[t].pool.Got? {
      InitFacts(s, w, t, c);
      hide ThreadOK, StepAwait;
      var p := At(s.pages, Raw(t))[0];
      var s0 := Inited(s, p, c, s.threads[t].heap.id);
      InitGives(s, s0, p, c);
      hide SlabAlloc, Inited;
      GivesMore(s, SlabAlloc(s0, p), StepAwait(s, t, c), c, p);
    }
  }

  lemma InitGives(s: State, s0: State, p: Page, c: nat)
    requires At(s.slots, Local(p)) == [] && At(s.slots, Live(s.nextId)) == []
    requires s0 == s.(slabs := s0.slabs, slots := s.slots[Virgin(p) := AllSlots(p, c)])
    requires p in s0.slabs && s0.slabs[p].sizeClass == c
    ensures Free(s0, p) > 0 && Gives(s, SlabAlloc(s0, p), c, p)
  {
    hide ClassSize, SlotCount, AllSlots;
    assert At(s0.slots, Local(p)) == [] && At(s0.slots, Virgin(p)) == AllSlots(p, c);
    assert AllSlots(p, c)[0].page == p by { FirstSlot(p, c); }
    assert At(s0.slots, Live(s0.nextId)) == [];
    ShiftAt(s0.slots, Virgin(p), 0, Live(s0.nextId));
    hide Shift;
  }

  lemma PoolAnswers(s: State, t: Tid, c: nat)
    requires t in s.threads && InPool(s.threads[t]) && ClassIn(s.threads[t].op) == Some(c)
    ensures Answer(s, StepPool(s, t), t, c)
  {
    hide StepPool, Gives, SameWork;
    PoolLower(s, t);
    PoolKeeps(s, t);
  }

  /** Every step of a thread inside an allocation goes on with the call or returns its answer. */
  lemma OwnAnswer(s: State, w: Witness, t: Tid, e: Event, c: nat)
    requires Inv(s, w) && Enabled(s, t, e) && ClassIn(s.threads[t].op) == Some(c)
    ensures GoesOn(s, Next(s, t, e), t, c) || Returns(s, Next(s, t, e), t, c)
  {
    hide Inv, HoldsOK, GoesOn, Returns, StepPool, StepAlloc, StepRetry, StepPartials, StepScan, StepScanSwap,
         StepScanJudge, StepAdoptLoad, StepAdoptTake, StepAdopt, StepAdoptDrain, StepAdoptJudge, StepFresh,
         StepAwait, StepDrain;
    ThreadFacts(s, w, t);
    var w' := StepInv(s, w, t, e);
    var s' := Next(s, t, e);
    if e.Mapped? {
      MappedAnswers(s, t, e.base, c);
    } else if InPool(s.threads[t]) {
      PoolAnswers(s, t, c);
    } else {
      match s.threads[t].op {
        case Alloc(_, _) => BinAnswers(s, w, t, c);
        case Retry(_) => BinAnswers(s, w, t, c);
        case Partials(_) => ScanAnswers(s, t, c, 0);
        case Scan(_, k) => ScanAnswers(s, t, c, k);
        case ScanSwap(_, k) => ScanAnswers(s, t, c, k);
        case ScanJudge(_, k) => ScanAnswers(s, t, c, k);
        case AdoptLoad(_) => AdoptAnswers(s, t, c, false);
        case AdoptTake(_) => AdoptAnswers(s, t, c, false);
        case Adopt(_, got) => AdoptAnswers(s, t, c, got);
        case AdoptDrain(_, got) => AdoptAnswers(s, t, c, got);
        case AdoptJudge(_, got) => AdoptJudgeAnswers(s, w, t, c, got);
        case Fresh(_) => FreshAnswers(s, t, c);
        case Await(_) => AwaitAnswers(s, w, t, c);
        case Drain(p, next) => DrainAnswers(s, t, p, next, c);
      }
    }
    NeverCrashed(s', w', t);
  }

  lemma NeverCrashed(s: State, w: Witness, t: Tid)
    requires Inv(s, w)
    ensures t in s.threads ==> !s.threads[t].op.Crashed?
  {
    hide Inv, HoldsOK;
    if t in s.threads { ThreadFacts(s, w, t); }
  }

  lemma MappedAnswers(s: State, t: Tid, base: nat, c: nat)
    requires Enabled(s, t, Mapped(base)) && ClassIn(s.threads[t].op) == Some(c)
    ensures GoesOn(s, Next(s, t, Mapped(base)), t, c)
  {
  }

  // ----- whole calls

  /** `t` begins an allocation of class `c` at step `i` and is at rest again, for the first time, in state `k`. */
  ghost predicate Call(tr: seq<State>, ls: seq<Label>, t: Tid, c: nat, i: nat, k: nat) {
    && History(tr, ls) && i < k <= |ls| && ls[i] == Label(t, StartAlloc(c))
    && (forall j :: i < j < k ==> t in tr[j].threads && !AtRest(tr[j].threads[t]))
    && t in tr[k].threads && AtRest(tr[k].threads[t])
  }

  /** How many slots the steps of `t` from state `i` to state `j` hand out. */
  function Given(tr: seq<State>, ls: seq<Label>, t: Tid, i: nat, j: nat): nat
    requires i <= j <= |ls| < |tr|
  {
    if i == j then 0
    else Given(tr, ls, t, i, j - 1) + if ls[j - 1].t == t && tr[j].nextId != tr[j - 1].nextId then 1 else 0
  }

  /** Step `j` of `t` hands out a slot of class `c`. */
  ghost predicate GivenAt(tr: seq<State>, ls: seq<Label>, t: Tid, c: nat, j: nat)
    requires j < |ls| < |tr|
  {
    ls[j].t == t && GivesOne(tr[j], tr[j + 1], c)
  }

  lemma OtherThreadSame(s: State, u: Tid, e: Event, t: Tid)
    requires Enabled(s, u, e) && t in s.threads && t != u
    ensures Unmoved(s, Next(s, u, e), t)
  {
    hide StepOp, StepPool, StepFree;
    match e {
      case Go => hide Unmoved; if InPool(s.threads[u]) { PoolUnmoved(s, u, t); } else { OpUnmoved(s, u, t); }
      case StartFree(id) => hide Unmoved; FreeUnmoved(s, u, t, id);
      case _ =>
    }
  }

  ghost predicate GivenBetween(tr: seq<State>, ls: seq<Label>, t: Tid, c: nat, i: nat, j: nat)
    requires j <= |ls| < |tr|
  {
    exists l :: i <= l < j && GivenAt(tr, ls, t, c, l)
  }

  /** Where a call begun at step `i` stands in state `j`: inside, or back with its answer. */
  ghost predicate Standing(tr: seq<State>, ls: seq<Label>, t: Tid, c: nat, i: nat, j: nat)
    requires i < j <= |ls| < |tr|
  {
    && t in tr[j].threads
    && if !AtRest(tr[j].threads[t]) then
         && ClassIn(tr[j].threads[t].op) == Some(c)
         && Given(tr, ls, t, i, j) == (if HasSlot(tr[j].threads[t].op) then 1 else 0)
         && (HasSlot(tr[j].threads[t].op) ==> GivenBetween(tr, ls, t, c, i, j))
       else
         || (Given(tr, ls, t, i, j) == 1 && GivenBetween(tr, ls, t, c, i, j))
         || (Given(tr, ls, t, i, j) == 0 && Refused(tr, ls, t, c, j - 1))
  }

  /** Step `j` is `t` learning that there is no page for it. */
  predicate Refused(tr: seq<State>, ls: seq<Label>, t: Tid, c: nat, j: nat)
    requires j < |ls| < |tr|
  {
    ls[j].t == t && t in tr[j].threads && tr[j].threads[t].op == Await(c) && tr[j].threads[t].pool.Failed?
  }

  lemma CallStep(tr: seq<State>, ls: seq<Label>, w: Witness, t: Tid, c: nat, i: nat, j: nat)
    requires i < j < |ls| < |tr| && Standing(tr, ls, t, c, i, j) && !AtRest(tr[j].threads[t]) && Inv(tr[j], w)
    requires Enabled(tr[j], ls[j].t, ls[j].e) && tr[j + 1] == Next(tr[j], ls[j].t, ls[j].e)
    ensures Standing(tr, ls, t, c, i, j + 1)
  {
    hide Inv, Next, Enabled, GivesOne;
    if GivenBetween(tr, ls, t, c, i, j) {
      var l :| i <= l < j && GivenAt(tr, ls, t, c, l);
      assert GivenBetween(tr, ls, t, c, i, j + 1);
    }
    if ls[j].t == t {
      OwnAnswer(tr[j], w, t, ls[j].e, c);
      if GivesOne(tr[j], tr[j + 1], c) {
        assert GivenAt(tr, ls, t, c, j);
        assert tr[j + 1].nextId == tr[j].nextId + 1 by { OneMore(tr[j], tr[j + 1], c); }
      }
      if ClassIn(tr[j + 1].threads[t].op) == Some(c) { RestOrInside(tr[j + 1], t, c); }
    } else {
      OtherThreadSame(tr[j], ls[j].t, ls[j].e, t);
      hide SamePages;
    }
  }

  lemma OneMore(s: State, s': State, c: nat)
    requires GivesOne(s, s', c)
    ensures s'.nextId == s.nextId + 1
  {
  }

  lemma RestOrInside(s: State, t: Tid, c: nat)
    requires t in s.threads && ClassIn(s.threads[t].op) == Some(c)
    ensures !AtRest(s.threads[t])
  {
  }

  lemma {:induction false} CallStands(tr: seq<State>, ls: seq<Label>, t: Tid, c: nat, i: nat, j: nat)
    requires History(tr, ls) && i < j <= |ls| && ls[i] == Label(t, StartAlloc(c))
    requires forall l :: i < l < j ==> t in tr[l].threads && !AtRest(tr[l].threads[t])
    ensures Standing(tr, ls, t, c, i, j)
    decreases j
  {
    hide Init, Next, Enabled, Inv, GivesOne, Goes;
    var n := j - 1;
    assert Enabled(tr[n], ls[n].t, ls[n].e) && tr[n + 1] == Next(tr[n], ls[n].t, ls[n].e);
    if n == i {
      StartInside(tr[i], t, c);
      assert tr[j] == Next(tr[i], t, StartAlloc(c));
      assert Given(tr, ls, t, i, i) == 0 && Given(tr, ls, t, i, j) == 0;
    } else {
      CallStands(tr, ls, t, c, i, n);
      HistoryRuns(tr, ls);
      var w := RunInv(tr, n);
      CallStep(tr, ls, w, t, c, i, n);
    }
  }

  /**
   Every call of `alloc` that returns has, by its own steps, handed out exactly one slot, of a slab of
   the class asked for; or none, and then its last step was to learn that there is no page for it.
   */
  lemma CallAnswered(tr: seq<State>, ls: seq<Label>, t: Tid, c: nat, i: nat, k: nat)
    requires Call(tr, ls, t, c, i, k)
    ensures (Given(tr, ls, t, i, k) == 1 && GivenBetween(tr, ls, t, c, i, k))
            || (Given(tr, ls, t, i, k) == 0 && Refused(tr, ls, t, c, k - 1))
  {
    hide History;
    CallStands(tr, ls, t, c, i, k);
  }

  lemma StartInside(s: State, t: Tid, c: nat)
    requires Enabled(s, t, StartAlloc(c))
    ensures var s' := Next(s, t, StartAlloc(c));
            && t in s'.threads && !AtRest(s'.threads[t]) && s'.nextId == s.nextId
            && ClassIn(s'.threads[t].op) == Some(c) && !HasSlot(s'.threads[t].op)
  {
  }

  // ----- a call that returns nothing

  lemma {:induction false} AloneStands(tr: seq<State>, w: Witness, t: Tid, c: nat, k: nat) returns (w': Witness)
    requires AloneFrom(tr, t) && Inv(tr[0], w) && k < |tr|
    requires ClassIn(tr[0].threads[t].op) == Some(c) && !HasSlot(tr[0].threads[t].op)
    requires forall j :: 0 <= j < k ==> t in tr[j].threads && !AtRest(tr[j].threads[t])
    ensures Inv(tr[k], w') && t in tr[k].threads
    ensures !AtRest(tr[k].threads[t]) ==>
              && ClassIn(tr[k].threads[t].op) == Some(c)
              && tr[k].nextId == tr[0].nextId + if HasSlot(tr[k].threads[t].op) then 1 else 0
    ensures AtRest(tr[k].threads[t]) && tr[k].nextId == tr[0].nextId ==>
              k > 0 && t in tr[k - 1].threads && RefusedNow(tr[k - 1], tr[k], t, c)
  {
    hide Inv, Next, Enabled, GivesOne;
    w' := w;
    if k == 0 {
      RestOrInside(tr[0], t, c);
    } else {
      var v := AloneStands(tr, w, t, c, k - 1);
      var n := k - 1;
      var e: Event :| (e == Go || e.Mapped?) && Enabled(tr[n], t, e) && tr[n + 1] == Next(tr[n], t, e);
      OwnAnswer(tr[n], v, t, e, c);
      w' := StepInv(tr[n], v, t, e);
      if GivesOne(tr[n], tr[k], c) { OneMore(tr[n], tr[k], c); }
      if ClassIn(tr[k].threads[t].op) == Some(c) { RestOrInside(tr[k], t, c); }
      if tr[n].threads[t].op == Await(c) && tr[n].threads[t].pool.Failed? { FailedStep(tr[n], t, c, e); }
    }
  }

  /** The last step of a refused call changes nothing but the thread. */
  predicate RefusedNow(s: State, s': State, t: Tid, c: nat) {
    && t in s.threads && s.threads[t].op == Await(c) && s.threads[t].pool.Failed?
    && s' == s.(threads := s'.threads)
  }

  lemma FailedStep(s: State, t: Tid, c: nat, e: Event)
    requires Enabled(s, t, e) && s.threads[t].op == Await(c) && s.threads[t].pool.Failed?
    ensures RefusedNow(s, Next(s, t, e), t, c)
  {
  }

  /**
   A call of `alloc` that works alone, from any state of any run, and returns without a new allocation
   leaves nothing behind: no active and no partial slab of the class, no free and no remotely freed
   slot in the full slabs, no abandoned slab of the class, an empty page cache, and no dirty, clean or
   uncarved page.
   */
  lemma ReturnsEmptyOnlyWhenNothingIsLeft(past: seq<State>, tr: seq<State>, t: Tid, c: nat, k: nat)
    requires Run(past) && AloneFrom(tr, t) && k < |tr|
    requires Enabled(past[|past| - 1], t, StartAlloc(c)) && tr[0] == Next(past[|past| - 1], t, StartAlloc(c))
    requires forall j :: 0 <= j < k ==> t in tr[j].threads && !AtRest(tr[j].threads[t])
    requires t in tr[k].threads && AtRest(tr[k].threads[t]) && tr[k].nextId == tr[0].nextId
    ensures Exhausted(tr[k], t, c)
  {
    hide Run, Inv, Next, Enabled, Exhausted, AloneFrom, ClassIn, HasSlot, AtRest, RefusedNow;
    var w0 := Started(past, t, c);
    var w' := AloneStands(tr, w0, t, c, k);
    RefusedLeft(past, tr, t, c, k - 1);
  }

  lemma Started(past: seq<State>, t: Tid, c: nat) returns (w: Witness)
    requires Run(past) && Enabled(past[|past| - 1], t, StartAlloc(c))
    ensures var s := Next(past[|past| - 1], t, StartAlloc(c));
            Inv(s, w) && t in s.threads && ClassIn(s.threads[t].op) == Some(c) && !HasSlot(s.threads[t].op)
  {
    assert past != [];
    hide Run, Inv, Next, Enabled;
    var v := RunInv(past, |past| - 1);
    StartInside(past[|past| - 1], t, c);
    w := StepInv(past[|past| - 1], v, t, StartAlloc(c));
  }

  lemma RefusedLeft(past: seq<State>, tr: seq<State>, t: Tid, c: nat, n: nat)
    requires Run(past) && AloneFrom(tr, t) && n + 1 < |tr|
    requires Enabled(past[|past| - 1], t, StartAlloc(c)) && tr[0] == Next(past[|past| - 1], t, StartAlloc(c))
    requires RefusedNow(tr[n], tr[n + 1], t, c)
    ensures Exhausted(tr[n + 1], t, c)
  {
    hide Run, Next, Enabled, Exhausted, AloneFrom;
    FailsOnlyWhenNothingIsLeft(past, tr, t, c, n);
    SameLeft(tr[n], tr[n + 1], t, c);
  }

  lemma SameLeft(s: State, s': State, t: Tid, c: nat)
    requires Exhausted(s, t, c) && s' == s.(threads := s'.threads)
    ensures Exhausted(s', t, c)
  {
  }
}
