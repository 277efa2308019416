/**
 Runs in which the page cache outgrows its limit (src/pool.rs:462-484): the test of the length and the
 count are separate steps, so any number of threads can pass the test before the first of them counts.
 Each of `k` threads allocates a block in a segment of its own, frees it and exits; all their pages are
 reclaimed at the same time.
 */
module Overfull {
  import opened Places
  import opened Tiling
  import opened PoolSections
  import opened PoolInvariant
  import opened SizeClasses
  import opened SlabGeometry
  import opened System
  import opened SystemInvariant
  import opened Frames
  import opened ControlSteps
  import opened SlotSteps
  import opened PageSteps
  import opened SlabSteps
  import opened LifeSteps
  import opened Safety
  import opened Counters
  import opened Gauges
  import opened Policies
  import opened Refusal

  // ----- one thread

  /** The thread runs a heap and is here; `p`, alone in place `a`, is a slab of class 0 with this many free slots. */
  ghost predicate Holds(s: State, t: Tid, op: Op, a: PagePlace, p: Page, free: nat) {
    && t in s.threads && s.threads[t].heap.Running? && s.threads[t].op == op && s.threads[t].pool == PIdle
    && At(s.pages, a) == [p] && p in s.slabs && s.slabs[p].sizeClass == 0 && Free(s, p) == free
  }

  /** The thread has its page and allocates the first slot. */
  lemma Takes(s: State, t: Tid) returns (s': State, p: Page, id: nat)
    requires ReachedBy(s, 0) && t in s.threads && s.threads[t].op == Await(0) && s.threads[t].pool == Got
    ensures ReachedBy(s', 0) && Quiet(s, s', t) && Holds(s', t, Idle, Bin(t, 0), p, SlotCount(0) - 1)
    ensures |At(s'.slots, Live(id))| == 1 && At(s'.slots, Live(id))[0].page == p
  {
    hide ReachedBy, Inv, Quiet, Holds, StepAwait;
    var w := ReachedInv(s, 0);
    FreshQuiet(s, t, 0);
    p, id := TakesStep(s, w, t);
    s' := StepAwait(s, t, 0);
    assert StepOp(s, t) == s';
    HoldsStays(s, s', t, p);
    GoesOnBy(s, t, 0);
  }

  lemma HoldsStays(s: State, s': State, t: Tid, p: Page)
    requires t in s.threads && Holds(s', t, Idle, Bin(t, 0), p, SlotCount(0) - 1)
    ensures Stays(s, s', t)
  {
    hide SlotCount;
  }

  lemma TakesStep(s: State, w: Witness, t: Tid) returns (p: Page, id: nat)
    requires Inv(s, w) && t in s.threads && s.threads[t].op == Await(0) && s.threads[t].pool == Got
    ensures var s' := StepAwait(s, t, 0);
            && Holds(s', t, Idle, Bin(t, 0), p, SlotCount(0) - 1)
            && |At(s'.slots, Live(id))| == 1 && At(s'.slots, Live(id))[0].page == p
  {
    hide Inv, Holds;
    ThreadFacts(s, w, t);
    hide ThreadOK;
    InitFacts(s, w, t, 0);
    p, id := At(s.pages, Raw(t))[0], s.nextId;
    hide StepAwait;
    TakesShape(s, StepAwait(s, t, 0), t, p);
  }

  lemma TakesShape(s: State, s': State, t: Tid, p: Page)
    requires t in s.threads && s.threads[t].heap.Running? && At(s.pages, Raw(t)) == [p] && At(s.pages, Bin(t, 0)) == []
    requires At(s.slots, Local(p)) == [] && At(s.slots, Live(s.nextId)) == []
    requires s' == SetOp(SetPool(MovePage(SlabAlloc(Inited(s, p, 0, s.threads[t].heap.id), p),
                                          Raw(t), 0, Bin(t, 0)), t, PIdle), t, Idle)
    ensures Holds(s', t, Idle, Bin(t, 0), p, SlotCount(0) - 1)
    ensures |At(s'.slots, Live(s.nextId))| == 1 && At(s'.slots, Live(s.nextId))[0].page == p
  {
    hide SlotCount, ClassSize, AllSlots;
    var s0 := Inited(s, p, 0, s.threads[t].heap.id);
    assert At(s0.slots, Local(p)) == [] && At(s0.slots, Virgin(p)) == AllSlots(p, 0);
    assert AllSlots(p, 0)[0].page == p by { FirstSlot(p, 0); }
    assert At(s0.slots, Live(s.nextId)) == [];
    ShiftAt(s0.slots, Virgin(p), 0, Live(s.nextId));
    ShiftAt(s.pages, Raw(t), 0, Bin(t, 0));
    hide Shift;
  }

  /** The thread frees that slot again. */
  lemma Frees(s: State, t: Tid, p: Page, id: nat) returns (s': State)
    requires ReachedBy(s, 0) && Holds(s, t, Idle, Bin(t, 0), p, SlotCount(0) - 1)
    requires |At(s.slots, Live(id))| == 1 && At(s.slots, Live(id))[0].page == p
    ensures ReachedBy(s', 0) && Quiet(s, s', t) && Holds(s', t, Idle, Bin(t, 0), p, SlotCount(0))
  {
    hide ReachedBy, Quiet, SlotCount, ClassSize;
    ExtendOutside(s, t, StartFree(id), 0);
    s' := Next(s, t, StartFree(id));
    FreeQuiet(s, t, id);
    ShiftAt(s.slots, Live(id), 0, Local(p));
    hide Shift;
  }

  /** The thread exits and takes the slab out of its bin. */
  lemma Exits(s: State, t: Tid, p: Page) returns (s': State)
    requires ReachedBy(s, 0) && Holds(s, t, Idle, Bin(t, 0), p, SlotCount(0))
    ensures ReachedBy(s', 0) && Quiet(s, s', t) && Holds(s', t, DropDrain(0), Hand(t), p, SlotCount(0))
  {
    hide ReachedBy, SlotCount;
    ExtendOutside(s, t, Exit, 0);
    var s1 := SetOp(s, t, Drop(0));
    assert Next(s, t, Exit) == s1;
    s' := TakesOut(s1, t, p);
  }

  lemma TakesOut(s: State, t: Tid, p: Page) returns (s': State)
    requires ReachedBy(s, 0) && Holds(s, t, Drop(0), Bin(t, 0), p, SlotCount(0))
    ensures ReachedBy(s', 0) && Quiet(s, s', t) && Holds(s', t, DropDrain(0), Hand(t), p, SlotCount(0))
  {
    hide ReachedBy, SlotCount, Inv, Quiet;
    var w := ReachedInv(s, 0);
    ThreadFacts(s, w, t);
    hide OpOK;
    s' := StepOp(s, t);
    DropQuiet(s, t, 0);
    ShiftAt(s.pages, Bin(t, 0), 0, Hand(t));
    hide Shift;
    GoesOnBy(s, t, 0);
  }

  lemma Drains(s: State, t: Tid, p: Page) returns (s': State)
    requires ReachedBy(s, 0) && Holds(s, t, DropDrain(0), Hand(t), p, SlotCount(0))
    ensures ReachedBy(s', 0) && Quiet(s, s', t) && Holds(s', t, Drain(p, ToDrop(0)), Hand(t), p, SlotCount(0))
  {
    hide ReachedBy, SlotCount;
    s' := StepOp(s, t);
    SlotsQuiet(s, t, 0, p, ToDrop(0));
    GoesOnBy(s, t, 0);
  }

  /** Every slot is free, so nothing was drained. */
  lemma NothingDrained(s: State, w: Witness, t: Tid, p: Page)
    requires Inv(s, w) && t in s.threads && s.threads[t].op == Drain(p, ToDrop(0)) && p in s.slabs && FullyFree(s, p)
    ensures At(s.slots, Draining(t)) == []
  {
    hide Inv, SlotCount, Free, FullyFree;
    if At(s.slots, Draining(t)) != [] {
      SlotFacts(s, w, Draining(t), 0);
      InvSlots(s, w);
      hide Tiled, SlotsOK;
      FreeBound(s, w.slots, p);
    }
  }

  lemma Judges(s: State, t: Tid, p: Page) returns (s': State)
    requires ReachedBy(s, 0) && Holds(s, t, Drain(p, ToDrop(0)), Hand(t), p, SlotCount(0))
    ensures ReachedBy(s', 0) && Quiet(s, s', t) && s'.threads[t].pool == CacheEnter
  {
    hide ReachedBy, SlotCount, Inv;
    var w := ReachedInv(s, 0);
    NothingDrained(s, w, t, p);
    var s1 := SetOp(s, t, DropJudge(0));
    assert StepOp(s, t) == s1;
    GoesOnBy(s, t, 0);
    s' := GivesUp(s1, t, p);
  }

  lemma GivesUp(s: State, t: Tid, p: Page) returns (s': State)
    requires ReachedBy(s, 0) && Holds(s, t, DropJudge(0), Hand(t), p, SlotCount(0))
    ensures ReachedBy(s', 0) && Quiet(s, s', t) && s'.threads[t].pool == CacheEnter
  {
    hide ReachedBy, SlotCount;
    s' := StepOp(s, t);
    DropJudgeQuiet(s, t, 0);
    hide Shift;
    GoesOnBy(s, t, 0);
  }

  /** From the page allocator's answer to the door of the cache. */
  lemma ComesToCache(s: State, t: Tid) returns (s': State)
    requires ReachedBy(s, 0) && t in s.threads && s.threads[t].op == Await(0) && s.threads[t].pool == Mmap
    requires |s.pool.segs| < MAX_SEGMENTS
    ensures ReachedBy(s', 0) && t in s'.threads && s'.threads == s.threads[t := s'.threads[t]]
    ensures s'.threads[t].pool == CacheEnter && |s'.pool.segs| == |s.pool.segs| + 1
    ensures s'.cacheLen == s.cacheLen && At(s'.pages, Cached) == At(s.pages, Cached)
  {
    hide ReachedBy, Holds, SlotCount;
    var s1 := GetsSegment(s, t);
    var s2, p, id := Takes(s1, t);
    var s3 := Frees(s2, t, p, id);
    var s4 := Exits(s3, t, p);
    var s5 := Drains(s4, t, p);
    s' := Judges(s5, t, p);
  }

  // ----- all of them

  /** The threads before `j` are at the door of the cache, the others wait for a segment. */
  ghost predicate Gathered(s: State, j: nat) {
    && (forall t :: t in s.threads ==> t < CROWD)
    && (forall t: nat :: t < CROWD ==>
          t in s.threads &&
          if t < j then s.threads[t].pool.CacheEnter? else s.threads[t].op == Await(0) && s.threads[t].pool.Mmap?)
    && |s.pool.segs| == j && s.cacheLen == 0 && At(s.pages, Cached) == []
  }

  lemma {:induction false} AllGather(j: nat) returns (s: State)
    requires j <= MAX_SEGMENTS
    ensures ReachedBy(s, 0) && Gathered(s, j)
  {
    hide ReachedBy;
    if j == 0 {
      s := AllAsk(CROWD);
    } else {
      var s0 := AllGather(j - 1);
      s := ComesToCache(s0, j - 1);
    }
  }

  /** The first threads have cached their pages, those before `j` have gone on from `a` to `b`, those before `k` not. */
  ghost predicate Stage(s: State, early: nat, j: nat, k: nat, a: PoolOp, b: PoolOp) {
    && (forall t :: t in s.threads ==> t < CROWD)
    && forall t: nat :: t < CROWD ==>
         && t in s.threads
         && s.threads[t].pool == if t < early then PIdle else if t < j then b else if t < k then a else Mmap
  }

  const EARLY: nat := 511

  /** One after the other they fill the cache up to the limit less one. */
  lemma {:induction false} OneByOne(k: nat, q: nat) returns (s: State)
    requires q <= EARLY && q <= k <= MAX_SEGMENTS
    ensures ReachedBy(s, 1) && Stage(s, q, q, k, CacheEnter, CachePush)
    ensures s.cacheLen == |At(s.pages, Cached)| == q
  {
    hide ReachedBy, Counting;
    if q == 0 {
      s := AllGather(k);
      MoreAllowed(s, 0, 1);
    } else {
      var s0 := OneByOne(k, q - 1);
      NobodyThere(s0, q - 1, q - 1, k, CacheEnter, CachePush);
      var s1 := Enters(s0, q - 1, 1);
      var s2 := Pushes(s1, q - 1, 1);
      s := Counts(s2, q - 1, 1);
    }
  }

  lemma NobodyThere(s: State, early: nat, j: nat, k: nat, a: PoolOp, b: PoolOp)
    requires Stage(s, early, j, k, a, b) && (j == early || b.PIdle?) && (a.CacheEnter? || j == k)
    ensures Counting(s) == {}
  {
    forall t | t in s.threads ensures s.threads[t].pool !in {CachePush, CacheCount} { assert t < CROWD; }
  }

  lemma MoreAllowed(s: State, m: nat, m': nat)
    requires ReachedBy(s, m) && m <= m'
    ensures ReachedBy(s, m')
  {
    hide Init, Goes, Counting;
    var tr: seq<State> :| Run(tr) && tr[|tr| - 1] == s && forall i :: 0 <= i < |tr| ==> |Counting(tr[i])| <= m;
    assert forall i :: 0 <= i < |tr| ==> |Counting(tr[i])| <= m';
  }

  /** A thread finds room. */
  lemma Enters(s: State, t: Tid, m: nat) returns (s': State)
    requires ReachedBy(s, m) && t in s.threads && s.threads[t].pool == CacheEnter && Roomy(s) && |Counting(s)| < m
    ensures ReachedBy(s', m) && s' == SetPool(s, t, CachePush) && |Counting(s')| <= |Counting(s)| + 1
  {
    hide ReachedBy, Counting;
    s' := SetPool(s, t, CachePush);
    assert Next(s, t, Go) == s';
    CountingMoves(s, t, Go);
    ExtendBy(s, t, Go, m);
  }

  lemma Pushes(s: State, t: Tid, m: nat) returns (s': State)
    requires ReachedBy(s, m) && t in s.threads && s.threads[t].pool == CachePush
    ensures ReachedBy(s', m) && s'.threads == s.threads[t := s.threads[t].(pool := CacheCount)]
    ensures s'.cacheLen == s.cacheLen && |At(s'.pages, Cached)| == |At(s.pages, Cached)| + 1
  {
    hide ReachedBy, Inv;
    var w := ReachedInv(s, m);
    ThreadFacts(s, w, t);
    hide OpOK;
    s' := StepPool(s, t);
    ShiftAt(s.pages, Raw(t), 0, Cached);
    hide Shift;
    assert Next(s, t, Go) == s';
    ExtendOutside(s, t, Go, m);
  }

  lemma Counts(s: State, t: Tid, m: nat) returns (s': State)
    requires ReachedBy(s, m) && t in s.threads && s.threads[t].pool == CacheCount
    ensures ReachedBy(s', m) && s' == SetPool(s.(cacheLen := s.cacheLen + 1), t, PIdle)
  {
    hide ReachedBy;
    s' := SetPool(s.(cacheLen := s.cacheLen + 1), t, PIdle);
    assert Next(s, t, Go) == s';
    ExtendOutside(s, t, Go, m);
  }

  /** `m` threads pass the test of the length before any of them counts. */
  lemma {:induction false} AllEnter(m: nat, j: nat) returns (s: State)
    requires 1 <= m && j <= m <= MAX_SEGMENTS - EARLY
    ensures ReachedBy(s, m) && Stage(s, EARLY, EARLY + j, EARLY + m, CacheEnter, CachePush) && |Counting(s)| <= j
    ensures s.cacheLen == |At(s.pages, Cached)| == EARLY
  {
    hide ReachedBy, Counting;
    if j == 0 {
      s := OneByOne(EARLY + m, EARLY);
      NobodyThere(s, EARLY, EARLY, EARLY + m, CacheEnter, CachePush);
      MoreAllowed(s, 1, m);
    } else {
      var s0 := AllEnter(m, j - 1);
      s := Enters(s0, EARLY + j - 1, m);
    }
  }

  lemma {:induction false} AllPush(m: nat, j: nat) returns (s: State)
    requires 1 <= m && j <= m <= MAX_SEGMENTS - EARLY
    ensures ReachedBy(s, m) && Stage(s, EARLY, EARLY + j, EARLY + m, CachePush, CacheCount)
    ensures s.cacheLen == EARLY && |At(s.pages, Cached)| == EARLY + j
  {
    hide ReachedBy;
    if j == 0 {
      s := AllEnter(m, m);
    } else {
      var s0 := AllPush(m, j - 1);
      s := Pushes(s0, EARLY + j - 1, m);
    }
  }

  lemma {:induction false} AllCount(m: nat, j: nat) returns (s: State)
    requires 1 <= m && j <= m <= MAX_SEGMENTS - EARLY
    ensures ReachedBy(s, m) && Stage(s, EARLY, EARLY + j, EARLY + m, CacheCount, PIdle)
    ensures s.cacheLen == EARLY + j && |At(s.pages, Cached)| == EARLY + m
  {
    hide ReachedBy;
    if j == 0 {
      s := AllPush(m, m);
    } else {
      var s0 := AllCount(m, j - 1);
      s := Counts(s0, EARLY + j - 1, m);
    }
  }

  /**
   The bound of `CacheBounded` is attained: `m` threads between the test and the count at the same time
   leave 511 + `m` pages in the cache, when all have counted. So the limit of 512 is kept if and only if
   there are never two such threads.
   */
  lemma CacheOverfull(m: nat) returns (s: State)
    requires 1 <= m <= MAX_SEGMENTS - EARLY
    ensures ReachedBy(s, m) && Counting(s) == {}
    ensures s.cacheLen == |At(s.pages, Cached)| == SLAB_CACHE_MAX - 1 + m
  {
    hide ReachedBy, Counting;
    s := AllCount(m, m);
    NobodyThere(s, EARLY, EARLY + m, EARLY + m, CacheCount, PIdle);
  }

  /** No run with at most `m` threads there has more than 512 cached pages, if and only if `m` is at most one. */
  lemma LimitKept(m: nat)
    requires m <= MAX_SEGMENTS - EARLY
    ensures (forall s :: ReachedBy(s, m) ==> |At(s.pages, Cached)| <= SLAB_CACHE_MAX) <==> m <= 1
  {
    if m <= 1 {
      forall s | ReachedBy(s, m) ensures |At(s.pages, Cached)| <= SLAB_CACHE_MAX {
        hide Init, Goes, Counting;
        var tr: seq<State> :| Run(tr) && tr[|tr| - 1] == s && forall i :: 0 <= i < |tr| ==> |Counting(tr[i])| <= m;
        CacheBounded(tr, |tr| - 1, m);
      }
    } else {
      hide ReachedBy;
      var s := CacheOverfull(m);
    }
  }
}
