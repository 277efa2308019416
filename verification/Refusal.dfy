/**
 A run in which a segment is refused (src/pool.rs:203-218): 4097 threads find the pool empty at the
 same time, each gets a segment from the page allocator, and the last finds the table full. The count
 of mappings has risen by then, so it no longer counts segments.
 */
module Refusal {
  import opened Places
  import opened Tiling
  import opened PoolSections
  import opened PoolInvariant
  import opened SizeClasses
  import opened System
  import opened SystemInvariant
  import opened Policies

  const CROWD: nat := MAX_SEGMENTS + 1

  // ----- everybody asks at once

  /** Nothing is mapped, listed or cached. */
  predicate Blank(s: State) {
    s.pool == EMPTY && s.pages == map[] && s.maps == MapCounts(0, 0, 0)
  }

  function With(s: State, t: Tid, th: Thread): State {
    s.(threads := s.threads[t := th])
  }

  /** The thread alone moves. */
  lemma Moved(s: State, t: Tid, a: Thread, b: Thread)
    ensures b.heap == a.heap && b.pool == a.pool ==> SetOp(With(s, t, a), t, b.op) == With(s, t, b)
    ensures b.heap == a.heap && b.op == a.op ==> SetPool(With(s, t, a), t, b.pool) == With(s, t, b)
  {
    assert s.threads[t := a][t := b] == s.threads[t := b];
  }

  lemma ToScan(s: State, t: Tid, h: HeapSlot)
    requires Blank(s)
    ensures StepAlloc(With(s, t, Thread(h, Alloc(0, false), PIdle)), t, 0) == With(s, t, Thread(h, Partials(0), PIdle))
    ensures StepPartials(With(s, t, Thread(h, Partials(0), PIdle)), t, 0) == With(s, t, Thread(h, Scan(0, 0), PIdle))
    ensures StepScan(With(s, t, Thread(h, Scan(0, 0), PIdle)), t, 0, 0) == With(s, t, Thread(h, AdoptLoad(0), PIdle))
  {
    Moved(s, t, Thread(h, Alloc(0, false), PIdle), Thread(h, Partials(0), PIdle));
    Moved(s, t, Thread(h, Partials(0), PIdle), Thread(h, Scan(0, 0), PIdle));
    Moved(s, t, Thread(h, Scan(0, 0), PIdle), Thread(h, AdoptLoad(0), PIdle));
    hide SetOp, SwapRemote, SlabAlloc, MovePage;
  }

  lemma ToAwait(s: State, t: Tid, h: HeapSlot)
    requires Blank(s)
    ensures StepAdoptLoad(With(s, t, Thread(h, AdoptLoad(0), PIdle)), t, 0) == With(s, t, Thread(h, Fresh(0), PIdle))
    ensures StepFresh(With(s, t, Thread(h, Fresh(0), PIdle)), t, 0) == With(s, t, Thread(h, Await(0), AllocEnter))
  {
    Moved(s, t, Thread(h, AdoptLoad(0), PIdle), Thread(h, Fresh(0), PIdle));
    Moved(s, t, Thread(h, Fresh(0), PIdle), Thread(h, Fresh(0), AllocEnter));
    Moved(s, t, Thread(h, Fresh(0), AllocEnter), Thread(h, Await(0), AllocEnter));
    hide SetOp, SetPool, MovePage;
  }

  lemma ToMmap(s: State, t: Tid, h: HeapSlot)
    requires Blank(s)
    ensures StepAllocEnter(With(s, t, Thread(h, Await(0), AllocEnter)), t) == With(s, t, Thread(h, Await(0), Mmap))
  {
    Moved(s, t, Thread(h, Await(0), AllocEnter), Thread(h, Await(0), Mmap));
    hide SetPool;
  }

  /** A thread that goes on outside the pool, or looks into it. */
  lemma GoesOn(s: State, t: Tid, a: Thread, b: Thread)
    requires ReachedBy(With(s, t, a), 0)
    requires b.pool in {PIdle, AllocEnter, Mmap}
    requires if a.pool == PIdle then StepOp(With(s, t, a), t) == With(s, t, b)
             else a.pool == AllocEnter && StepAllocEnter(With(s, t, a), t) == With(s, t, b)
    ensures ReachedBy(With(s, t, b), 0)
  {
    hide ReachedBy, StepOp, StepAllocEnter;
    assert Next(With(s, t, a), t, Go) == With(s, t, b);
    ExtendOutside(With(s, t, a), t, Go, 0);
  }

  /** The first allocation of a thread begins. */
  lemma Starts(s0: State, t: Tid)
    requires ReachedBy(s0, 0) && t in s0.threads && s0.threads[t] == Thread(Uninit, Idle, PIdle)
    ensures var s := s0.(nextHeap := s0.nextHeap + 1);
            ReachedBy(With(s, t, Thread(Running(s0.nextHeap), Alloc(0, false), PIdle)), 0)
  {
    hide ReachedBy;
    var s, h := s0.(nextHeap := s0.nextHeap + 1), Running(s0.nextHeap);
    ExtendOutside(s0, t, NewHeap, 0);
    Moved(s, t, Thread(h, Idle, PIdle), Thread(h, Alloc(0, false), PIdle));
    ExtendOutside(With(s, t, Thread(h, Idle, PIdle)), t, StartAlloc(0), 0);
  }

  lemma Scans(s: State, t: Tid, h: HeapSlot)
    requires Blank(s) && ReachedBy(With(s, t, Thread(h, Alloc(0, false), PIdle)), 0)
    ensures ReachedBy(With(s, t, Thread(h, AdoptLoad(0), PIdle)), 0)
  {
    ToScan(s, t, h);
    hide ReachedBy, StepAlloc, StepPartials, StepScan, Blank;
    GoesOn(s, t, Thread(h, Alloc(0, false), PIdle), Thread(h, Partials(0), PIdle));
    GoesOn(s, t, Thread(h, Partials(0), PIdle), Thread(h, Scan(0, 0), PIdle));
    GoesOn(s, t, Thread(h, Scan(0, 0), PIdle), Thread(h, AdoptLoad(0), PIdle));
  }

  lemma Waits(s: State, t: Tid, h: HeapSlot)
    requires Blank(s) && ReachedBy(With(s, t, Thread(h, AdoptLoad(0), PIdle)), 0)
    ensures ReachedBy(With(s, t, Thread(h, Await(0), Mmap)), 0)
  {
    ToAwait(s, t, h);
    hide ReachedBy, StepAdoptLoad, StepFresh, Blank;
    GoesOn(s, t, Thread(h, AdoptLoad(0), PIdle), Thread(h, Fresh(0), PIdle));
    GoesOn(s, t, Thread(h, Fresh(0), PIdle), Thread(h, Await(0), AllocEnter));
    LooksIn(s, t, h);
  }

  lemma LooksIn(s: State, t: Tid, h: HeapSlot)
    requires Blank(s) && ReachedBy(With(s, t, Thread(h, Await(0), AllocEnter)), 0)
    ensures ReachedBy(With(s, t, Thread(h, Await(0), Mmap)), 0)
  {
    ToMmap(s, t, h);
    hide ReachedBy, StepAllocEnter, Blank;
    GoesOn(s, t, Thread(h, Await(0), AllocEnter), Thread(h, Await(0), Mmap));
  }

  /** One more thread waits for the page allocator. */
  lemma AsksForPages(s0: State, t: Tid)
    requires ReachedBy(s0, 0) && Blank(s0) && t in s0.threads && s0.threads[t] == Thread(Uninit, Idle, PIdle)
    ensures var s := s0.(nextHeap := s0.nextHeap + 1);
            ReachedBy(With(s, t, Thread(Running(s0.nextHeap), Await(0), Mmap)), 0)
  {
    hide ReachedBy;
    var s, h := s0.(nextHeap := s0.nextHeap + 1), Running(s0.nextHeap);
    Starts(s0, t);
    Scans(s, t, h);
    Waits(s, t, h);
  }

  function Start(): State {
    State(EMPTY, map[], 0, map[], map[], map[], {}, MapCounts(0, 0, 0),
          map t | t in Range(0, CROWD) :: Thread(Uninit, Idle, PIdle), 1, 0, 0, 0, 0)
  }

  lemma StartReached(s: State)
    requires Init(s)
    ensures ReachedBy(s, 0)
  {
    assert Counting(s) == {};
    hide Counting, Init;
    assert Run([s]) && [s][|[s]| - 1] == s;
  }

  /** The threads from `k` on have not begun; those before `k` wait for the page allocator. */
  predicate Asking(s: State, k: nat) {
    && (forall t :: t in s.threads ==> t < CROWD)
    && forall t: nat :: t < CROWD ==>
         t in s.threads &&
         if t < k then s.threads[t].op == Await(0) && s.threads[t].pool.Mmap?
         else s.threads[t] == Thread(Uninit, Idle, PIdle)
  }

  lemma {:induction false} AllAsk(k: nat) returns (s: State)
    requires k <= CROWD
    ensures ReachedBy(s, 0) && Blank(s) && s.cacheLen == 0 && Asking(s, k)
  {
    hide ReachedBy;
    if k == 0 {
      s := Start();
      forall t: nat ensures t in s.threads <==> t < CROWD { RangeMember(0, CROWD, t); }
      StartReached(s);
    } else {
      var s0 := AllAsk(k - 1);
      AsksForPages(s0, k - 1);
      s := With(s0.(nextHeap := s0.nextHeap + 1), k - 1, Thread(Running(s0.nextHeap), Await(0), Mmap));
    }
  }

  // ----- everybody gets a segment

  /** There is always room further up. */
  lemma {:induction false} RoomAbove(mapped: set<nat>) returns (base: nat)
    ensures base > 0 && forall b :: b in mapped ==> b + SLABS_PER_SEGMENT <= base
  {
    if mapped == {} {
      base := 1;
    } else {
      var b :| b in mapped;
      var rest := RoomAbove(mapped - {b});
      base := if b + SLABS_PER_SEGMENT <= rest then rest else b + SLABS_PER_SEGMENT;
      forall c | c in mapped ensures c + SLABS_PER_SEGMENT <= base { assert c == b || c in mapped - {b}; }
    }
  }

  /** The page allocator answers one thread, which then enters the pool. */
  lemma GetsSegment(s: State, t: Tid) returns (s': State)
    requires ReachedBy(s, 0) && t in s.threads && s.threads[t].pool.Mmap?
    ensures ReachedBy(s', 0) && s'.threads.Keys == s.threads.Keys
    ensures forall u :: u in s.threads && u != t ==> s'.threads[u] == s.threads[u]
    ensures if |s.pool.segs| < MAX_SEGMENTS
            then |s'.pool.segs| == |s.pool.segs| + 1 && s'.maps == s.maps.(mmaps := s.maps.mmaps + 1)
            else s'.pool == s.pool && s'.maps == s.maps.(mmaps := s.maps.mmaps + 1, refused := s.maps.refused + 1)
    ensures s'.cacheLen == s.cacheLen && At(s'.pages, Cached) == At(s.pages, Cached)
    ensures |s.pool.segs| < MAX_SEGMENTS ==> s'.threads[t] == s.threads[t].(pool := Got)
  {
    hide ReachedBy;
    var base := RoomAbove(s.mapped);
    ExtendOutside(s, t, Mapped(base), 0);
    var s1 := Next(s, t, Mapped(base));
    assert At(s1.spans, Flight(t)) == [base];
    ExtendOutside(s1, t, Go, 0);
    s' := StepRegister(s1, t);
    assert Next(s1, t, Go) == s';
    hide Range;
  }

  /** The threads from `k` on are waiting, the others have a segment each. */
  predicate Served(s: State, k: nat) {
    && |s.pool.segs| == k && s.maps == MapCounts(k, 0, 0)
    && forall t: nat :: t < CROWD ==> t in s.threads && (k <= t ==> s.threads[t].pool.Mmap?)
  }

  lemma {:induction false} AllRegister(k: nat) returns (s: State)
    requires k <= MAX_SEGMENTS
    ensures ReachedBy(s, 0) && Served(s, k)
  {
    hide ReachedBy;
    if k == 0 {
      s := AllAsk(CROWD);
    } else {
      s := AllRegister(k - 1);
      s := GetsSegment(s, k - 1);
    }
  }

  /**
   A run with 4096 registered segments, 4097 mappings counted and no unmapping: "mappings less
   unmappings are the segments" fails once a segment has been refused.
   */
  lemma RefusalHappens() returns (s: State)
    ensures Reachable(s) && |s.pool.segs| == MAX_SEGMENTS && s.maps == MapCounts(MAX_SEGMENTS + 1, 0, 1)
    ensures s.maps.mmaps - s.maps.munmaps != |s.pool.segs|
  {
    hide ReachedBy, Reachable, Inv;
    s := AllRegister(MAX_SEGMENTS);
    s := GetsSegment(s, MAX_SEGMENTS);
    var w := ReachedInv(s, 0);
  }
}
