/**
 A step of one thread leaves what the other threads hold alone. The lemmas here reduce "the whole
 invariant survives" to "it survives for the pages, slots and positions the step touches".
 */
module Frames {
  import opened Places
  import opened Tiling
  import opened PoolSections
  import opened PoolInvariant
  import opened PoolSteps
  import opened SizeClasses
  import opened SlabGeometry
  import opened System
  import opened SystemInvariant

  /** Only thread `t`, its own lists and the shared lists change. */
  ghost predicate OnlyThread(s: State, s': State, t: Tid) {
    && t in s.threads
    && s'.threads.Keys == s.threads.Keys
    && (forall u :: u in s.threads && u != t ==> s'.threads[u] == s.threads[u])
    && (forall a: PagePlace :: a.Foreign(t) ==> At(s'.pages, a) == At(s.pages, a))
    && (forall u: Tid :: u != t ==> At(s'.slots, Draining(u)) == At(s.slots, Draining(u)))
    && (forall u: Tid :: u != t ==> At(s'.slots, Pushing(u)) == At(s.slots, Pushing(u)))
    && (forall u: Tid :: u != t ==> At(s'.spans, Flight(u)) == At(s.spans, Flight(u)))
  }

  /** The lists of thread `u`, and `u` itself, are as before. */
  ghost predicate Untouched(s: State, s': State, u: Tid) {
    && u in s.threads && u in s'.threads && s'.threads[u] == s.threads[u]
    && SameQueues(s.pages, s'.pages, u)
    && At(s'.pages, Hand(u)) == At(s.pages, Hand(u))
    && At(s'.pages, Raw(u)) == At(s.pages, Raw(u))
    && At(s'.pages, Purging(u)) == At(s.pages, Purging(u))
    && At(s'.slots, Draining(u)) == At(s.slots, Draining(u))
    && At(s'.slots, Pushing(u)) == At(s.slots, Pushing(u))
    && At(s'.spans, Flight(u)) == At(s.spans, Flight(u))
  }

  /** The queues of heap `u` are as before. */
  ghost predicate SameQueues(m: Lists, m': Lists, u: Tid) {
    && (forall c :: At(m', Bin(u, c)) == At(m, Bin(u, c)))
    && (forall c :: At(m', Full(u, c)) == At(m, Full(u, c)))
    && (forall c :: At(m', Partial(u, c)) == At(m, Partial(u, c)))
  }

  lemma OpKept(s: State, s': State, u: Tid)
    requires u in s.threads && u in s'.threads && SameQueues(s.pages, s'.pages, u)
    requires s'.threads[u].op == s.threads[u].op && s'.threads[u].heap == s.threads[u].heap
    requires OpOK(s, u)
    ensures OpOK(s', u)
  {
    assert forall d: nat :: ClassEmpty(s.pages, u, d) ==> ClassEmpty(s'.pages, u, d);
    hide ClassEmpty;
    match s.threads[u].op
    case Drain(p, next) => {
      match next {
        case ToRetry(c) =>
        case ToScan(c, k) =>
        case ToAdopt(c, got) =>
        case ToDrop(c) =>
      }
    }
    case _ =>
  }

  lemma OtherThread(s: State, s': State, t: Tid, u: Tid)
    requires OnlyThread(s, s', t) && u in s.threads && u != t && ThreadOK(s, u)
    ensures ThreadOK(s', u)
  {
    hide OpOK, HoldsOK;
    assert Untouched(s, s', u);
    OpKept(s, s', u);
    assert HoldsOK(s', u) by { UntouchedHolds(s, s', u); }
  }

  lemma UntouchedHolds(s: State, s': State, u: Tid)
    requires Untouched(s, s', u) && HoldsOK(s, u)
    ensures HoldsOK(s', u)
  {
  }

  lemma OtherThreads(s: State, s': State, t: Tid)
    requires OnlyThread(s, s', t) && ThreadsOK(s) && ThreadOK(s', t)
    ensures ThreadsOK(s')
  {
    hide ThreadOK;
    forall u | u in s'.threads ensures ThreadOK(s', u) {
      if u != t { OtherThread(s, s', t, u); }
    }
  }

  // ----- pages

  /** Outside `ps`, headers and free counts are as before. */
  ghost predicate SlabsSame(s: State, s': State, ps: set<Page>) {
    forall q: Page {:trigger q in s'.slabs} {:trigger Free(s', q)} :: q !in ps ==>
      && (q in s'.slabs <==> q in s.slabs)
      && (q in s.slabs ==> s'.slabs[q] == s.slabs[q])
      && Free(s', q) == Free(s, q)
  }

  /** Outside `ks`, places are as before. */
  ghost predicate PlacesSame<K(!new), P>(w: map<K, P>, w': map<K, P>, ks: set<K>) {
    forall k :: k !in ks ==> (k in w' <==> k in w) && (k in w ==> w'[k] == w[k])
  }

  /** The new position of thread `t` keeps the promise made by the place of its page `q`. */
  ghost predicate OpFits(s: State, s': State, t: Tid, q: Page, a: PagePlace)
    requires t in s.threads && t in s'.threads
  {
    var op := s'.threads[t].op;
    match a
    case Bin(_, c) => Ready(op, c) ==> Free(s', q) > 0
    case Full(_, c) => UnderScan(s, t, c, q) ==> Free(s', q) == 0 || UnderScan(s', t, c, q)
    case Hand(_) =>
      && (q in s'.slabs ==> Discarding(op) || Adopting(op, s'.slabs[q].sizeClass))
      && (Claimed(s', t, q) ==> Claimed(s, t, q))
    case _ => true
  }

  lemma PageKept(s: State, s': State, t: Tid, q: Page, a: PagePlace)
    requires OnlyThread(s, s', t) && PlaceOK(s, q, a)
    requires s'.threads[t].heap == s.threads[t].heap
    requires (q in s'.slabs) == (q in s.slabs)
    requires q in s.slabs ==> s'.slabs[q] == s.slabs[q] && Free(s', q) == Free(s, q)
    requires a.Mine(t) ==> OpFits(s, s', t, q, a)
    ensures PlaceOK(s', q, a)
  {
    match a
    case Full(u, c) =>
      if u != t { assert At(s'.pages, Full(u, c)) == At(s.pages, Full(u, c)); }
    case Hand(u) =>
      if u != t { assert At(s'.pages, Hand(u)) == At(s.pages, Hand(u)); }
    case _ =>
  }

  lemma PagesStep(s: State, s': State, w: map<Page, PagePlace>, w': map<Page, PagePlace>, t: Tid, ps: set<Page>)
    requires PagesOK(s, w) && OnlyThread(s, s', t)
    requires s'.threads[t].heap == s.threads[t].heap
    requires SlabsSame(s, s', ps) && PlacesSame(w, w', ps)
    requires forall q :: q in w && q !in ps && w[q].Mine(t) ==> OpFits(s, s', t, q, w[q])
    requires forall q :: q in ps && q in w' ==> PlaceOK(s', q, w'[q])
    requires forall q :: q in ps && q in s'.slabs ==> q in w'
    ensures PagesOK(s', w')
  {
    hide PlaceOK, OpFits, OnlyThread, Free;
    forall q | q in w' ensures PlaceOK(s', q, w'[q]) {
      if q !in ps {
        assert q in s'.slabs <==> q in s.slabs;
        PageKept(s, s', t, q, w[q]);
      }
    }
    forall q | q in s'.slabs ensures q in w' {
    }
  }

  // ----- slots

  lemma SlotsStep(s: State, s': State, w: map<Slot, SlotPlace>, w': map<Slot, SlotPlace>, t: Tid, xs: set<Slot>)
    requires SlotsOK(s, w) && OnlyThread(s, s', t) && s'.nextId >= s.nextId
    requires s'.slabs.Keys == s.slabs.Keys
    requires forall p :: p in s.slabs ==> s'.slabs[p].sizeClass == s.slabs[p].sizeClass
    requires PlacesSame(w, w', xs) && w'.Keys == w.Keys
    requires forall x :: x in w && x !in xs && w[x] == Draining(t) ==>
               s.threads[t].op.Drain? && s'.threads[t].op.Drain? && s'.threads[t].op.p == s.threads[t].op.p
    requires forall x :: x in xs && x in w ==> SlotOK(s', x, w'[x])
    requires forall id :: |At(s'.slots, Live(id))| <= 1
    ensures SlotsOK(s', w')
  {
    forall x | x in w' ensures SlotOK(s', x, w'[x]) {
      assert SlotOK(s, x, w[x]);
    }
  }

  // ----- ownership

  lemma OwnersStep(s: State, s': State, w: map<Page, PagePlace>, w': map<Page, PagePlace>, t: Tid, ps: set<Page>)
    requires OwnersOK(s, w) && OnlyThread(s, s', t) && PagesOK(s, w)
    requires s'.threads[t].heap == s.threads[t].heap
    requires Active(s'.threads[t]) ==> Active(s.threads[t])
    requires forall q :: q in s'.slabs && q in s.slabs ==> s'.slabs[q].heapId == s.slabs[q].heapId
    requires forall q :: q in s'.slabs ==> q in s.slabs
    requires PlacesSame(w, w', ps)
    requires forall q :: q in ps && q in w ==> !w[q].Foreign(t)
    requires Active(s'.threads[t]) ==>
               forall q :: (q in s'.slabs && q in w && q in w' && OwnedBy(s, t, q, w[q]) && (q in ps || w[q].Hand?))
                           ==> OwnedBy(s', t, q, w'[q])
    ensures OwnersOK(s', w')
  {
    forall u, q | u in s'.threads && Active(s'.threads[u]) && q in s'.slabs && q in w'
                  && s'.slabs[q].heapId == s'.threads[u].heap.id
      ensures OwnedBy(s', u, q, w'[q])
    {
      assert q in w && OwnedBy(s, u, q, w[q]);
      if u != t && w[q].Hand? { assert At(s'.pages, Hand(u)) == At(s.pages, Hand(u)); }
    }
  }

  // ----- assembly

  /** The part of the invariant that does not look at the threads' positions. */
  /** A step that only moves thread `t` to a new position. */
  lemma Control(s: State, s': State, w: Witness, t: Tid)
    requires Inv(s, w) && t in s.threads && t in s'.threads
    requires s' == s.(threads := s.threads[t := s'.threads[t]], cacheLen := s'.cacheLen, maps := s'.maps)
    requires s'.threads[t].heap == s.threads[t].heap
    requires ThreadOK(s', t)
    requires At(s.slots, Draining(t)) == [] ||
             (s.threads[t].op.Drain? && s'.threads[t].op.Drain? && s'.threads[t].op.p == s.threads[t].op.p)
    requires forall q :: q in w.pages && w.pages[q].Mine(t) ==> OpFits(s, s', t, q, w.pages[q])
    requires Active(s'.threads[t]) ==> Active(s.threads[t])
    requires Active(s'.threads[t]) && Claiming(s.threads[t].op) ==> Claiming(s'.threads[t].op)
    ensures Inv(s', w)
  {
    hide PoolInv, Tiled, ThreadOK, OpFits, PlaceOK, SlotOK, Apart, PageLists;
    assert OnlyThread(s, s', t);
    PagesStep(s, s', w.pages, w.pages, t, {});
    if At(s.slots, Draining(t)) == [] { NobodyAt(s.slots, w.slots, Draining(t)); }
    SlotsStep(s, s', w.slots, w.slots, t, {});
    OwnersStep(s, s', w.pages, w.pages, t, {});
    OtherThreads(s, s', t);
  }
}
