/**
 The free lists of the whole allocator as they are in memory (src/slab.rs:76-169, 381-449).

 Every slab has a remote head, a local head and a length; every thread has the cursor of the chain
 it is draining and the head it has seen while pushing; links are words of the slots themselves. A
 step of the interleaving machine does to this memory what the code does, and pushers take their
 load, link write and compare-exchange separately. Slabs are initialised, abandoned, adopted,
 recycled and given up meanwhile; in every run memory stands for the lists of the machine.
 */
module WholeMemory {
  import opened Places
  import opened Tiling
  import opened Chains
  import opened PoolSections
  import opened SizeClasses
  import opened SlabGeometry
  import opened System
  import opened SystemInvariant
  import opened Frames
  import opened ControlSteps
  import opened SlotSteps
  import opened SlabSteps
  import opened LifeSteps
  import opened Safety

  type Link = Option<Slot>
  type Slots = map<SlotPlace, seq<Slot>>

  /** How far a pusher is: it has loaded the head, or has written it into its slot too. */
  datatype Seen = Loaded(head: Link) | Linked(head: Link)

  datatype Memory = Memory(
    link: map<Slot, Link>,
    head: map<Page, Link>,
    local: map<Page, Link>, len: map<Page, nat>,
    cursor: map<Tid, Link>,
    seen: map<Tid, Seen>)

  /** A pointer that was never written reads as null. */
  function Word<K(==)>(m: map<K, Link>, k: K): Link {
    if k in m then m[k] else None
  }

  function Len(g: Memory, p: Page): nat {
    if p in g.len then g.len[p] else 0
  }

  // ----- what a step does with slots

  /** What one step does: nothing, or one move; `id` is the allocation freed. */
  datatype Kind =
    | Quiet
    | Take(p: Page)                   // `SlotFreeList::pop`
    | Bump(p: Page)
    | Birth(p: Page, c: nat)          // `Slab::init`, then bump
    | Swap(p: Page)                   // `swap_drain`
    | Walk(p: Page)                   // one turn of the drain loop
    | Put(x: Slot, id: nat)           // `dealloc_local`
    | Load(x: Slot, id: nat)          // `push` begins: the head is read
    | Cas(x: Slot)                    // `push` succeeds

  function TakeKind(s: State, p: Page): Kind {
    if At(s.slots, Local(p)) != [] then Take(p) else if At(s.slots, Virgin(p)) != [] then Bump(p) else Quiet
  }

  function SwapFirst(q: seq<Page>, k: nat): Kind {
    if k < |q| then Swap(q[k]) else Quiet
  }

  function OpKind(s: State, t: Tid): Kind
    requires t in s.threads
  {
    match s.threads[t].op
    case Alloc(c, _) =>
      var bin := At(s.pages, Bin(t, c));
      if bin == [] then Quiet else if Free(s, bin[0]) > 0 then TakeKind(s, bin[0]) else Swap(bin[0])
    case Retry(c) =>
      var bin := At(s.pages, Bin(t, c));
      if bin == [] then Quiet else TakeKind(s, bin[0])
    case ScanSwap(c, k) => SwapFirst(At(s.pages, Full(t, c)), k)
    case AdoptDrain(_, _) => SwapFirst(At(s.pages, Hand(t)), 0)
    case DropDrain(_) => SwapFirst(At(s.pages, Hand(t)), 0)
    case AdoptJudge(c, got) =>
      var chain := At(s.pages, Hand(t));
      if chain == [] || got || chain[0] !in s.slabs || FullyFree(s, chain[0]) then Quiet else TakeKind(s, chain[0])
    case Await(c) =>
      var raw := At(s.pages, Raw(t));
      if raw == [] || !s.threads[t].pool.Got? then Quiet else Birth(raw[0], c)
    case Drain(p, _) => if At(s.slots, Draining(t)) == [] then Quiet else Walk(p)
    case Push => if At(s.slots, Pushing(t)) == [] then Quiet else Cas(At(s.slots, Pushing(t))[0])
    case _ => Quiet
  }

  function KindOf(s: State, t: Tid, e: Event): Kind
    requires t in s.threads
  {
    match e
    case Go => if InPool(s.threads[t]) then Quiet else OpKind(s, t)
    case StartFree(id) =>
      if At(s.slots, Live(id)) == [] then Quiet
      else
        var x := At(s.slots, Live(id))[0];
        if x.page !in s.slabs then Quiet
        else if s.threads[t].heap.Running? &&
                (At(s.pages, Bin(t, s.slabs[x.page].sizeClass)) == [x.page] ||
                    s.slabs[x.page].heapId == s.threads[t].heap.id)
        then Put(x, id)
        else Load(x, id)
    case _ => Quiet
  }

  /** The slabs' lists with a new slab's slots in its bump region. */
  function WithVirgin(s: State, p: Page, c: nat): Slots {
    s.slots[Virgin(p) := AllSlots(p, c)]
  }

  /** There is something to move. */
  predicate Can(s: State, t: Tid, k: Kind) {
    match k
    case Quiet => true
    case Take(p) => At(s.slots, Local(p)) != []
    case Bump(p) => At(s.slots, Virgin(p)) != []
    case Birth(p, c) => At(WithVirgin(s, p, c), Virgin(p)) != []
    case Swap(p) => true
    case Walk(p) => At(s.slots, Draining(t)) != []
    case Put(x, id) => At(s.slots, Live(id)) != [] && At(s.slots, Live(id))[0] == x
    case Load(x, id) => At(s.slots, Live(id)) != [] && At(s.slots, Live(id))[0] == x
    case Cas(x) => At(s.slots, Pushing(t)) != [] && At(s.slots, Pushing(t))[0] == x
  }

  /** The lists once the move is made. */
  function After(s: State, t: Tid, k: Kind): Slots
    requires Can(s, t, k)
  {
    match k
    case Quiet => s.slots
    case Take(p) => Shift(s.slots, Local(p), 0, Live(s.nextId))
    case Bump(p) => Shift(s.slots, Virgin(p), 0, Live(s.nextId))
    case Birth(p, c) => Shift(WithVirgin(s, p, c), Virgin(p), 0, Live(s.nextId))
    case Swap(p) => Pour(s.slots, Remote(p), Draining(t))
    case Walk(p) => Shift(s.slots, Draining(t), 0, Local(p))
    case Put(x, id) => Shift(s.slots, Live(id), 0, Local(x.page))
    case Load(x, id) => Shift(s.slots, Live(id), 0, Pushing(t))
    case Cas(x) => Shift(s.slots, Pushing(t), 0, Remote(x.page))
  }

  /** The slab the move initialises, if any. */
  function Born(k: Kind): set<Page> {
    if k.Birth? then {k.p} else {}
  }

  /** The slabs a step gives up. */
  function Gone(s: State, s': State, k: Kind): set<Page> {
    s.slabs.Keys + Born(k) - s'.slabs.Keys
  }

  /** Step `s` to `s'` makes the move `k`; of a slab it gives up, the local list and the bump region go too. */
  ghost predicate Makes(s: State, s': State, t: Tid, k: Kind) {
    && Can(s, t, k) && s'.slabs.Keys <= s.slabs.Keys + Born(k)
    && (forall a: SlotPlace :: (a.Local? || a.Virgin? ==> a.p !in Gone(s, s', k)) ==>
        At(s'.slots, a) == At(After(s, t, k), a))
  }

  /** What the code does to memory for the move. */
  function MemoryNext(g: Memory, t: Tid, k: Kind): Memory {
    match k
    case Quiet => g
    case Bump(_) => g
    case Take(p) =>
      var x := Word(g.local, p);
      if x.None? then g
      else g.(local := g.local[p := Word(g.link, x.value)],
          len := g.len[p := if Len(g, p) > 0 then Len(g, p) - 1 else 0])
    case Birth(p, _) => g.(head := g.head[p := None], local := g.local[p := None], len := g.len[p := 0])
    case Swap(p) => g.(cursor := g.cursor[t := Word(g.head, p)], head := g.head[p := None])
    case Walk(p) =>
      var x := Word(g.cursor, t);
      if x.None? then g
      else Pushed(g.(cursor := g.cursor[t := Word(g.link, x.value)]), x.value, p)
    case Put(x, _) => Pushed(g, x, x.page)
    case Load(x, _) => g.(seen := g.seen[t := Loaded(Word(g.head, x.page))])
    case Cas(x) => g.(head := g.head[x.page := Some(x)], seen := g.seen - {t})
  }

  /** `SlotFreeList::push`. */
  function Pushed(g: Memory, x: Slot, p: Page): Memory {
    g.(link := g.link[x := Word(g.local, p)], local := g.local[p := Some(x)], len := g.len[p := Len(g, p) + 1])
  }

  // ----- what memory stands for

  /** Every linked list of every slab in `ps` and every thread is in memory as `m` has it. */
  ghost predicate Holds(g: Memory, m: Slots, ps: set<Page>) {
    && (forall p :: p in ps ==> SlabHolds(g, m, p))
    && (forall t: Tid :: CursorHolds(g, m, t))
  }

  ghost predicate SlabHolds(g: Memory, m: Slots, p: Page) {
    && Chain(g.link, Word(g.head, p), At(m, Remote(p)))
    && Chain(g.link, Word(g.local, p), At(m, Local(p))) && Len(g, p) == |At(m, Local(p))|
  }

  ghost predicate CursorHolds(g: Memory, m: Slots, t: Tid) {
    Chain(g.link, Word(g.cursor, t), At(m, Draining(t)))
  }

  lemma SlabFrame(g: Memory, g': Memory, m: Slots, m': Slots, ps: set<Page>)
    requires forall p :: p in ps ==> SlabHolds(g, m, p)
    requires g'.link == g.link
    requires forall p :: p in ps ==>
                Word(g'.head, p) == Word(g.head, p) && Word(g'.local, p) == Word(g.local, p) &&
                Len(g', p) == Len(g, p)
    requires forall p :: p in ps ==> At(m', Remote(p)) == At(m, Remote(p)) && At(m', Local(p)) == At(m, Local(p))
    ensures forall p :: p in ps ==> SlabHolds(g', m', p)
  {
    hide Chain, At, Word, Len;
  }

  lemma OneFrame(g: Memory, g': Memory, m: Slots, m': Slots, p: Page)
    requires SlabHolds(g, m, p) && g'.link == g.link
    requires Word(g'.head, p) == Word(g.head, p) && Word(g'.local, p) == Word(g.local, p) && Len(g', p) == Len(g, p)
    requires At(m', Remote(p)) == At(m, Remote(p)) && At(m', Local(p)) == At(m, Local(p))
    ensures SlabHolds(g', m', p)
  {
    hide Chain, At, Word, Len;
  }

  lemma CursorFrame(g: Memory, g': Memory, m: Slots, m': Slots, t: Tid)
    requires CursorHolds(g, m, t) && g'.link == g.link && Word(g'.cursor, t) == Word(g.cursor, t)
    requires At(m', Draining(t)) == At(m, Draining(t))
    ensures CursorHolds(g', m', t)
  {
    hide Chain, At, Word;
  }

  /** A thread inside a push knows its slot, and a finished link write is still there. */
  ghost predicate Pushers(g: Memory, s: State, m: Slots) {
    forall t :: t in s.threads && s.threads[t].op.Push? ==>
      && t in g.seen && At(m, Pushing(t)) != []
      && (g.seen[t].Linked? ==> At(m, Pushing(t))[0] in g.link && g.link[At(m, Pushing(t))[0]] == g.seen[t].head)
  }

  /** Memory `g` stands for the lists of `s`. */
  ghost predicate StandsFor(g: Memory, s: State) {
    Holds(g, s.slots, s.slabs.Keys) && Pushers(g, s, s.slots)
  }

  // ----- frames

  lemma Apart(m: Slots, w: map<Slot, SlotPlace>, a: SlotPlace, b: SlotPlace, x: Slot)
    requires Tiled(m, w) && x in At(m, a) && a != b
    ensures x !in At(m, b)
  {
  }

  /** A write to the link of a slot that is on no linked list. */
  lemma WriteOutside(g: Memory, m: Slots, w: map<Slot, SlotPlace>, ps: set<Page>, a: SlotPlace, x: Slot, v: Link)
    requires Tiled(m, w) && Holds(g, m, ps) && x in At(m, a) && !a.Local? && !a.Remote? && !a.Draining?
    ensures Holds(g.(link := g.link[x := v]), m, ps)
  {
    var g' := g.(link := g.link[x := v]);
    forall p | p in ps ensures SlabHolds(g', m, p) {
      assert SlabHolds(g, m, p);
      Apart(m, w, a, Remote(p), x);
      ChainFrame(g.link, Word(g.head, p), At(m, Remote(p)), x, v);
      Apart(m, w, a, Local(p), x);
      ChainFrame(g.link, Word(g.local, p), At(m, Local(p)), x, v);
    }
    forall t: Tid ensures CursorHolds(g', m, t) {
      assert CursorHolds(g, m, t);
      Apart(m, w, a, Draining(t), x);
      ChainFrame(g.link, Word(g.cursor, t), At(m, Draining(t)), x, v);
    }
  }

  // One chain at a time.

  lemma Tail(link: map<Slot, Link>, h: Link, q: seq<Slot>)
    requires Chain(link, h, q) && q != []
    ensures h == Some(q[0]) && q[0] in link && Chain(link, Word(link, q[0]), q[1..]) && Without(q, 0) == q[1..]
  {
  }

  lemma Cons(link: map<Slot, Link>, x: Slot, q: seq<Slot>)
    requires x in link && Chain(link, link[x], q)
    ensures Chain(link, Some(x), [x] + q)
  {
    assert ([x] + q)[1..] == q;
  }

  lemma Nil(link: map<Slot, Link>)
    ensures Chain(link, None, [])
  {
  }

  lemma TakeHolds(g: Memory, s: State, t: Tid, p: Page)
    requires Holds(g, s.slots, s.slabs.Keys) && p in s.slabs && Can(s, t, Take(p))
    ensures Holds(MemoryNext(g, t, Take(p)), After(s, t, Take(p)), s.slabs.Keys)
    ensures Word(g.local, p) == Some(At(s.slots, Local(p))[0])
  {
    var g', m' := MemoryNext(g, t, Take(p)), After(s, t, Take(p));
    assert SlabHolds(g, s.slots, p);
    Tail(g.link, Word(g.local, p), At(s.slots, Local(p)));
    ShiftAt(s.slots, Local(p), 0, Live(s.nextId));
    hide Shift, Chain, Without, At;
    SlabFrame(g, g', s.slots, m', s.slabs.Keys - {p});
    forall u: Tid ensures CursorHolds(g', m', u) { CursorFrame(g, g', s.slots, m', u); }
    assert SlabHolds(g', m', p);
    hide SlabHolds, CursorHolds;
  }

  lemma BumpHolds(g: Memory, s: State, t: Tid, p: Page)
    requires Holds(g, s.slots, s.slabs.Keys) && Can(s, t, Bump(p))
    ensures Holds(MemoryNext(g, t, Bump(p)), After(s, t, Bump(p)), s.slabs.Keys)
  {
    var g', m' := MemoryNext(g, t, Bump(p)), After(s, t, Bump(p));
    ShiftAt(s.slots, Virgin(p), 0, Live(s.nextId));
    hide Shift, Chain, At;
    SlabFrame(g, g', s.slots, m', s.slabs.Keys);
    forall u: Tid ensures CursorHolds(g', m', u) { CursorFrame(g, g', s.slots, m', u); }
  }

  lemma BirthLists(s: State, t: Tid, p: Page, c: nat)
    requires Can(s, t, Birth(p, c))
    ensures forall a: SlotPlace :: !a.Virgin? && !a.Live? ==> At(After(s, t, Birth(p, c)), a) == At(s.slots, a)
  {
    var m0 := WithVirgin(s, p, c);
    assert forall a: SlotPlace :: a != Virgin(p) ==> At(m0, a) == At(s.slots, a);
    ShiftAt(m0, Virgin(p), 0, Live(s.nextId));
    hide Shift, Inited;
  }

  lemma BirthHolds(g: Memory, s: State, t: Tid, p: Page, c: nat)
    requires Holds(g, s.slots, s.slabs.Keys) && Can(s, t, Birth(p, c))
    requires At(s.slots, Local(p)) == [] && At(s.slots, Remote(p)) == []
    ensures Holds(MemoryNext(g, t, Birth(p, c)), After(s, t, Birth(p, c)), s.slabs.Keys + {p})
  {
    var g', m' := MemoryNext(g, t, Birth(p, c)), After(s, t, Birth(p, c));
    BirthLists(s, t, p, c);
    BirthOne(g, s, t, p, c);
    hide After, Chain, At, Can, SlabHolds, CursorHolds;
    forall q | q in s.slabs && q != p ensures SlabHolds(g', m', q) { OneFrame(g, g', s.slots, m', q); }
    forall u: Tid ensures CursorHolds(g', m', u) { CursorFrame(g, g', s.slots, m', u); }
    hide MemoryNext;
  }

  lemma BirthOne(g: Memory, s: State, t: Tid, p: Page, c: nat)
    requires Can(s, t, Birth(p, c)) && At(s.slots, Local(p)) == [] && At(s.slots, Remote(p)) == []
    ensures SlabHolds(MemoryNext(g, t, Birth(p, c)), After(s, t, Birth(p, c)), p)
  {
    Nil(g.link);
    BirthLists(s, t, p, c);
    hide After, Chain, At, Can;
  }

  lemma SwapLists(m: Slots, p: Page, t: Tid)
    ensures var m' := Pour(m, Remote(p), Draining(t));
            && At(m', Remote(p)) == [] && At(m', Draining(t)) == At(m, Remote(p))
            && forall a: SlotPlace :: a != Remote(p) && a != Draining(t) ==> At(m', a) == At(m, a)
  {
  }

  lemma SwapHolds(g: Memory, s: State, t: Tid, p: Page)
    requires Holds(g, s.slots, s.slabs.Keys) && p in s.slabs
    ensures Holds(MemoryNext(g, t, Swap(p)), After(s, t, Swap(p)), s.slabs.Keys)
  {
    SwapOne(g, s, t, p);
    SwapLists(s.slots, p, t);
    hide Pour;
    SwapRest(g, MemoryNext(g, t, Swap(p)), s.slots, After(s, t, Swap(p)), s.slabs.Keys, p, t);
  }

  /** What a swap does not touch. */
  lemma SwapRest(g: Memory, g': Memory, m: Slots, m': Slots, ps: set<Page>, p: Page, t: Tid)
    requires Holds(g, m, ps) && SlabHolds(g', m', p) && CursorHolds(g', m', t)
    requires g' == g.(cursor := g.cursor[t := Word(g.head, p)], head := g.head[p := None])
    requires forall a: SlotPlace :: a != Remote(p) && a != Draining(t) ==> At(m', a) == At(m, a)
    ensures Holds(g', m', ps)
  {
    hide At, SlabHolds, CursorHolds;
    forall q | q in ps && q != p ensures SlabHolds(g', m', q) { OneFrame(g, g', m, m', q); }
    forall u: Tid | u != t ensures CursorHolds(g', m', u) { CursorFrame(g, g', m, m', u); }
  }

  /** The chain changes hands: from the slab's remote head to the thread's cursor. */
  lemma SwapOne(g: Memory, s: State, t: Tid, p: Page)
    requires SlabHolds(g, s.slots, p)
    ensures SlabHolds(MemoryNext(g, t, Swap(p)), After(s, t, Swap(p)), p)
    ensures CursorHolds(MemoryNext(g, t, Swap(p)), After(s, t, Swap(p)), t)
  {
    Nil(g.link);
    SwapLists(s.slots, p, t);
    hide Pour, Chain, At;
  }

  lemma LoadHolds(g: Memory, s: State, t: Tid, x: Slot, id: nat)
    requires Holds(g, s.slots, s.slabs.Keys) && Can(s, t, Load(x, id))
    ensures Holds(MemoryNext(g, t, Load(x, id)), After(s, t, Load(x, id)), s.slabs.Keys)
  {
    var g', m' := MemoryNext(g, t, Load(x, id)), After(s, t, Load(x, id));
    ShiftAt(s.slots, Live(id), 0, Pushing(t));
    hide Shift, Chain, At;
    SlabFrame(g, g', s.slots, m', s.slabs.Keys);
    forall u: Tid ensures CursorHolds(g', m', u) { CursorFrame(g, g', s.slots, m', u); }
  }

  /** The compare-exchange: the link written earlier is the current head. */
  lemma CasHolds(g: Memory, s: State, t: Tid, x: Slot)
    requires Holds(g, s.slots, s.slabs.Keys) && Can(s, t, Cas(x)) && x.page in s.slabs
    requires x in g.link && g.link[x] == Word(g.head, x.page)
    ensures Holds(MemoryNext(g, t, Cas(x)), After(s, t, Cas(x)), s.slabs.Keys)
  {
    var g', m' := MemoryNext(g, t, Cas(x)), After(s, t, Cas(x));
    assert SlabHolds(g, s.slots, x.page);
    Cons(g.link, x, At(s.slots, Remote(x.page)));
    ShiftAt(s.slots, Pushing(t), 0, Remote(x.page));
    hide Shift, Chain, At;
    SlabFrame(g, g', s.slots, m', s.slabs.Keys - {x.page});
    forall u: Tid ensures CursorHolds(g', m', u) { CursorFrame(g, g', s.slots, m', u); }
    assert SlabHolds(g', m', x.page);
    hide SlabHolds, CursorHolds;
  }

  /** Pushing a slot that is on no list, once its old list has let go of it. */
  lemma PushedHolds(g: Memory, m: Slots, ps: set<Page>, x: Slot, p: Page, m': Slots)
    requires Holds(g.(link := g.link[x := Word(g.local, p)]), m, ps) && p in ps
    requires At(m', Local(p)) == [x] + At(m, Local(p))
    requires forall a: SlotPlace :: (a.Local? || a.Remote? || a.Draining?) && a != Local(p) ==> At(m', a) == At(m, a)
    ensures Holds(Pushed(g, x, p), m', ps)
  {
    var g0, g' := g.(link := g.link[x := Word(g.local, p)]), Pushed(g, x, p);
    assert SlabHolds(g0, m, p);
    Cons(g0.link, x, At(m, Local(p)));
    hide Chain, At;
    SlabFrame(g0, g', m, m', ps - {p});
    forall u: Tid ensures CursorHolds(g', m', u) { CursorFrame(g0, g', m, m', u); }
    assert SlabHolds(g', m', p);
    hide SlabHolds, CursorHolds;
  }

  lemma PutHolds(g: Memory, s: State, w: map<Slot, SlotPlace>, t: Tid, x: Slot, id: nat)
    requires Holds(g, s.slots, s.slabs.Keys) && Tiled(s.slots, w) && Can(s, t, Put(x, id)) && x.page in s.slabs
    ensures Holds(MemoryNext(g, t, Put(x, id)), After(s, t, Put(x, id)), s.slabs.Keys)
  {
    hide Tiled, Holds, Pushed;
    WriteOutside(g, s.slots, w, s.slabs.Keys, Live(id), x, Word(g.local, x.page));
    ShiftAt(s.slots, Live(id), 0, Local(x.page));
    hide Shift, Word;
    PushedHolds(g, s.slots, s.slabs.Keys, x, x.page, After(s, t, Put(x, id)));
  }

  /** The head of a chain being drained is cut off; a write to its link then disturbs nothing. */
  lemma CutHolds(g: Memory, m: Slots, w: map<Slot, SlotPlace>, ps: set<Page>, t: Tid, v: Link)
    requires Holds(g, m, ps) && Tiled(m, w) && At(m, Draining(t)) != []
    ensures var d := At(m, Draining(t));
            && Word(g.cursor, t) == Some(d[0])
            && Holds(g.(link := g.link[d[0] := v], cursor := g.cursor[t := Word(g.link, d[0])]),
               m[Draining(t) := d[1..]], ps)
  {
    var d := At(m, Draining(t));
    var x := d[0];
    var link, m' := g.link[x := v], m[Draining(t) := d[1..]];
    assert x in d && NoDup(d);
    var g' := g.(link := link, cursor := g.cursor[t := Word(g.link, x)]);
    forall p | p in ps ensures SlabHolds(g', m', p) {
      assert SlabHolds(g, m, p);
      Apart(m, w, Draining(t), Remote(p), x);
      ChainFrame(g.link, Word(g.head, p), At(m, Remote(p)), x, v);
      Apart(m, w, Draining(t), Local(p), x);
      ChainFrame(g.link, Word(g.local, p), At(m, Local(p)), x, v);
    }
    assert CursorHolds(g, m, t);
    Tail(g.link, Word(g.cursor, t), d);
    ChainFrame(g.link, Word(g.link, x), d[1..], x, v);
    assert CursorHolds(g', m', t);
    forall u: Tid | u != t ensures CursorHolds(g', m', u) {
      assert CursorHolds(g, m, u);
      Apart(m, w, Draining(t), Draining(u), x);
      ChainFrame(g.link, Word(g.cursor, u), At(m, Draining(u)), x, v);
    }
    hide Chain, Tiled;
  }

  lemma WalkHolds(g: Memory, s: State, w: map<Slot, SlotPlace>, t: Tid, p: Page)
    requires Holds(g, s.slots, s.slabs.Keys) && Tiled(s.slots, w) && Can(s, t, Walk(p)) && p in s.slabs
    ensures Word(g.cursor, t) == Some(At(s.slots, Draining(t))[0])
    ensures Holds(MemoryNext(g, t, Walk(p)), After(s, t, Walk(p)), s.slabs.Keys)
  {
    hide Tiled, Holds, Pushed, Chain;
    var d := At(s.slots, Draining(t));
    CutHolds(g, s.slots, w, s.slabs.Keys, t, Word(g.local, p));
    ShiftAt(s.slots, Draining(t), 0, Local(p));
    hide Shift, Word;
    assert Without(d, 0) == d[1..];
    var g1 := g.(cursor := g.cursor[t := Word(g.link, d[0])]);
    PushedHolds(g1, s.slots[Draining(t) := d[1..]], s.slabs.Keys, d[0], p, After(s, t, Walk(p)));
  }

  // ----- the machine makes these moves

  /** The pages a move speaks of are slabs, or not yet. */
  ghost predicate Fits(s: State, t: Tid, k: Kind) {
    && Can(s, t, k)
    && match k
       case Quiet => true
       case Take(p) => p in s.slabs
       case Bump(p) => p in s.slabs
       case Birth(p, _) => p !in s.slabs && At(s.slots, Local(p)) == [] && At(s.slots, Remote(p)) == []
       case Swap(p) => p in s.slabs && At(s.slots, Draining(t)) == []
       case Walk(p) => p in s.slabs
       case Put(x, _) => x.page in s.slabs
       case Load(x, _) => x.page in s.slabs
       case Cas(x) => x.page in s.slabs
  }

  /** The thread alone moves, and it is inside a push only if it has just entered it. */
  ghost predicate Steps(s: State, s': State, t: Tid, k: Kind) {
    && t in s.threads && t in s'.threads && s'.threads == s.threads[t := s'.threads[t]]
    && (s'.threads[t].op.Push? ==> k.Load? || s'.threads[t].op == s.threads[t].op)
    && (k.Cas? ==> !s'.threads[t].op.Push?)
  }

  lemma BinFits(s: State, w: Witness, t: Tid, c: nat)
    requires Inv(s, w) && t in s.threads && At(s.pages, Bin(t, c)) != []
    ensures At(s.pages, Bin(t, c))[0] in s.slabs
  {
    hide Inv, Free;
    PageAt(s, w, Bin(t, c), 0);
  }

  /** Step `s` to `s'` of thread `t` is the move `k`. */
  ghost predicate Is(s: State, s': State, t: Tid, k: Kind) {
    Fits(s, t, k) && Makes(s, s', t, k) && Steps(s, s', t, k)
  }

  lemma AllocIs(s: State, w: Witness, t: Tid, c: nat)
    requires Inv(s, w) && t in s.threads && !InPool(s.threads[t])
    requires s.threads[t].op == Retry(c) || (s.threads[t].op.Alloc? && s.threads[t].op.c == c)
    ensures var s' := if s.threads[t].op.Retry? then StepRetry(s, t, c) else StepAlloc(s, t, c);
            Is(s, s', t, OpKind(s, t))
  {
    hide Inv, ClassSize, SlotCount, Shift, Pour;
    if At(s.pages, Bin(t, c)) != [] { BinFits(s, w, t, c); }
    ThreadFacts(s, w, t);
    hide OpOK;
  }

  lemma ListFits(s: State, w: Witness, a: PagePlace, i: nat)
    requires Inv(s, w) && a.Slab() && i < |At(s.pages, a)|
    ensures At(s.pages, a)[i] in s.slabs
  {
    hide Inv, Free, SlotCount;
    PageAt(s, w, a, i);
  }

  lemma SwapIs(s: State, w: Witness, t: Tid, c: nat, k: nat, got: bool)
    requires Inv(s, w) && t in s.threads
    ensures s.threads[t].op == ScanSwap(c, k) ==> Is(s, StepScanSwap(s, t, c, k), t, OpKind(s, t))
    ensures s.threads[t].op == AdoptDrain(c, got) ==> Is(s, StepAdoptDrain(s, t, c, got), t, OpKind(s, t))
    ensures s.threads[t].op == DropDrain(c) ==> Is(s, StepDropDrain(s, t, c), t, OpKind(s, t))
  {
    hide Inv, Pour;
    if k < |At(s.pages, Full(t, c))| { ListFits(s, w, Full(t, c), k); }
    if At(s.pages, Hand(t)) != [] { ListFits(s, w, Hand(t), 0); }
    ThreadFacts(s, w, t);
    hide OpOK;
  }

  lemma ScanJudgeIs(s: State, t: Tid, c: nat, k: nat)
    requires t in s.threads && s.threads[t].op == ScanJudge(c, k)
    ensures Is(s, StepScanJudge(s, t, c, k), t, OpKind(s, t))
  {
    hide SlotCount, Free, Shift;
  }

  lemma DropJudgeIs(s: State, t: Tid, c: nat)
    requires t in s.threads && s.threads[t].op == DropJudge(c)
    ensures Is(s, StepDropJudge(s, t, c), t, OpKind(s, t))
  {
    hide SlotCount, Free, Shift;
  }

  lemma AdoptJudgeIs(s: State, t: Tid, c: nat, got: bool)
    requires t in s.threads && s.threads[t].op == AdoptJudge(c, got)
    ensures Is(s, StepAdoptJudge(s, t, c, got), t, OpKind(s, t))
  {
    hide SlotCount, ClassSize, Shift;
  }

  lemma AwaitIs(s: State, w: Witness, t: Tid, c: nat)
    requires Inv(s, w) && t in s.threads && s.threads[t].op == Await(c)
    ensures Is(s, StepAwait(s, t, c), t, OpKind(s, t))
  {
    hide Inv, HoldsOK;
    if s.threads[t].pool.Got? {
      InitFacts(s, w, t, c);
      RemoteEmpty(s, w, At(s.pages, Raw(t))[0]);
      hide ThreadOK, Is, OpKind, StepAwait;
      BirthIs(s, t, c);
    } else {
      hide SlotCount, ClassSize, Shift, ThreadOK;
    }
  }

  lemma BirthIs(s: State, t: Tid, c: nat)
    requires t in s.threads && s.threads[t].op == Await(c) && s.threads[t].pool.Got?
    requires s.threads[t].heap.Running? && At(s.pages, Raw(t)) != []
    requires var p := At(s.pages, Raw(t))[0];
             p !in s.slabs && At(s.slots, Local(p)) == [] && At(s.slots, Remote(p)) == []
    ensures Is(s, StepAwait(s, t, c), t, OpKind(s, t))
  {
    hide ClassSize, SlotCount, Shift, AllSlots;
  }

  /** A page without a slab has nothing on its remote stack. */
  lemma RemoteEmpty(s: State, w: Witness, p: Page)
    requires Inv(s, w) && p !in s.slabs
    ensures At(s.slots, Remote(p)) == []
  {
    hide Inv, SlotCount;
    if At(s.slots, Remote(p)) != [] { SlotFacts(s, w, Remote(p), 0); }
  }

  lemma DrainIs(s: State, w: Witness, t: Tid, p: Page, next: Cont)
    requires Inv(s, w) && t in s.threads && s.threads[t].op == Drain(p, next)
    ensures Is(s, StepDrain(s, t, p, next), t, OpKind(s, t))
  {
    hide Inv, SlotCount, Shift;
    if At(s.slots, Draining(t)) != [] { SlotFacts(s, w, Draining(t), 0); }
    assert s.threads == s.threads[t := s.threads[t]];
  }

  lemma PushIs(s: State, w: Witness, t: Tid)
    requires Inv(s, w) && t in s.threads && s.threads[t].op.Push?
    ensures At(s.slots, Pushing(t)) != [] && Is(s, StepPush(s, t), t, OpKind(s, t))
  {
    hide Inv, SlotCount, Shift;
    ThreadFacts(s, w, t);
    hide OpOK;
    SlotFacts(s, w, Pushing(t), 0);
  }

  lemma PlainIs(s: State, t: Tid, c: nat, k: nat)
    requires t in s.threads
    ensures s.threads[t].op == Partials(c) ==> Is(s, StepPartials(s, t, c), t, OpKind(s, t))
    ensures s.threads[t].op == Scan(c, k) ==> Is(s, StepScan(s, t, c, k), t, OpKind(s, t))
  {
    hide Shift;
  }

  lemma RequestIs(s: State, t: Tid, c: nat, got: bool)
    requires t in s.threads
    ensures s.threads[t].op == AdoptLoad(c) ==> Is(s, StepAdoptLoad(s, t, c), t, OpKind(s, t))
    ensures s.threads[t].op == AdoptTake(c) ==> Is(s, StepAdoptTake(s, t, c), t, OpKind(s, t))
    ensures s.threads[t].op == Adopt(c, got) ==> Is(s, StepAdopt(s, t, c, got), t, OpKind(s, t))
  {
    hide Shift, Pour;
  }

  lemma EndIs(s: State, t: Tid, c: nat)
    requires t in s.threads
    ensures s.threads[t].op == Fresh(c) ==> Is(s, StepFresh(s, t, c), t, OpKind(s, t))
    ensures s.threads[t].op == Drop(c) ==> Is(s, StepDrop(s, t, c), t, OpKind(s, t))
    ensures s.threads[t].op == Abandon(c) ==> Is(s, StepAbandon(s, t, c), t, OpKind(s, t))
  {
    hide Shift;
  }

  lemma StillIs(s: State, t: Tid)
    requires t in s.threads
    ensures Is(s, s, t, Quiet)
  {
    assert s.threads == s.threads[t := s.threads[t]];
  }

  lemma OpIs(s: State, w: Witness, t: Tid)
    requires Inv(s, w) && t in s.threads && !InPool(s.threads[t])
    ensures Is(s, StepOp(s, t), t, OpKind(s, t))
  {
    hide Inv, Is, StepAlloc, StepRetry, StepPartials, StepScan, StepScanSwap, StepScanJudge, StepAdoptLoad,
         StepAdoptTake, StepAdopt, StepAdoptDrain, StepAdoptJudge, StepFresh, StepAwait, StepDrain, StepPush,
         StepDrop, StepDropDrain, StepDropJudge, StepAbandon, Free, FullyFree, TakeKind, SwapFirst;
    match s.threads[t].op {
      case Idle => StillIs(s, t);
      case Crashed => StillIs(s, t);
      case Alloc(c, _) => AllocIs(s, w, t, c);
      case Retry(c) => AllocIs(s, w, t, c);
      case Partials(c) => PlainIs(s, t, c, 0);
      case Scan(c, k) => PlainIs(s, t, c, k);
      case ScanSwap(c, k) => SwapIs(s, w, t, c, k, false);
      case ScanJudge(c, k) => ScanJudgeIs(s, t, c, k);
      case AdoptLoad(c) => RequestIs(s, t, c, false);
      case AdoptTake(c) => RequestIs(s, t, c, false);
      case Adopt(c, got) => RequestIs(s, t, c, got);
      case AdoptDrain(c, got) => SwapIs(s, w, t, c, 0, got);
      case AdoptJudge(c, got) => AdoptJudgeIs(s, t, c, got);
      case Fresh(c) => EndIs(s, t, c);
      case Await(c) => AwaitIs(s, w, t, c);
      case Drain(p, next) => DrainIs(s, w, t, p, next);
      case Push => PushIs(s, w, t);
      case Drop(c) => EndIs(s, t, c);
      case DropDrain(c) => SwapIs(s, w, t, c, 0, false);
      case DropJudge(c) => DropJudgeIs(s, t, c);
      case Abandon(c) => EndIs(s, t, c);
    }
  }

  lemma FreeIs(s: State, w: Witness, t: Tid, id: nat)
    requires Inv(s, w) && Enabled(s, t, StartFree(id))
    ensures Is(s, StepFree(s, t, id), t, KindOf(s, t, StartFree(id)))
  {
    hide Inv, SlotCount, ClassSize, Shift, Free, FullyFree;
    SlotFacts(s, w, Live(id), 0);
    assert s.threads == s.threads[t := s.threads[t]];
  }

  lemma PoolIs(s: State, t: Tid)
    requires t in s.threads
    ensures Is(s, StepPool(s, t), t, Quiet)
  {
    assert SlotsOnly(s, StepPool(s, t), t) by {
      hide StepDealloc, StepPurgeEnter, StepPurgeExit, StepAllocEnter, StepRegister, StepUnmap, Shift;
      match s.threads[t].pool {
        case DeallocEnter => DeallocIs(s, t);
        case PurgeEnter => PurgeIs(s, t);
        case PurgeExit => PurgeIs(s, t);
        case AllocEnter => ObtainIs(s, t);
        case Register => MapIs(s, t, false);
        case Unmap(refused) => MapIs(s, t, refused);
        case PIdle => StillSlots(s, t);
        case Got => StillSlots(s, t);
        case Failed => StillSlots(s, t);
        case _ =>
      }
    }
    hide StepPool;
  }

  /** Slots and slabs are as before, and the thread has moved inside the pool at most, or crashed. */
  ghost predicate SlotsOnly(s: State, s': State, t: Tid) {
    && s'.slots == s.slots && s'.slabs == s.slabs
    && t in s.threads && t in s'.threads && s'.threads == s.threads[t := s'.threads[t]]
    && (s'.threads[t].op == s.threads[t].op || s'.threads[t].op.Crashed?)
  }

  lemma StillSlots(s: State, t: Tid)
    requires t in s.threads
    ensures SlotsOnly(s, s, t)
  {
    assert s.threads == s.threads[t := s.threads[t]];
  }

  lemma DeallocIs(s: State, t: Tid)
    requires t in s.threads
    ensures SlotsOnly(s, StepDealloc(s, t), t)
  {
    hide DeallocSection, At;
  }

  lemma PurgeIs(s: State, t: Tid)
    requires t in s.threads
    ensures SlotsOnly(s, StepPurgeEnter(s, t), t) && SlotsOnly(s, StepPurgeExit(s, t), t)
  {
    hide PurgeTake, PurgeReturn, At;
  }

  lemma ObtainIs(s: State, t: Tid)
    requires t in s.threads
    ensures SlotsOnly(s, StepAllocEnter(s, t), t)
  {
    hide AllocSection, At;
  }

  lemma MapIs(s: State, t: Tid, refused: bool)
    requires t in s.threads
    ensures SlotsOnly(s, StepRegister(s, t), t) && SlotsOnly(s, StepUnmap(s, t, refused), t)
  {
    hide RegisterSection, At;
  }

  /** Every event of the machine is one move of slots, or none. */
  lemma EventIs(s: State, w: Witness, t: Tid, e: Event)
    requires Inv(s, w) && Enabled(s, t, e)
    ensures Is(s, Next(s, t, e), t, KindOf(s, t, e))
  {
    hide Inv, StepOp, StepPool, StepFree, OpKind;
    match e {
      case Go => hide Is; if InPool(s.threads[t]) { PoolIs(s, t); } else { OpIs(s, w, t); }
      case StartFree(id) => hide Is; FreeIs(s, w, t, id);
      case _ =>
    }
  }

  // ----- one step of machine and memory together

  lemma MoveHolds(g: Memory, s: State, w: map<Slot, SlotPlace>, t: Tid, k: Kind)
    requires Holds(g, s.slots, s.slabs.Keys) && Tiled(s.slots, w) && Fits(s, t, k)
    requires k.Cas? ==> k.x in g.link && g.link[k.x] == Word(g.head, k.x.page)
    ensures Holds(MemoryNext(g, t, k), After(s, t, k), s.slabs.Keys + Born(k))
  {
    hide Holds, Tiled, MemoryNext, After;
    assert k.Birth? || s.slabs.Keys + Born(k) == s.slabs.Keys;
    match k {
      case Quiet => QuietHolds(g, s, t);
      case Take(p) => TakeHolds(g, s, t, p);
      case Bump(p) => BumpHolds(g, s, t, p);
      case Birth(p, c) => BirthHolds(g, s, t, p, c);
      case Swap(p) => SwapHolds(g, s, t, p);
      case Walk(p) => WalkHolds(g, s, w, t, p);
      case Put(x, id) => PutHolds(g, s, w, t, x, id);
      case Load(x, id) => LoadHolds(g, s, t, x, id);
      case Cas(x) => CasHolds(g, s, t, x);
    }
  }

  lemma QuietHolds(g: Memory, s: State, t: Tid)
    ensures MemoryNext(g, t, Quiet) == g && After(s, t, Quiet) == s.slots
  {
  }

  /** Giving up a slab forgets its lists. */
  lemma GoneHolds(g: Memory, s: State, s': State, t: Tid, k: Kind)
    requires Makes(s, s', t, k) && Holds(g, After(s, t, k), s.slabs.Keys + Born(k))
    ensures Holds(g, s'.slots, s'.slabs.Keys)
  {
    hide After, Chain, At, Can;
    var m := After(s, t, k);
    forall p | p in s'.slabs ensures SlabHolds(g, s'.slots, p) {
      assert SlabHolds(g, m, p);
    }
    forall u: Tid ensures CursorHolds(g, s'.slots, u) {
      assert CursorHolds(g, m, u);
    }
  }

  lemma IsParts(s: State, s': State, t: Tid, k: Kind)
    requires Is(s, s', t, k)
    ensures Fits(s, t, k) && Makes(s, s', t, k) && (k.Cas? ==> !s'.threads[t].op.Push?)
  {
  }

  // Pushers.

  /** A move touches the slot in the hands of no other pusher. */
  lemma OtherPusher(g: Memory, s: State, s': State, w: map<Slot, SlotPlace>, t: Tid, k: Kind, u: Tid)
    requires Tiled(s.slots, w) && Holds(g, s.slots, s.slabs.Keys) && Is(s, s', t, k) && u != t
    requires At(s.slots, Pushing(u)) != []
    ensures At(s'.slots, Pushing(u)) == At(s.slots, Pushing(u))
    ensures var x := At(s.slots, Pushing(u))[0];
            x in g.link ==> x in MemoryNext(g, t, k).link && MemoryNext(g, t, k).link[x] == g.link[x]
    ensures u in g.seen ==> u in MemoryNext(g, t, k).seen && MemoryNext(g, t, k).seen[u] == g.seen[u]
  {
    var x := At(s.slots, Pushing(u))[0];
    assert x in At(s.slots, Pushing(u));
    PushingKept(s, t, k, u);
    IsParts(s, s', t, k);
    hide After, Is, Fits, Steps;
    match k {
      case Walk(p) => OtherWalk(g, s, w, t, p, x, u);
      case Put(y, id) =>
        assert y in At(s.slots, Live(id));
        Apart(s.slots, w, Pushing(u), Live(id), x);
      case _ =>
    }
  }

  lemma OtherWalk(g: Memory, s: State, w: map<Slot, SlotPlace>, t: Tid, p: Page, x: Slot, u: Tid)
    requires Tiled(s.slots, w) && Holds(g, s.slots, s.slabs.Keys) && x in At(s.slots, Pushing(u))
    requires At(s.slots, Draining(t)) != []
    ensures x in g.link ==>
              x in MemoryNext(g, t, Walk(p)).link && MemoryNext(g, t, Walk(p)).link[x] == g.link[x]
    ensures MemoryNext(g, t, Walk(p)).seen == g.seen
  {
    var d := At(s.slots, Draining(t));
    assert CursorHolds(g, s.slots, t);
    Tail(g.link, Word(g.cursor, t), d);
    assert d[0] in d;
    Apart(s.slots, w, Pushing(u), Draining(t), x);
    hide Tiled, Holds, Chain;
  }

  lemma PushingKept(s: State, t: Tid, k: Kind, u: Tid)
    requires Can(s, t, k) && u != t
    ensures At(After(s, t, k), Pushing(u)) == At(s.slots, Pushing(u))
  {
    hide AllSlots;
  }

  lemma ActPushers(g: Memory, s: State, s': State, w: map<Slot, SlotPlace>, t: Tid, k: Kind)
    requires Tiled(s.slots, w) && StandsFor(g, s) && Is(s, s', t, k)
    requires s.threads[t].op.Push? && s'.threads[t].op == s.threads[t].op ==> k == Quiet
    ensures Pushers(MemoryNext(g, t, k), s', s'.slots)
  {
    var g' := MemoryNext(g, t, k);
    forall u | u in s'.threads && s'.threads[u].op.Push?
      ensures u in g'.seen && At(s'.slots, Pushing(u)) != []
      ensures g'.seen[u].Linked? ==>
                 At(s'.slots, Pushing(u))[0] in g'.link && g'.link[At(s'.slots, Pushing(u))[0]] == g'.seen[u].head
    {
      if u != t {
        assert s'.threads[u] == s.threads[u];
        hide Holds, Tiled, Is, MemoryNext;
        OtherPusher(g, s, s', w, t, k, u);
      } else {
        OwnPusher(s, s', t, k);
      }
    }
  }

  lemma OwnPusher(s: State, s': State, t: Tid, k: Kind)
    requires Is(s, s', t, k) && s'.threads[t].op.Push?
    requires s.threads[t].op.Push? && s'.threads[t].op == s.threads[t].op ==> k == Quiet
    ensures k.Load? || k == Quiet
    ensures k.Load? ==> At(s'.slots, Pushing(t)) != []
    ensures k == Quiet ==> At(s'.slots, Pushing(t)) == At(s.slots, Pushing(t)) && s.threads[t].op.Push?
  {
    match k {
      case Load(x, id) => ShiftAt(s.slots, Live(id), 0, Pushing(t));
      case _ =>
    }
    hide Shift;
  }

  // ----- runs of machine and memory

  datatype Whole = Whole(s: State, g: Memory)

  datatype Tick =
    | Act(t: Tid, e: Event)           // a step of the machine
    | WriteLink(t: Tid)               // `write_next(slot, head)` inside a push
    | CasFail(t: Tid)                 // lost the race, or failed spuriously: the head is read again
    | Scribble(id: nat, v: Link)      // the client writes to its slot

  /** The slot a thread is pushing. */
  function SlotOf(s: State, t: Tid): Slot
    requires At(s.slots, Pushing(t)) != []
  {
    At(s.slots, Pushing(t))[0]
  }

  predicate InPush(f: Whole, t: Tid) {
    t in f.s.threads && f.s.threads[t].op.Push? && t in f.g.seen && At(f.s.slots, Pushing(t)) != []
  }

  /** A push succeeds only when its link is written and the head is the one it has seen. */
  ghost predicate Ready(f: Whole, k: Tick) {
    match k
    case Act(t, e) =>
      && Enabled(f.s, t, e)
      && (KindOf(f.s, t, e).Cas? ==> t in f.g.seen && f.g.seen[t] == Linked(Word(f.g.head, KindOf(f.s, t, e).x.page)))
    case WriteLink(t) => InPush(f, t) && f.g.seen[t].Loaded?
    case CasFail(t) => InPush(f, t) && f.g.seen[t].Linked?
    case Scribble(id, v) => At(f.s.slots, Live(id)) != []
  }

  ghost function Ticked(f: Whole, k: Tick): Whole
    requires Ready(f, k)
  {
    match k
    case Act(t, e) => Whole(Next(f.s, t, e), MemoryNext(f.g, t, KindOf(f.s, t, e)))
    case WriteLink(t) =>
      var h := f.g.seen[t].head;
      f.(g := f.g.(link := f.g.link[SlotOf(f.s, t) := h], seen := f.g.seen[t := Linked(h)]))
    case CasFail(t) => f.(g := f.g.(seen := f.g.seen[t := Loaded(Word(f.g.head, SlotOf(f.s, t).page))]))
    case Scribble(id, v) => f.(g := f.g.(link := f.g.link[At(f.s.slots, Live(id))[0] := v]))
  }

  lemma PushKind(s: State, t: Tid, e: Event)
    requires Enabled(s, t, e) && s.threads[t].op.Push?
    ensures KindOf(s, t, e) == Quiet || KindOf(s, t, e).Cas?
  {
  }

  /** At its compare-exchange a pusher's link is the head. */
  lemma CasLinked(f: Whole, t: Tid, e: Event)
    requires Pushers(f.g, f.s, f.s.slots) && Ready(f, Act(t, e)) && KindOf(f.s, t, e).Cas?
    ensures var x := KindOf(f.s, t, e).x; x in f.g.link && f.g.link[x] == Word(f.g.head, x.page)
  {
    hide Chain, Free, FullyFree, Word;
  }

  lemma ActStands(f: Whole, w: Witness, t: Tid, e: Event)
    requires Inv(f.s, w) && StandsFor(f.g, f.s) && Ready(f, Act(t, e))
    ensures StandsFor(Ticked(f, Act(t, e)).g, Next(f.s, t, e))
  {
    var k, s' := KindOf(f.s, t, e), Next(f.s, t, e);
    hide Inv, Next, Enabled, KindOf, Is, Tiled, SlotsOK, Pushers, Holds, MemoryNext, Fits, Makes;
    EventIs(f.s, w, t, e);
    InvSlots(f.s, w);
    IsParts(f.s, s', t, k);
    if f.s.threads[t].op.Push? { PushKind(f.s, t, e); }
    if k.Cas? { CasLinked(f, t, e); }
    ActPushers(f.g, f.s, s', w.slots, t, k);
    MoveHolds(f.g, f.s, w.slots, t, k);
    GoneHolds(MemoryNext(f.g, t, k), f.s, s', t, k);
  }

  lemma SameHolds(g: Memory, g': Memory, s: State)
    requires Holds(g, s.slots, s.slabs.Keys)
    requires g'.link == g.link && g'.head == g.head && g'.local == g.local && g'.len == g.len && g'.cursor == g.cursor
    ensures Holds(g', s.slots, s.slabs.Keys)
  {
    hide Chain, At;
    forall p | p in s.slabs ensures SlabHolds(g', s.slots, p) { assert SlabHolds(g, s.slots, p); }
    forall u: Tid ensures CursorHolds(g', s.slots, u) { assert CursorHolds(g, s.slots, u); }
  }

  /** A write to a slot in the hands of the client, or of a pusher, leaves every other pusher alone. */
  lemma WriteStands(g: Memory, s: State, w: map<Slot, SlotPlace>, a: SlotPlace, v: Link, u: Tid)
    requires Tiled(s.slots, w) && At(s.slots, a) != [] && (a.Live? || a == Pushing(u))
    requires StandsFor(g, s)
    ensures Holds(g.(link := g.link[At(s.slots, a)[0] := v]), s.slots, s.slabs.Keys)
    ensures forall t :: t in s.threads && s.threads[t].op.Push? && g.seen[t].Linked? && a != Pushing(t) ==>
              SlotOf(s, t) in g.link && g.link[At(s.slots, a)[0] := v][SlotOf(s, t)] == g.seen[t].head
  {
    var x := At(s.slots, a)[0];
    assert x in At(s.slots, a);
    WriteOutside(g, s.slots, w, s.slabs.Keys, a, x, v);
    hide Holds;
    forall t | t in s.threads && s.threads[t].op.Push? && g.seen[t].Linked? && a != Pushing(t)
      ensures SlotOf(s, t) in g.link && g.link[x := v][SlotOf(s, t)] == g.seen[t].head
    {
      assert SlotOf(s, t) in At(s.slots, Pushing(t));
      Apart(s.slots, w, Pushing(t), a, SlotOf(s, t));
    }
  }

  /** Machine and memory keep in step. */
  lemma TickStands(f: Whole, w: Witness, k: Tick) returns (w': Witness)
    requires Inv(f.s, w) && StandsFor(f.g, f.s) && Ready(f, k)
    ensures Inv(Ticked(f, k).s, w') && StandsFor(Ticked(f, k).g, Ticked(f, k).s)
  {
    hide Inv, Next, Enabled, KindOf, MemoryNext;
    w' := w;
    InvSlots(f.s, w);
    hide Tiled, SlotsOK;
    match k {
      case Act(t, e) =>
        hide Holds, Pushers;
        ActStands(f, w, t, e);
        w' := StepInv(f.s, w, t, e);
      case WriteLink(t) =>
        hide Holds;
        WriteStands(f.g, f.s, w.slots, Pushing(t), f.g.seen[t].head, t);
        SameHolds(f.g.(link := f.g.link[SlotOf(f.s, t) := f.g.seen[t].head]), Ticked(f, k).g, f.s);
      case CasFail(t) =>
        hide Holds;
        SameHolds(f.g, Ticked(f, k).g, f.s);
      case Scribble(id, v) =>
        hide Holds;
        WriteStands(f.g, f.s, w.slots, Live(id), v, 0);
    }
  }

  /** A finite run of the whole allocator down to its links, from any contents of memory. */
  ghost predicate MemoryRun(fs: seq<Whole>, ks: seq<Tick>) {
    && |fs| == |ks| + 1 && Init(fs[0].s) && fs[0].g.cursor == map[]
    && forall i :: 0 <= i < |ks| ==> Ready(fs[i], ks[i]) && fs[i + 1] == Ticked(fs[i], ks[i])
  }

  lemma InitStands(s: State, g: Memory)
    requires Init(s) && g.cursor == map[]
    ensures StandsFor(g, s)
  {
  }

  lemma {:induction false} MemoryInv(fs: seq<Whole>, ks: seq<Tick>, n: nat) returns (w: Witness)
    requires MemoryRun(fs, ks) && n <= |ks|
    ensures Inv(fs[n].s, w) && StandsFor(fs[n].g, fs[n].s)
  {
    hide Init, Ready, Ticked, Inv, StandsFor;
    if n == 0 {
      InitInv(fs[0].s);
      InitStands(fs[0].s, fs[0].g);
      w := W(map[], map[], map[]);
    } else {
      var i := n - 1;
      var v := MemoryInv(fs, ks, i);
      assert Ready(fs[i], ks[i]) && fs[i + 1] == Ticked(fs[i], ks[i]);
      w := TickStands(fs[i], v, ks[i]);
    }
  }

  /**
   In every run of the whole allocator, through initialisation, abandonment, adoption, recycling and
   any number of pushes at any stage: the links of every slab spell exactly the machine's lists, and
   what the code tests in memory (remote head null, local head null, `len`) is what the machine tests.
   */
  lemma MemoryTruth(fs: seq<Whole>, ks: seq<Tick>, n: nat, p: Page)
    requires MemoryRun(fs, ks) && n <= |ks| && p in fs[n].s.slabs
    ensures var Whole(s, g) := fs[n];
            && Visits(g.link, Word(g.head, p), At(s.slots, Remote(p)))
            && Visits(g.link, Word(g.local, p), At(s.slots, Local(p)))
            && (Word(g.head, p) == None <==> At(s.slots, Remote(p)) == [])
            && (Word(g.local, p) == None <==> At(s.slots, Local(p)) == [])
            && Len(g, p) + |At(s.slots, Virgin(p))| == Free(s, p)
  {
    var w := MemoryInv(fs, ks, n);
    var Whole(s, g) := fs[n];
    hide MemoryRun, Inv, SlotsOK;
    InvSlots(s, w);
    assert NoDup(At(s.slots, Remote(p))) && NoDup(At(s.slots, Local(p)));
    assert SlabHolds(g, s.slots, p);
    hide Tiled, Holds, Pushers;
    VisitsOnly(g.link, Word(g.head, p), At(s.slots, Remote(p)));
    VisitsOnly(g.link, Word(g.local, p), At(s.slots, Local(p)));
    hide Visits, NoDup;
  }

  /** The states of such a run are states of runs of the machine, so all that is proved of those holds. */
  lemma {:induction false} MemoryRunReaches(fs: seq<Whole>, ks: seq<Tick>, n: nat)
    requires MemoryRun(fs, ks) && n <= |ks|
    ensures Reachable(fs[n].s)
  {
    hide Init, Next, Enabled, KindOf, MemoryNext, Reachable;
    if n == 0 {
      InitReachable(fs[0].s);
    } else {
      var i := n - 1;
      MemoryRunReaches(fs, ks, i);
      assert Ready(fs[i], ks[i]) && fs[i + 1] == Ticked(fs[i], ks[i]);
      if ks[i].Act? { Extend(fs[i].s, ks[i].t, ks[i].e); }
    }
  }

  lemma InitReachable(s: State)
    requires Init(s)
    ensures Reachable(s)
  {
    assert Run([s]) && [s][|[s]| - 1] == s;
  }

  /** The chain a thread is draining is the machine's too. */
  lemma CursorTruth(fs: seq<Whole>, ks: seq<Tick>, n: nat, t: Tid)
    requires MemoryRun(fs, ks) && n <= |ks|
    ensures Visits(fs[n].g.link, Word(fs[n].g.cursor, t), At(fs[n].s.slots, Draining(t)))
  {
    var w := MemoryInv(fs, ks, n);
    var Whole(s, g) := fs[n];
    hide MemoryRun, Inv, SlotsOK;
    InvSlots(s, w);
    assert NoDup(At(s.slots, Draining(t)));
    assert CursorHolds(g, s.slots, t);
    VisitsOnly(g.link, Word(g.cursor, t), At(s.slots, Draining(t)));
  }

  /** A slot popped from the local list is the one memory had at its head. */
  lemma PoppedIsHead(fs: seq<Whole>, ks: seq<Tick>, n: nat, t: Tid, e: Event)
    requires MemoryRun(fs, ks) && n <= |ks| && Enabled(fs[n].s, t, e) && KindOf(fs[n].s, t, e).Take?
    ensures var Whole(s, g) := fs[n];
            var p := KindOf(s, t, e).p;
            Word(g.local, p).Some? && At(Next(s, t, e).slots, Live(s.nextId)) == [Word(g.local, p).value]
  {
    var w := MemoryInv(fs, ks, n);
    var Whole(s, g) := fs[n];
    var k := KindOf(s, t, e);
    hide MemoryRun, Inv, SlotsOK, Next, KindOf, Enabled, Is, Tiled, Holds, Pushers;
    EventIs(s, w, t, e);
    FreshId(s, w);
    TookHead(s, Next(s, t, e), t, k);
    TakeHolds(g, s, t, k.p);
  }

  lemma TookHead(s: State, s': State, t: Tid, k: Kind)
    requires Is(s, s', t, k) && k.Take? && At(s.slots, Live(s.nextId)) == []
    ensures k.p in s.slabs && Can(s, t, k) && At(s'.slots, Live(s.nextId)) == [At(s.slots, Local(k.p))[0]]
  {
    ShiftAt(s.slots, Local(k.p), 0, Live(s.nextId));
    hide Shift;
  }
}
