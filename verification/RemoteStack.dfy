/**
 The lists of one slab as they are in memory: next-pointers written into the slots themselves, a
 local free list of the owner, and a remote free stack that any number of threads push to with
 load, link write and compare-exchange as separate steps.

 Every step is matched with what it does to the lists of `System`: nothing, or exactly one move of
 one slot (`Shift`) or the swap of a whole stack (`Pour`). A head that is drained, reused and pushed
 again between a pusher's load and its compare-exchange does no harm.
 */
module RemoteStack {
  import opened Places
  import opened Tiling
  import opened Chains

  type Link = Option<Slot>

  /** A thread inside `TreiberStack::push`, with the head it has seen. */
  datatype Pusher =
    | Loaded(slot: Slot, seen: Link)      // about to write the link
    | Linked(slot: Slot, seen: Link)      // about to compare-exchange

  datatype Memory = Memory(
    link: map<Slot, Link>,                // first word of every slot
    head: Link,                           // remote stack
    local: Link, len: nat,                // `SlotFreeList`
    cursor: Link,                         // chain the owner is draining
    carved: nat,                          // slots taken from the bump region
    pushers: map<Tid, Pusher>,
    live: map<nat, Slot>)                 // slots in the hands of the client, by allocation number

  /** The slab: its page, its number of slots, and the thread that owns it. */
  datatype Shape = Shape(p: Page, count: nat, owner: Tid)

  datatype Step =
    | Load(t: Tid, id: nat)               // `push` begins: the head is read
    | WriteLink(t: Tid)                   // `write_next(slot, head)`
    | CasOk(t: Tid)
    | CasFail(t: Tid)                     // lost the race, or failed spuriously: the head is read again
    | Swap                                // `swap_drain`
    | Walk                                // one turn of the drain loop
    | Pop(id: nat)                        // `SlotFreeList::pop`
    | Bump(id: nat)
    | FreeLocal(id: nat)                  // `SlotFreeList::push`
    | Scribble(id: nat, v: Link)          // the client writes to its slot

  ghost predicate Enabled(k: Shape, f: Memory, e: Step) {
    match e
    case Load(t, id) => t !in f.pushers && id in f.live
    case WriteLink(t) => t in f.pushers && f.pushers[t].Loaded?
    case CasOk(t) => t in f.pushers && f.pushers[t].Linked? && f.head == f.pushers[t].seen
    case CasFail(t) => t in f.pushers && f.pushers[t].Linked?
    case Swap => f.cursor.None?
    case Walk => f.cursor.Some?
    case Pop(id) => f.local.Some? && id !in f.live
    case Bump(id) => f.carved < k.count && id !in f.live
    case FreeLocal(id) => id in f.live
    case Scribble(id, v) => id in f.live
  }

  /** `read_next`; the null stands for what is read where there is no slot. */
  function Read(f: Memory, x: Slot): Link {
    if x in f.link then f.link[x] else None
  }

  ghost function Next(k: Shape, f: Memory, e: Step): Memory
    requires Enabled(k, f, e)
  {
    match e
    case Load(t, id) => f.(live := f.live - {id}, pushers := f.pushers[t := Loaded(f.live[id], f.head)])
    case WriteLink(t) =>
      var Loaded(x, seen) := f.pushers[t];
      f.(link := f.link[x := seen], pushers := f.pushers[t := Linked(x, seen)])
    case CasOk(t) => f.(head := Some(f.pushers[t].slot), pushers := f.pushers - {t})
    case CasFail(t) => f.(pushers := f.pushers[t := Loaded(f.pushers[t].slot, f.head)])
    case Swap => f.(cursor := f.head, head := None)
    case Walk =>
      var x := f.cursor.value;
      f.(cursor := Read(f, x), link := f.link[x := f.local], local := Some(x), len := f.len + 1)
    case Pop(id) =>
      var x := f.local.value;
      f.(local := Read(f, x), len := if f.len > 0 then f.len - 1 else 0, live := f.live[id := x])
    case Bump(id) => f.(carved := f.carved + 1, live := f.live[id := Slot(k.p, f.carved)])
    case FreeLocal(id) =>
      var x := f.live[id];
      f.(link := f.link[x := f.local], local := Some(x), len := f.len + 1, live := f.live - {id})
    case Scribble(id, v) => f.(link := f.link[f.live[id] := v])
  }

  // ----- what memory stands for

  type Lists = map<SlotPlace, seq<Slot>>

  function VirginSlots(p: Page, a: nat, b: nat): (q: seq<Slot>)
    ensures |q| == if a < b then b - a else 0
    ensures forall i :: 0 <= i < |q| ==> q[i] == Slot(p, a + i)
  {
    if a < b then seq(b - a, i requires 0 <= i => Slot(p, a + i)) else []
  }

  /** The three linked lists. */
  ghost predicate Lists3(k: Shape, f: Memory, m: Lists) {
    && Chain(f.link, f.head, At(m, Remote(k.p)))
    && Chain(f.link, f.local, At(m, Local(k.p))) && |At(m, Local(k.p))| == f.len
    && Chain(f.link, f.cursor, At(m, Draining(k.owner)))
  }

  ghost predicate Hands(k: Shape, f: Memory, m: Lists) {
    && (forall t: Tid :: At(m, Pushing(t)) == if t in f.pushers then [f.pushers[t].slot] else [])
    && (forall t :: t in f.pushers && f.pushers[t].Linked? ==>
          f.pushers[t].slot in f.link && f.link[f.pushers[t].slot] == f.pushers[t].seen)
    && (forall id: nat :: At(m, Live(id)) == if id in f.live then [f.live[id]] else [])
    && At(m, Virgin(k.p)) == VirginSlots(k.p, f.carved, k.count)
  }

  /** Memory `f` stands for the lists `m`, tiled by `w`. */
  ghost predicate Rep(k: Shape, f: Memory, m: Lists, w: map<Slot, SlotPlace>) {
    Tiled(m, w) && Lists3(k, f, m) && Hands(k, f, m) && f.carved <= k.count && w.Keys <= f.link.Keys
  }

  /** What a step of memory is to `System`. */
  ghost function Abstract(k: Shape, f: Memory, m: Lists, e: Step): Lists
    requires Enabled(k, f, e) && Lists3(k, f, m) && Hands(k, f, m)
  {
    match e
    case Load(t, id) => Shift(m, Live(id), 0, Pushing(t))
    case WriteLink(t) => m
    case CasOk(t) => Shift(m, Pushing(t), 0, Remote(k.p))
    case CasFail(t) => m
    case Swap => Pour(m, Remote(k.p), Draining(k.owner))
    case Walk => Shift(m, Draining(k.owner), 0, Local(k.p))
    case Pop(id) => Shift(m, Local(k.p), 0, Live(id))
    case Bump(id) => Shift(m, Virgin(k.p), 0, Live(id))
    case FreeLocal(id) => Shift(m, Live(id), 0, Local(k.p))
    case Scribble(id, v) => m
  }

  ghost function AbstractWhere(k: Shape, f: Memory, m: Lists, w: map<Slot, SlotPlace>, e: Step): map<Slot, SlotPlace>
    requires Enabled(k, f, e) && Lists3(k, f, m) && Hands(k, f, m)
  {
    match e
    case Load(t, id) => w[f.live[id] := Pushing(t)]
    case WriteLink(t) => w
    case CasOk(t) => w[f.pushers[t].slot := Remote(k.p)]
    case CasFail(t) => w
    case Swap => Renamed(w, Remote(k.p), Draining(k.owner))
    case Walk => w[f.cursor.value := Local(k.p)]
    case Pop(id) => w[f.local.value := Live(id)]
    case Bump(id) => w[Slot(k.p, f.carved) := Live(id)]
    case FreeLocal(id) => w[f.live[id] := Local(k.p)]
    case Scribble(id, v) => w
  }

  // ----- the simulation

  lemma Elsewhere(m: Lists, w: map<Slot, SlotPlace>, a: SlotPlace, b: SlotPlace, x: Slot)
    requires Tiled(m, w) && x in At(m, a) && a != b
    ensures x !in At(m, b)
  {
  }

  /** Writing to a slot that is in none of the three linked lists leaves them alone. */
  lemma OutOfLists(k: Shape, f: Memory, m: Lists, w: map<Slot, SlotPlace>, a: SlotPlace, x: Slot, v: Link)
    requires Tiled(m, w) && Lists3(k, f, m) && x in At(m, a) && !a.Local? && !a.Remote? && !a.Draining?
    ensures Lists3(k, f.(link := f.link[x := v]), m)
  {
    Elsewhere(m, w, a, Remote(k.p), x);
    Elsewhere(m, w, a, Local(k.p), x);
    Elsewhere(m, w, a, Draining(k.owner), x);
    hide Tiled;
    ChainFrame(f.link, f.head, At(m, Remote(k.p)), x, v);
    ChainFrame(f.link, f.local, At(m, Local(k.p)), x, v);
    ChainFrame(f.link, f.cursor, At(m, Draining(k.owner)), x, v);
  }

  /** The tiling follows the abstract step. */
  lemma StepTiled(k: Shape, f: Memory, m: Lists, w: map<Slot, SlotPlace>, e: Step)
    requires Rep(k, f, m, w) && Enabled(k, f, e)
    ensures Tiled(Abstract(k, f, m, e), AbstractWhere(k, f, m, w, e))
    ensures AbstractWhere(k, f, m, w, e).Keys == w.Keys
  {
    hide Tiled;
    match e
    case Load(t, id) => ShiftTiled(m, w, Live(id), 0, Pushing(t));
    case CasOk(t) => ShiftTiled(m, w, Pushing(t), 0, Remote(k.p));
    case Swap => PourTiled(m, w, Remote(k.p), Draining(k.owner));
    case Walk => ShiftTiled(m, w, Draining(k.owner), 0, Local(k.p));
    case Pop(id) => ShiftTiled(m, w, Local(k.p), 0, Live(id));
    case Bump(id) => ShiftTiled(m, w, Virgin(k.p), 0, Live(id));
    case FreeLocal(id) => ShiftTiled(m, w, Live(id), 0, Local(k.p));
    case _ =>
  }

  // The pushers, the client's handles and the bump region follow the abstract step.

  lemma LoadHands(k: Shape, f: Memory, m: Lists, t: Tid, id: nat)
    requires Hands(k, f, m) && Lists3(k, f, m) && Enabled(k, f, Load(t, id))
    ensures Hands(k, Next(k, f, Load(t, id)), Abstract(k, f, m, Load(t, id)))
  {
    hide Lists3, VirginSlots;
    ShiftAt(m, Live(id), 0, Pushing(t));
    hide Shift;
  }

  lemma CasHands(k: Shape, f: Memory, m: Lists, t: Tid)
    requires Hands(k, f, m) && Lists3(k, f, m) && Enabled(k, f, CasOk(t))
    ensures Hands(k, Next(k, f, CasOk(t)), Abstract(k, f, m, CasOk(t)))
  {
    hide Lists3, VirginSlots;
    ShiftAt(m, Pushing(t), 0, Remote(k.p));
    hide Shift;
  }

  lemma WalkHands(k: Shape, f: Memory, m: Lists, w: map<Slot, SlotPlace>)
    requires Rep(k, f, m, w) && f.cursor.Some?
    ensures Hands(k, Next(k, f, Walk), Abstract(k, f, m, Walk))
  {
    hide Tiled, VirginSlots;
    HandsWrite(k, f, m, w, Draining(k.owner), f.cursor.value, f.local);
    ShiftAt(m, Draining(k.owner), 0, Local(k.p));
    hide Shift;
  }

  lemma PopHands(k: Shape, f: Memory, m: Lists, id: nat)
    requires Hands(k, f, m) && Lists3(k, f, m) && Enabled(k, f, Pop(id))
    ensures Hands(k, Next(k, f, Pop(id)), Abstract(k, f, m, Pop(id)))
  {
    ShiftAt(m, Local(k.p), 0, Live(id));
    hide Shift, VirginSlots;
  }

  lemma BumpHands(k: Shape, f: Memory, m: Lists, id: nat)
    requires Hands(k, f, m) && Lists3(k, f, m) && Enabled(k, f, Bump(id))
    ensures Hands(k, Next(k, f, Bump(id)), Abstract(k, f, m, Bump(id)))
  {
    hide Lists3;
    assert Without(At(m, Virgin(k.p)), 0) == VirginSlots(k.p, f.carved + 1, k.count);
    ShiftAt(m, Virgin(k.p), 0, Live(id));
    hide Shift, Without;
  }

  lemma FreeHands(k: Shape, f: Memory, m: Lists, w: map<Slot, SlotPlace>, id: nat)
    requires Rep(k, f, m, w) && Enabled(k, f, FreeLocal(id))
    ensures Hands(k, Next(k, f, FreeLocal(id)), Abstract(k, f, m, FreeLocal(id)))
  {
    hide Lists3, VirginSlots, Tiled;
    HandsWrite(k, f, m, w, Live(id), f.live[id], f.local);
    ShiftAt(m, Live(id), 0, Local(k.p));
    hide Shift;
  }

  lemma LinkHands(k: Shape, f: Memory, m: Lists, w: map<Slot, SlotPlace>, t: Tid)
    requires Rep(k, f, m, w) && Enabled(k, f, WriteLink(t))
    ensures Hands(k, Next(k, f, WriteLink(t)), m)
  {
    hide Lists3, VirginSlots, Tiled;
    HandsWrite(k, f, m, w, Pushing(t), f.pushers[t].slot, f.pushers[t].seen);
  }

  lemma SwapHands(k: Shape, f: Memory, m: Lists)
    requires Hands(k, f, m)
    ensures Hands(k, f.(cursor := f.head, head := None), Pour(m, Remote(k.p), Draining(k.owner)))
  {
    hide VirginSlots;
  }

  lemma WriteHands(k: Shape, f: Memory, m: Lists, w: map<Slot, SlotPlace>, e: Step)
    requires Rep(k, f, m, w) && Enabled(k, f, e) && (e.CasFail? || e.Scribble? || e.Swap?)
    ensures Hands(k, Next(k, f, e), Abstract(k, f, m, e))
  {
    hide Lists3, VirginSlots, Tiled;
    match e
    case Scribble(id, v) => HandsWrite(k, f, m, w, Live(id), f.live[id], v);
    case Swap => SwapHands(k, f, m);
    case CasFail(_) =>
  }

  lemma StepHands(k: Shape, f: Memory, m: Lists, w: map<Slot, SlotPlace>, e: Step)
    requires Rep(k, f, m, w) && Enabled(k, f, e)
    ensures Hands(k, Next(k, f, e), Abstract(k, f, m, e)) && Next(k, f, e).carved <= k.count
  {
    hide Hands, Lists3, Tiled;
    match e
    case Load(t, id) => LoadHands(k, f, m, t, id);
    case WriteLink(t) => LinkHands(k, f, m, w, t);
    case CasOk(t) => CasHands(k, f, m, t);
    case Walk => WalkHands(k, f, m, w);
    case Pop(id) => PopHands(k, f, m, id);
    case Bump(id) => BumpHands(k, f, m, id);
    case FreeLocal(id) => FreeHands(k, f, m, w, id);
    case _ => WriteHands(k, f, m, w, e);
  }

  /** A write to a slot that no other thread is pushing leaves every finished link write alone. */
  lemma HandsWrite(k: Shape, f: Memory, m: Lists, w: map<Slot, SlotPlace>, a: SlotPlace, x: Slot, v: Link)
    requires Tiled(m, w) && Hands(k, f, m) && x in At(m, a)
    ensures forall u :: u in f.pushers && f.pushers[u].Linked? && a != Pushing(u) ==>
              f.pushers[u].slot in f.link[x := v] && f.link[x := v][f.pushers[u].slot] == f.pushers[u].seen
  {
    forall u | u in f.pushers && f.pushers[u].Linked? && a != Pushing(u) ensures f.pushers[u].slot != x {
      assert f.pushers[u].slot in At(m, Pushing(u));
      Elsewhere(m, w, a, Pushing(u), x);
    }
  }

  lemma ListsFrame(k: Shape, f: Memory, f': Memory, m: Lists, m': Lists)
    requires Lists3(k, f, m) && f'.link == f.link && f'.head == f.head && f'.local == f.local && f'.len == f.len &&
             f'.cursor == f.cursor
    requires At(m', Remote(k.p)) == At(m, Remote(k.p)) && At(m', Local(k.p)) == At(m, Local(k.p))
    requires At(m', Draining(k.owner)) == At(m, Draining(k.owner))
    ensures Lists3(k, f', m')
  {
  }

  /** The compare-exchange is where the push happens: the link written earlier is the current head. */
  lemma CasLists(k: Shape, f: Memory, m: Lists, t: Tid)
    requires Hands(k, f, m) && Lists3(k, f, m) && Enabled(k, f, CasOk(t))
    ensures Lists3(k, Next(k, f, CasOk(t)), Abstract(k, f, m, CasOk(t)))
  {
    ShiftAt(m, Pushing(t), 0, Remote(k.p));
    hide Shift;
    var m' := Abstract(k, f, m, CasOk(t));
    assert At(m', Remote(k.p))[1..] == At(m, Remote(k.p));
  }

  lemma PopLists(k: Shape, f: Memory, m: Lists, id: nat)
    requires Hands(k, f, m) && Lists3(k, f, m) && Enabled(k, f, Pop(id))
    ensures Lists3(k, Next(k, f, Pop(id)), Abstract(k, f, m, Pop(id)))
  {
    hide Hands;
    ShiftAt(m, Local(k.p), 0, Live(id));
    hide Shift;
    assert Without(At(m, Local(k.p)), 0) == At(m, Local(k.p))[1..];
  }

  lemma FreeLists(k: Shape, f: Memory, m: Lists, w: map<Slot, SlotPlace>, id: nat)
    requires Rep(k, f, m, w) && Enabled(k, f, FreeLocal(id))
    ensures Lists3(k, Next(k, f, FreeLocal(id)), Abstract(k, f, m, FreeLocal(id)))
  {
    hide Tiled, Hands;
    LiveAt(k, f, m, id);
    var x := f.live[id];
    OutOfLists(k, f, m, w, Live(id), x, f.local);
    ShiftAt(m, Live(id), 0, Local(k.p));
    hide Shift;
    assert ([x] + At(m, Local(k.p)))[1..] == At(m, Local(k.p));
  }

  lemma LiveAt(k: Shape, f: Memory, m: Lists, id: nat)
    requires Hands(k, f, m) && id in f.live
    ensures At(m, Live(id)) == [f.live[id]]
  {
  }

  lemma QuietLists(k: Shape, f: Memory, m: Lists, w: map<Slot, SlotPlace>, e: Step)
    requires Rep(k, f, m, w) && Enabled(k, f, e) &&
             (e.Load? || e.WriteLink? || e.CasFail? || e.Bump? || e.Scribble? || e.Swap?)
    ensures Lists3(k, Next(k, f, e), Abstract(k, f, m, e))
  {
    hide VirginSlots, Tiled;
    match e
    case Load(t, id) => ShiftAt(m, Live(id), 0, Pushing(t)); ListsFrame(k, f, Next(k, f, e), m, Abstract(k, f, m, e));
    case Bump(id) => ShiftAt(m, Virgin(k.p), 0, Live(id)); ListsFrame(k, f, Next(k, f, e), m, Abstract(k, f, m, e));
    case WriteLink(t) => OutOfLists(k, f, m, w, Pushing(t), f.pushers[t].slot, f.pushers[t].seen);
    case Scribble(id, v) => OutOfLists(k, f, m, w, Live(id), f.live[id], v);
    case _ =>
  }

  /** The three linked lists follow the abstract step. */
  lemma StepLists(k: Shape, f: Memory, m: Lists, w: map<Slot, SlotPlace>, e: Step)
    requires Rep(k, f, m, w) && Enabled(k, f, e)
    ensures Lists3(k, Next(k, f, e), Abstract(k, f, m, e))
  {
    hide Hands, Lists3, Tiled;
    match e
    case CasOk(t) => CasLists(k, f, m, t);
    case Walk => WalkLists(k, f, m, w);
    case Pop(id) => PopLists(k, f, m, id);
    case FreeLocal(id) => FreeLists(k, f, m, w, id);
    case _ => QuietLists(k, f, m, w, e);
  }

  lemma WalkLists(k: Shape, f: Memory, m: Lists, w: map<Slot, SlotPlace>)
    requires Rep(k, f, m, w) && f.cursor.Some?
    ensures Lists3(k, Next(k, f, Walk), Abstract(k, f, m, Walk))
  {
    var x, d, l := f.cursor.value, At(m, Draining(k.owner)), At(m, Local(k.p));
    assert d[0] == x && x in d;
    Elsewhere(m, w, Draining(k.owner), Local(k.p), x);
    Elsewhere(m, w, Draining(k.owner), Remote(k.p), x);
    assert NoDup(d);
    hide Tiled, Hands;
    ShiftAt(m, Draining(k.owner), 0, Local(k.p));
    hide Shift;
    assert Without(d, 0) == d[1..] && ([x] + l)[1..] == l;
    ChainFrame(f.link, f.head, At(m, Remote(k.p)), x, f.local);
    ChainFrame(f.link, f.local, l, x, f.local);
    ChainFrame(f.link, f.link[x], d[1..], x, f.local);
  }

  /** Every step of memory is one step of the lists, or none. */
  lemma StepSimulates(k: Shape, f: Memory, m: Lists, w: map<Slot, SlotPlace>, e: Step)
    requires Rep(k, f, m, w) && Enabled(k, f, e)
    ensures Rep(k, Next(k, f, e), Abstract(k, f, m, e), AbstractWhere(k, f, m, w, e))
  {
    StepTiled(k, f, m, w, e);
    StepHands(k, f, m, w, e);
    StepLists(k, f, m, w, e);
    assert f.link.Keys <= Next(k, f, e).link.Keys;
  }

  // ----- runs

  /** A slab fresh from `init`. */
  ghost predicate Fresh(k: Shape, f: Memory) {
    && f == Memory(f.link, None, None, 0, None, 0, map[], map[])
    && forall i: nat :: i < k.count ==> Slot(k.p, i) in f.link
  }

  ghost predicate Run(k: Shape, tr: seq<Memory>, es: seq<Step>) {
    && |tr| == |es| + 1 && Fresh(k, tr[0])
    && forall i :: 0 <= i < |es| ==> Enabled(k, tr[i], es[i]) && tr[i + 1] == Next(k, tr[i], es[i])
  }

  lemma FreshRep(k: Shape, f: Memory)
    requires Fresh(k, f)
    ensures var q := VirginSlots(k.p, 0, k.count); Rep(k, f, map[Virgin(k.p) := q], Joined(map[], Virgin(k.p), q))
  {
    var q := VirginSlots(k.p, 0, k.count);
    var none: Lists := map[];
    assert Tiled(none, map[]);
    GrowTiled(none, map[], Virgin(k.p), q);
    assert q + At(none, Virgin(k.p)) == q;
  }

  /** In every interleaving, memory stands for lists: no chain is broken, cyclic or shared. */
  lemma {:induction false} RunRep(k: Shape, tr: seq<Memory>, es: seq<Step>, n: nat)
      returns (m: Lists, w: map<Slot, SlotPlace>)
    requires Run(k, tr, es) && n <= |es|
    ensures Rep(k, tr[n], m, w) && w.Keys == Elems(VirginSlots(k.p, 0, k.count))
    ensures forall x :: x in w ==> PlaceHere(k, w[x])
  {
    if n == 0 {
      FreshRep(k, tr[0]);
      var q := VirginSlots(k.p, 0, k.count);
      m, w := map[Virgin(k.p) := q], Joined(map[], Virgin(k.p), q);
    } else {
      var m0, w0 := RunRep(k, tr, es, n - 1);
      hide Rep, Next, Enabled, Fresh;
      var e := es[n - 1];
      assert Enabled(k, tr[n - 1], e) && tr[n - 1 + 1] == Next(k, tr[n - 1], e);
      StepSimulates(k, tr[n - 1], m0, w0, e);
      m, w := AbstractOf(k, tr[n - 1], m0, w0, e);
    }
  }

  lemma AbstractOf(k: Shape, f: Memory, m0: Lists, w0: map<Slot, SlotPlace>, e: Step)
      returns (m: Lists, w: map<Slot, SlotPlace>)
    requires Rep(k, f, m0, w0) && Enabled(k, f, e)
    ensures Rep(k, Next(k, f, e), m, w) && w.Keys == w0.Keys
    ensures forall x :: x in w && !PlaceHere(k, w[x]) ==> !PlaceHere(k, w0[x])
  {
    StepTiled(k, f, m0, w0, e);
    StepSimulates(k, f, m0, w0, e);
    WhereHere(k, f, m0, w0, e);
    m, w := Abstract(k, f, m0, e), AbstractWhere(k, f, m0, w0, e);
  }

  lemma WhereHere(k: Shape, f: Memory, m: Lists, w: map<Slot, SlotPlace>, e: Step)
    requires Rep(k, f, m, w) && Enabled(k, f, e) && AbstractWhere(k, f, m, w, e).Keys == w.Keys
    ensures forall x :: x in AbstractWhere(k, f, m, w, e) && !PlaceHere(k, AbstractWhere(k, f, m, w, e)[x]) ==>
            !PlaceHere(k, w[x])
  {
    hide Tiled, Chain, Hands, Lists3;
  }

  /** A place a slot of this slab can be in. */
  predicate PlaceHere(k: Shape, a: SlotPlace) {
    a in {Virgin(k.p), Local(k.p), Remote(k.p), Draining(k.owner)} || a.Pushing? || a.Live?
  }

  /** The three chains of memory. */
  ghost predicate Chains3(f: Memory, remote: seq<Slot>, local: seq<Slot>, draining: seq<Slot>) {
    Visits(f.link, f.head, remote) && Visits(f.link, f.local, local) && f.len == |local| &&
        Visits(f.link, f.cursor, draining)
  }

  /** `a` names the one place of `x`: it is there, and it is nowhere else. */
  ghost predicate OnlyAt(k: Shape, f: Memory, remote: seq<Slot>, local: seq<Slot>, draining: seq<Slot>, x: Slot,
      a: SlotPlace) {
    && PlaceHere(k, a)
    && (x in remote <==> a == Remote(k.p))
    && (x in local <==> a == Local(k.p))
    && (x in draining <==> a == Draining(k.owner))
    && (x.idx >= f.carved <==> a == Virgin(k.p))
    && (forall t :: (t in f.pushers && f.pushers[t].slot == x) <==> a == Pushing(t))
    && (forall id :: (id in f.live && f.live[id] == x) <==> a == Live(id))
  }

  lemma VirginMembers(p: Page, a: nat, b: nat, i: nat)
    requires i < b
    ensures Slot(p, i) in VirginSlots(p, a, b) <==> i >= a
  {
    if i >= a { assert VirginSlots(p, a, b)[i - a] == Slot(p, i); }
  }

  lemma FoundOnly(m: Lists, w: map<Slot, SlotPlace>, x: Slot, a: SlotPlace)
    requires Tiled(m, w) && x in w
    ensures x in At(m, a) <==> w[x] == a
  {
  }

  lemma RepOnly(k: Shape, f: Memory, m: Lists, w: map<Slot, SlotPlace>, x: Slot)
    requires Rep(k, f, m, w) && x in w && PlaceHere(k, w[x]) && x.page == k.p && x.idx < k.count
    ensures OnlyAt(k, f, At(m, Remote(k.p)), At(m, Local(k.p)), At(m, Draining(k.owner)), x, w[x])
    ensures Chains3(f, At(m, Remote(k.p)), At(m, Local(k.p)), At(m, Draining(k.owner)))
  {
    assert NoDup(At(m, Remote(k.p))) && NoDup(At(m, Local(k.p))) && NoDup(At(m, Draining(k.owner)));
    VisitsOnly(f.link, f.head, At(m, Remote(k.p)));
    VisitsOnly(f.link, f.local, At(m, Local(k.p)));
    VisitsOnly(f.link, f.cursor, At(m, Draining(k.owner)));
    hide Tiled, NoDup, Chain, Visits;
    FoundOnly(m, w, x, Remote(k.p));
    FoundOnly(m, w, x, Local(k.p));
    FoundOnly(m, w, x, Draining(k.owner));
    FoundOnly(m, w, x, Virgin(k.p));
    VirginMembers(k.p, f.carved, k.count, x.idx);
    forall t: Tid ensures (t in f.pushers && f.pushers[t].slot == x) <==> w[x] == Pushing(t) {
      FoundOnly(m, w, x, Pushing(t));
    }
    forall id: nat ensures (id in f.live && f.live[id] == x) <==> w[x] == Live(id) {
      FoundOnly(m, w, x, Live(id));
    }
  }

  /**
   In every interleaving of any number of pushers with the owner: the remote stack, the local list
   and the chain being drained are finite, repeat no slot and are the only ones memory holds, and
   every slot of the slab is in exactly one place. So a slot freed remotely is recovered once, neither lost nor doubled.
   */
  lemma ChainsSound(k: Shape, tr: seq<Memory>, es: seq<Step>, n: nat, x: Slot)
    returns (remote: seq<Slot>, local: seq<Slot>, draining: seq<Slot>, a: SlotPlace)
    requires Run(k, tr, es) && n <= |es| && x.page == k.p && x.idx < k.count
    ensures Chains3(tr[n], remote, local, draining)
    ensures OnlyAt(k, tr[n], remote, local, draining, x, a)
  {
    hide Rep, OnlyAt, Chains3, PlaceHere;
    var m, w := RunRep(k, tr, es, n);
    VirginMembers(k.p, 0, k.count, x.idx);
    assert x == Slot(k.p, x.idx) && x in w;
    RepOnly(k, tr[n], m, w, x);
    remote, local, draining, a := At(m, Remote(k.p)), At(m, Local(k.p)), At(m, Draining(k.owner)), w[x];
  }
}
