/**
 A slab as its owner sees it, updated in place (src/slab.rs:76-104, 211-244, 364-449): header
 fields, the 16-bit bump cursor, and the two free lists threaded through the slots.
 */
module Slab {
  import opened Places
  import opened Tiling
  import opened Chains
  import opened SizeClasses
  import opened SlabGeometry

  /** The addresses of the first `n` slots. */
  ghost function Addresses(p: Page, c: nat, n: nat): set<nat> {
    if n == 0 then {} else Addresses(p, c, n - 1) + {Address(Slot(p, n - 1), c)}
  }

  lemma {:induction false} AddressesMembers(p: Page, c: nat, n: nat, a: nat)
    ensures a in Addresses(p, c, n) <==> exists k: nat :: k < n && Address(Slot(p, k), c) == a
  {
    hide Address;
    if n > 0 { AddressesMembers(p, c, n - 1, a); }
  }

  lemma AddressInjective(p: Page, c: nat, i: nat, j: nat)
    requires i != j
    ensures Address(Slot(p, i), c) != Address(Slot(p, j), c)
  {
    hide ClassSize, SlotsOffset;
    StridesDisjoint(i, j, ClassSize(c));
  }

  lemma {:induction false} AddressesSize(p: Page, c: nat, n: nat)
    ensures |Addresses(p, c, n)| == n
  {
    hide Address;
    if n > 0 {
      AddressesSize(p, c, n - 1);
      var a := Address(Slot(p, n - 1), c);
      AddressesMembers(p, c, n - 1, a);
      forall k: nat | k < n - 1 ensures Address(Slot(p, k), c) != a { AddressInjective(p, c, k, n - 1); }
    }
  }

  /** A free list without repetition holds all of a finite domain exactly when it is as long. */
  lemma ListFills(q: seq<nat>, dom: set<nat>)
    requires NoDup(q) && forall a :: a in q ==> a in dom
    ensures |q| <= |dom|
    ensures |q| == |dom| <==> forall a :: a in dom ==> a in q
  {
    ElemsSize(q);
    SubsetSize(Elems(q), dom);
    if forall a :: a in dom ==> a in q { assert Elems(q) == dom; }
  }

  function Reversed(q: seq<nat>): seq<nat> {
    if q == [] then [] else Reversed(q[1..]) + [q[0]]
  }

  class SlabState {
    const page: Page
    const sizeClass: nat
    const slotSize: nat
    const slotCount: nat
    const slotsOffset: nat
    var heapId: nat
    var bumpCursor: nat                      // u16
    var bumpRemaining: nat
    var words: map<nat, Option<nat>>         // first word of every slot
    var localHead: Option<nat>
    var localLen: nat
    var remoteHead: Option<nat>
    ghost var Local: seq<nat>
    ghost var Remote: seq<nat>

    /** Slots the bump region has given up. */
    ghost function Carved(): int
      reads this
    {
      slotCount - bumpRemaining
    }

    /** `a` is the address of a slot that has been handed out at least once. */
    ghost predicate Used(a: nat)
      reads this
    {
      bumpRemaining <= slotCount && a in Addresses(page, sizeClass, Carved())
    }

    ghost predicate Shaped() {
      && slotSize == ClassSize(sizeClass) && slotCount == SlotCount(sizeClass)
      && slotsOffset == SlotsOffset(sizeClass)
    }

    /** The two lists are chains in memory, without repetition and without a slot in common. */
    ghost predicate ListsOK()
      reads this
    {
      && Chain(words, localHead, Local) && NoDup(Local) && localLen == |Local|
      && Chain(words, remoteHead, Remote) && NoDup(Remote)
      && (forall a :: a in Local ==> a !in Remote)
      && (forall a :: a in Local || a in Remote ==> Used(a))
    }

    ghost predicate Valid()
      reads this
    {
      && Shaped() && bumpRemaining <= slotCount && bumpCursor == Cursor(sizeClass, Carved())
      && ListsOK()
    }

    /** `SlabHeader::init`: every slot is in the bump region, none is chained. */
    constructor (p: Page, c: nat, id: nat)
      ensures Valid() && page == p && sizeClass == c && heapId == id
      ensures Local == [] && Remote == [] && Carved() == 0
      ensures slotSize == ClassSize(c) && bumpRemaining == slotCount
      ensures HEADER_SIZE <= slotsOffset < HEADER_SIZE + slotSize && slotsOffset % slotSize == 0
      ensures slotsOffset + slotCount * slotSize <= SLAB_SIZE < slotsOffset + (slotCount + 1) * slotSize
    {
      RoomForOne(c);
      LeastOffset(c);
      SlotsFillPage(c);
      hide ClassSize, SlotsOffset, SlotCount;
      page, sizeClass, heapId := p, c, id;
      slotSize, slotsOffset, slotCount := ClassSize(c), SlotsOffset(c), SlotCount(c);
      bumpCursor := SlotsOffset(c) % 0x10000;
      bumpRemaining := SlotCount(c);
      words, localHead, localLen, remoteHead := map[], None, 0, None;
      Local, Remote := [], [];
    }

    /**
     `Slab::alloc`: the local list first, then the bump region, at the address of the next slot
     although the cursor has 16 bits. What is handed out is on no list.
     */
    method Alloc() returns (r: Option<nat>)
      requires Valid()
      modifies this
      ensures Valid() && Remote == old(Remote) && heapId == old(heapId)
      ensures old(Local) != [] ==>
                r == Some(old(Local)[0]) && Local == old(Local)[1..] && bumpRemaining == old(bumpRemaining)
      ensures old(Local) == [] && old(bumpRemaining) > 0 ==>
                && r == Some(Address(Slot(page, old(Carved())), sizeClass)) && !old(Used(r.value))
                && Local == [] && bumpRemaining == old(bumpRemaining) - 1
      ensures r == None <==> old(Local) == [] && old(bumpRemaining) == 0
      ensures r == None ==> Local == [] && bumpRemaining == 0
      ensures r.Some? ==> Used(r.value) && r.value !in Local && r.value !in Remote
    {
      hide Cursor, ClassSize, SlotsOffset, SlotCount, Address;
      if localHead.Some? {
        r := localHead;
        localHead := words[r.value];
        localLen := localLen - 1;
        Local := Local[1..];
        assert forall a :: a in Local ==> a in old(Local);
        assert forall a :: Used(a) == old(Used(a));
        return;
      }
      if bumpRemaining > 0 {
        ghost var k := Carved();
        AtCursor(page, sizeClass, k);
        NotYet(page, sizeClass, k);
        r := Some(page * SLAB_SIZE + bumpCursor);
        bumpCursor := (bumpCursor + slotSize) % 0x10000;
        bumpRemaining := bumpRemaining - 1;
        return;
      }
      r := None;
    }

    /** `dealloc_local`. */
    method DeallocLocal(a: nat)
      requires Valid() && Used(a) && a !in Local && a !in Remote
      modifies this
      ensures Valid() && Local == [a] + old(Local) && Remote == old(Remote)
      ensures bumpRemaining == old(bumpRemaining) && heapId == old(heapId)
    {
      hide Cursor, Addresses, SlotCount, SlotsOffset, ClassSize;
      PushLocal(a);
    }

    /** `SlotFreeList::push`. */
    method PushLocal(a: nat)
      requires ListsOK() && Used(a) && a !in Local && a !in Remote
      modifies this`words, this`localHead, this`localLen, this`Local
      ensures ListsOK() && Local == [a] + old(Local)
      ensures words == old(words)[a := old(localHead)]
    {
      hide Addresses;
      ChainFrame(words, localHead, Local, a, localHead);
      ChainFrame(words, remoteHead, Remote, a, localHead);
      words := words[a := localHead];
      localHead := Some(a);
      localLen := localLen + 1;
      Local := [a] + Local;
      assert Local[1..] == old(Local);
    }

    /** `TreiberStack::push` when the compare-exchange succeeds. */
    method PushRemote(a: nat)
      requires Valid() && Used(a) && a !in Local && a !in Remote
      modifies this
      ensures Valid() && Remote == [a] + old(Remote) && Local == old(Local)
      ensures bumpRemaining == old(bumpRemaining) && heapId == old(heapId)
    {
      hide Cursor, Addresses, SlotCount, SlotsOffset, ClassSize;
      ChainFrame(words, localHead, Local, a, remoteHead);
      ChainFrame(words, remoteHead, Remote, a, remoteHead);
      words := words[a := remoteHead];
      remoteHead := Some(a);
      Remote := [a] + Remote;
      assert Remote[1..] == old(Remote);
    }

    /** `drain_remote`: every slot of the remote stack reaches the local list, newest deepest. */
    method DrainRemote() returns (count: nat)
      requires Valid()
      modifies this
      ensures Valid() && Remote == [] && Local == Reversed(old(Remote)) + old(Local)
      ensures count == |old(Remote)| && bumpRemaining == old(bumpRemaining) && heapId == old(heapId)
    {
      hide Cursor, Addresses, SlotCount, SlotsOffset, ClassSize;
      var cursor := remoteHead;
      ghost var rest := Remote;
      remoteHead, Remote := None, [];
      count := 0;
      while cursor.Some?
        invariant Valid() && Remote == [] && bumpRemaining == old(bumpRemaining) && heapId == old(heapId)
        invariant Chain(words, cursor, rest) && NoDup(rest)
        invariant forall a :: a in rest ==> Used(a) && a !in Local
        invariant Reversed(rest) + Local == Reversed(old(Remote)) + old(Local)
        invariant count + |rest| == |old(Remote)|
        decreases |rest|
      {
        var slot := cursor.value;
        var next := words[slot];
        ReversedStep(rest, Local);
        ChainFrame(words, next, rest[1..], slot, localHead);
        PushLocal(slot);
        rest := rest[1..];
        count := count + 1;
        cursor := next;
      }
      assert Reversed([]) + Local == Local;
    }

    /** `free_count`. */
    method FreeCount() returns (n: nat)
      requires Valid()
      ensures n == |Local| + bumpRemaining <= slotCount
      ensures n == slotCount <==> forall k: nat :: k < slotCount ==>
                 k >= Carved() || Address(Slot(page, k), sizeClass) in Local
      ensures n == slotCount ==> Remote == []
    {
      hide Cursor, Addresses, SlotCount, SlotsOffset, ClassSize, Address, Chain, NoDup;
      n := localLen + bumpRemaining;
      AddressesSize(page, sizeClass, Carved());
      ListFills(Local, Addresses(page, sizeClass, Carved()));
      forall a
        ensures a in Addresses(page, sizeClass, Carved())
                <==> exists k: nat :: k < Carved() && Address(Slot(page, k), sizeClass) == a
      {
        AddressesMembers(page, sizeClass, Carved(), a);
      }
      if Remote != [] { assert Remote[0] in Remote; }
    }

    /**
     `is_fully_free`: true exactly when every slot is uncarved or on the local list, and then no
     slot is on the remote stack.
     */
    method IsFullyFree() returns (b: bool)
      requires Valid()
      ensures b <==> forall k: nat :: k < slotCount ==> k >= Carved() || Address(Slot(page, k), sizeClass) in Local
      ensures b ==> Remote == []
    {
      hide Cursor, Addresses, SlotCount, SlotsOffset, ClassSize, Address;
      var n := FreeCount();
      b := n == slotCount;
    }
  }

  lemma ReversedStep(rest: seq<nat>, q: seq<nat>)
    requires rest != []
    ensures Reversed(rest) + q == Reversed(rest[1..]) + ([rest[0]] + q)
  {
  }

  /** The cursor stands at the next slot, and the next carve advances it. */
  lemma AtCursor(p: Page, c: nat, k: nat)
    requires k < SlotCount(c)
    ensures p * SLAB_SIZE + Cursor(c, k) == Address(Slot(p, k), c)
    ensures Cursor(c, k + 1) == (Cursor(c, k) + ClassSize(c)) % 0x10000
  {
    hide ClassSize, SlotsOffset, SlotCount;
    CursorExact(c, k);
  }

  /** The next slot is none of the carved ones. */
  lemma NotYet(p: Page, c: nat, k: nat)
    ensures Address(Slot(p, k), c) !in Addresses(p, c, k)
    ensures Addresses(p, c, k + 1) == Addresses(p, c, k) + {Address(Slot(p, k), c)}
  {
    hide Address;
    var a := Address(Slot(p, k), c);
    AddressesMembers(p, c, k, a);
    forall j: nat | j < k ensures Address(Slot(p, j), c) != a { AddressInjective(p, c, j, k); }
  }
}
