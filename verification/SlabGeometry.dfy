/**
 Slab geometry: where the slots of a 64 KiB page lie.
 */
module SlabGeometry {
  import opened Places
  import opened SizeClasses

  const SLAB_SIZE: nat := 0x10000
  /** `size_of::<SlabHeader>()` on a 64-bit target. */
  const HEADER_SIZE: nat := 72

  function SlotsOffset(c: nat): nat {
    NextMultiple(HEADER_SIZE, ClassSize(c))
  }

  /** A class is at most half a slab. */
  lemma ClassSizeBound(c: nat)
    ensures MIN_SIZE <= ClassSize(c) <= 32768
  {
    assert Pow2(MAX_K + 1) == 32768;
    if c < Regular(MAX_K) { IndexOfSize(MAX_K, c); }
  }

  /** The header leaves room for at least one slot. */
  lemma RoomForOne(c: nat)
    ensures HEADER_SIZE <= SlotsOffset(c) && SlotsOffset(c) + ClassSize(c) <= SLAB_SIZE
  {
    hide ClassSize;
    ClassSizeBound(c);
    OneStep(HEADER_SIZE, ClassSize(c));
  }

  lemma OneStep(n: nat, d: nat)
    requires 0 < n <= 72 && 0 < d <= 32768
    ensures n <= NextMultiple(n, d) && NextMultiple(n, d) + d <= SLAB_SIZE
  {
    hide DivCeil;
    DivCeilBounds(n, d);
    MulMono(2, DivCeil(n, d), d);
    MulMono(DivCeil(n, d), 1, d);
  }

  /** `slot_count`. */
  function SlotCount(c: nat): (n: nat)
    ensures n > 0
  {
    RoomForOne(c);
    (SLAB_SIZE - SlotsOffset(c)) / ClassSize(c)
  }

  /** The slots begin at the first multiple of the slot size that clears the header. */
  lemma LeastOffset(c: nat)
    ensures HEADER_SIZE <= SlotsOffset(c) < HEADER_SIZE + ClassSize(c)
    ensures SlotsOffset(c) % ClassSize(c) == 0
  {
    hide ClassSize, DivCeil;
    DivCeilBounds(HEADER_SIZE, ClassSize(c));
    MulMod(DivCeil(HEADER_SIZE, ClassSize(c)), ClassSize(c));
  }

  /** As many slots as fit: the last one ends within the page and one more would not. */
  lemma SlotsFillPage(c: nat)
    ensures SlotsOffset(c) + SlotCount(c) * ClassSize(c) <= SLAB_SIZE
    ensures SlotsOffset(c) + (SlotCount(c) + 1) * ClassSize(c) > SLAB_SIZE
  {
    RoomForOne(c);
    hide ClassSize, SlotsOffset;
    var d := ClassSize(c);
    DivFloor(SLAB_SIZE - SlotsOffset(c), d);
    assert (SlotCount(c) + 1) * d == SlotCount(c) * d + d;
  }

  /** The byte address of a slot of class `c`. */
  function Address(x: Slot, c: nat): nat {
    x.page * SLAB_SIZE + SlotsOffset(c) + x.idx * ClassSize(c)
  }

  /** `from_interior_ptr`: mask off the low bits. */
  function PageOf(addr: nat): Page {
    addr / SLAB_SIZE
  }

  lemma DivFloor(a: nat, d: nat)
    requires d > 0
    ensures (a / d) * d <= a < (a / d) * d + d
  {
    assert a == (a / d) * d + a % d;
  }

  /** Offset of slot `i` in its page: past the header, inside the page. */
  lemma SlotBounds(c: nat, i: nat)
    requires i < SlotCount(c)
    ensures HEADER_SIZE <= SlotsOffset(c) <= SlotsOffset(c) + i * ClassSize(c)
    ensures SlotsOffset(c) + i * ClassSize(c) + ClassSize(c) <= SLAB_SIZE
  {
    RoomForOne(c);
    hide ClassSize, SlotsOffset;
    var d := ClassSize(c);
    DivFloor(SLAB_SIZE - SlotsOffset(c), d);
    MulMono(i + 1, SlotCount(c), d);
    assert (i + 1) * d == i * d + d;
  }

  /** Every byte of a slot lies in the slot's own page, past the header, and masking recovers the page. */
  lemma SlotInPage(x: Slot, c: nat, b: nat)
    requires x.idx < SlotCount(c) && Address(x, c) <= b < Address(x, c) + ClassSize(c)
    ensures x.page * SLAB_SIZE + HEADER_SIZE <= b < (x.page + 1) * SLAB_SIZE
    ensures PageOf(b) == x.page
  {
    SlotBounds(c, x.idx);
    hide ClassSize, SlotsOffset, SlotCount;
    assert (x.page + 1) * SLAB_SIZE == x.page * SLAB_SIZE + SLAB_SIZE;
  }

  ghost predicate Disjoint(a: nat, n: nat, b: nat, m: nat) {
    a + n <= b || b + m <= a
  }

  /** Different slots occupy disjoint bytes, whether in one page or in two. */
  lemma SlotsDisjoint(x: Slot, c: nat, y: Slot, d: nat)
    requires x != y && x.idx < SlotCount(c) && y.idx < SlotCount(d) && (x.page == y.page ==> c == d)
    ensures Disjoint(Address(x, c), ClassSize(c), Address(y, d), ClassSize(d))
  {
    hide ClassSize, SlotsOffset, SlotCount;
    SlotBounds(c, x.idx);
    SlotBounds(d, y.idx);
    if x.page == y.page {
      StridesDisjoint(x.idx, y.idx, ClassSize(c));
    }
  }

  lemma StridesDisjoint(i: nat, j: nat, n: nat)
    requires i != j
    ensures i * n + n <= j * n || j * n + n <= i * n
  {
    MulMono(i + 1, j, n);
    MulMono(j + 1, i, n);
    assert (i + 1) * n == i * n + n && (j + 1) * n == j * n + n;
  }

  lemma ModAdd(a: nat, b: nat, d: nat)
    requires d > 0 && a % d == 0 && b % d == 0
    ensures (a + b) % d == 0
  {
    assert a + b == (a / d) * d + (b / d) * d == (a / d + b / d) * d;
    MulMod(a / d + b / d, d);
  }

  lemma ModMul(a: nat, m: nat, d: nat)
    requires d > 0 && a % d == 0
    ensures m * a % d == 0
  {
    var q := a / d;
    assert a == q * d;
    assert m * (q * d) == (m * q) * d;
    MulMod(m * q, d);
  }

  lemma DivisorBound(n: nat, d: nat)
    requires n > 0 && d > 0 && n % d == 0
    ensures d <= n
  {
  }

  /** The slab size is a multiple of every alignment a class can have. */
  lemma PageAligned(p: Page, c: nat, align: nat)
    requires ClassSize(c) % Pow2(align) == 0
    ensures p * SLAB_SIZE % Pow2(align) == 0
  {
    hide ClassSize, Pow2;
    ClassSizeBound(c);
    DivisorBound(ClassSize(c), Pow2(align));
    SlabPower();
    if align > 16 { PowMono(16, align); }
    PowDivides(align, 16, p);
  }

  lemma SlabPower()
    ensures Pow2(16) == SLAB_SIZE
  {
    assert Pow2(8) == 256;
    PowSplit(8, 8);
  }

  /** A slot of a class that is a multiple of the alignment is aligned. */
  lemma SlotAligned(x: Slot, c: nat, align: nat)
    requires ClassSize(c) % Pow2(align) == 0
    ensures Address(x, c) % Pow2(align) == 0
  {
    hide ClassSize, Pow2, NextMultiple, SlotsOffset;
    var d, n := Pow2(align), ClassSize(c);
    PageAligned(x.page, c, align);
    OffsetMultiple(c);
    ModMul(n, DivCeil(HEADER_SIZE, n), d);
    ModMul(n, x.idx, d);
    ModAdd(x.page * SLAB_SIZE, SlotsOffset(c), d);
    ModAdd(x.page * SLAB_SIZE + SlotsOffset(c), x.idx * n, d);
  }

  lemma OffsetMultiple(c: nat)
    ensures SlotsOffset(c) == DivCeil(HEADER_SIZE, ClassSize(c)) * ClassSize(c)
  {
  }

  /**
   What a layout is promised: any slot of its class, at any page, holds the size, is aligned, and
   stays inside its page past the header.
   */
  lemma LayoutServed(size: nat, align: nat, x: Slot)
    requires size > 0 && ClassIndex(size, align).Some? && x.idx < SlotCount(ClassIndex(size, align).value)
    ensures var c := ClassIndex(size, align).value;
            && c < NUM_CLASSES && size <= ClassSize(c)
            && Address(x, c) % Pow2(align) == 0
            && x.page * SLAB_SIZE + HEADER_SIZE <= Address(x, c)
            && Address(x, c) + size <= (x.page + 1) * SLAB_SIZE
  {
    ClassIndexRight(MAX_K, size, align);
    var c := ClassIndex(size, align).value;
    hide ClassIndexTo;
    assert ClassSize(c) == ClassSizeTo(MAX_K, c);
    SlotAligned(x, c, align);
    SlotInPage(x, c, Address(x, c));
    SlotInPage(x, c, Address(x, c) + ClassSize(c) - 1);
  }

  // ----- the 16-bit bump cursor

  /** `bump_cursor` after `k` carves: `wrapping_add` on 16 bits. */
  function Cursor(c: nat, k: nat): nat {
    if k == 0 then SlotsOffset(c) % 0x10000 else (Cursor(c, k - 1) + ClassSize(c)) % 0x10000
  }

  /**
   As long as a carve is left the cursor is exact: it is the offset of slot `k`. It wraps, to zero,
   only after the last carve and only when the slots fill the page to its last byte.
   */
  lemma {:induction false} CursorExact(c: nat, k: nat)
    requires k <= SlotCount(c)
    ensures k < SlotCount(c) ==> Cursor(c, k) == SlotsOffset(c) + k * ClassSize(c)
    ensures Cursor(c, k) != SlotsOffset(c) + k * ClassSize(c) ==>
              k == SlotCount(c) && SlotsOffset(c) + k * ClassSize(c) == SLAB_SIZE && Cursor(c, k) == 0
  {
    hide ClassSize, SlotsOffset, SlotCount, Cursor;
    if k == 0 {
      RoomForOne(c);
      CursorFirst(c);
    } else {
      CursorExact(c, k - 1);
      SlotBounds(c, k - 1);
      CursorNext(c, k);
      OneMore(k, ClassSize(c));
      WrapAdd(SlotsOffset(c) + (k - 1) * ClassSize(c), ClassSize(c));
      if k < SlotCount(c) { SlotBounds(c, k); }
    }
  }

  lemma CursorFirst(c: nat)
    requires SlotsOffset(c) < 0x10000
    ensures Cursor(c, 0) == SlotsOffset(c)
  {
  }

  lemma CursorNext(c: nat, k: nat)
    requires k > 0
    ensures Cursor(c, k) == (Cursor(c, k - 1) + ClassSize(c)) % 0x10000
  {
  }

  lemma OneMore(k: nat, d: nat)
    requires k > 0
    ensures k * d == (k - 1) * d + d
  {
  }

  lemma WrapAdd(x: nat, d: nat)
    requires x + d <= 0x10000
    ensures (x + d) % 0x10000 == if x + d == 0x10000 then 0 else x + d
  {
  }
}
