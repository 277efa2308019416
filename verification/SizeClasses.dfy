/**
 Size classes: bit arithmetic, the table that speeds it up, and the inverse.

 The exponent `top` of the largest regular group is a parameter of everything below; the allocator
 uses `MAX_K`. Groups run over `2^k` for `MIN_K <= k <= top`, four steps each, and one last class
 of `2^(top+1)` bytes closes the table.
 */
module SizeClasses {
  import opened Places

  const MIN_SIZE: nat := 8
  const SUB_STEPS: nat := 4
  const MIN_K: nat := 3
  const MAX_K: nat := 14
  const NUM_REGULAR: nat := (MAX_K - MIN_K + 1) * SUB_STEPS
  const NUM_CLASSES: nat := NUM_REGULAR + 1

  function Pow2(k: nat): (r: nat)
    ensures r > 0
  {
    if k == 0 then 1 else 2 * Pow2(k - 1)
  }

  /** `usize::BITS - 1 - leading_zeros`. */
  function Log2(n: nat): (k: nat)
    requires n > 0
    ensures Pow2(k) <= n < Pow2(k + 1)
  {
    if n == 1 then 0 else Log2(n / 2) + 1
  }

  function Regular(top: nat): nat
    requires top >= MIN_K
  {
    (top - MIN_K + 1) * SUB_STEPS
  }

  function DivCeil(a: nat, b: nat): nat
    requires b > 0
  {
    (a + b - 1) / b
  }

  /** `class_index_from_size`. */
  function IndexFromSize(top: nat, size: nat): nat
    requires top >= MIN_K && MIN_SIZE <= size <= Pow2(top + 1)
  {
    if size >= Pow2(top + 1) then Regular(top)
    else
      var k := Log2(size);
      GroupAtLeast(size, MIN_K);
      var base := Pow2(k);
      var step := base / 4;
      QuarterExact(k);
      var j := DivCeil(size - base, step);
      if j >= SUB_STEPS then
        if k + 1 > top then Regular(top) else (k + 1 - MIN_K) * SUB_STEPS
      else (k - MIN_K) * SUB_STEPS + j
  }

  /** `class_size`. */
  function ClassSizeTo(top: nat, i: nat): (r: nat)
    requires top >= MIN_K
    ensures r > 0
  {
    if i >= Regular(top) then Pow2(top + 1)
    else
      var base := Pow2(i / SUB_STEPS + MIN_K);
      base + (i % SUB_STEPS) * (base / 4)
  }

  function ClassSize(i: nat): (r: nat)
    ensures r > 0
  {
    ClassSizeTo(MAX_K, i)
  }

  // ----- powers of two

  lemma {:induction false} PowMono(a: nat, b: nat)
    requires a <= b
    ensures Pow2(a) <= Pow2(b)
    decreases b
  {
    if a < b { PowMono(a, b - 1); }
  }

  lemma {:induction false} PowSplit(a: nat, b: nat)
    ensures Pow2(a + b) == Pow2(a) * Pow2(b)
    decreases b
  {
    if b > 0 {
      PowSplit(a, b - 1);
      PowNext(a + (b - 1));
      PowNext(b - 1);
      hide Pow2;
      TwiceProduct(Pow2(a), Pow2(b - 1));
    }
  }

  lemma TwiceProduct(x: nat, y: nat)
    ensures 2 * (x * y) == x * (2 * y)
  {
  }

  lemma PowNext(k: nat)
    ensures Pow2(k + 1) == 2 * Pow2(k)
  {
  }

  lemma MulMono(a: nat, b: nat, d: nat)
    ensures a <= b ==> a * d <= b * d
  {
    if a <= b { assert b * d == a * d + (b - a) * d; }
  }

  /** From `2^3` on, the quarter step is exact and even. */
  lemma QuarterExact(k: nat)
    requires k >= MIN_K
    ensures Pow2(k) == 4 * Pow2(k - 2) && Pow2(k) / 4 == Pow2(k - 2) && Pow2(k - 2) % 2 == 0 && Pow2(k - 2) >= 2
  {
    assert Pow2(k) == 2 * Pow2(k - 1) && Pow2(k - 1) == 2 * Pow2(k - 2) && Pow2(k - 2) == 2 * Pow2(k - 3);
  }

  lemma GroupAtLeast(size: nat, k: nat)
    requires size >= Pow2(k)
    ensures size > 0 && Log2(size) >= k
  {
    if Log2(size) < k { PowMono(Log2(size) + 1, k); }
  }

  lemma LogUnique(n: nat, k: nat)
    requires Pow2(k) <= n < Pow2(k + 1)
    ensures Log2(n) == k
  {
    var l := Log2(n);
    if l < k { PowMono(l + 1, k); } else if k < l { PowMono(k + 1, l); }
  }

  // ----- the classes ascend

  /** `(4 + j) * step`, one multiplication by a constant at a time. */
  function Steps(j: nat, step: nat): nat {
    if j == 0 then 4 * step else if j == 1 then 5 * step else if j == 2 then 6 * step else 7 * step
  }

  lemma ClassSizeForm(top: nat, g: nat, j: nat)
    requires top >= MIN_K && g < top - MIN_K + 1 && j < 4
    ensures 4 * g + j < Regular(top) && ClassSizeTo(top, 4 * g + j) == Steps(j, Pow2(g + 1))
  {
    hide Pow2;
    QuarterExact(g + MIN_K);
    assert (4 * g + j) / SUB_STEPS == g && (4 * g + j) % SUB_STEPS == j;
  }

  lemma SizeStep(top: nat, i: nat)
    requires top >= MIN_K && i < Regular(top)
    ensures ClassSizeTo(top, i) < ClassSizeTo(top, i + 1)
    ensures ClassSizeTo(top, i + 1) - ClassSizeTo(top, i) == Pow2(i / SUB_STEPS + MIN_K - 2)
  {
    hide Pow2, ClassSizeTo;
    var g, j := i / SUB_STEPS, i % SUB_STEPS;
    ClassSizeForm(top, g, j);
    if j < 3 { ClassSizeForm(top, g, j + 1); } else { GroupEnd(top, g); }
  }

  /** The class after the last one of group `g` is the next power of two. */
  lemma GroupEnd(top: nat, g: nat)
    requires top >= MIN_K && g < top - MIN_K + 1
    ensures ClassSizeTo(top, 4 * g + 4) == 8 * Pow2(g + 1)
  {
    PowNext(g + 1);
    PowNext(g + 2);
    PowNext(g + 3);
    hide Pow2;
    assert (4 * g + 4) / SUB_STEPS == g + 1 && (4 * g + 4) % SUB_STEPS == 0;
  }

  lemma {:induction false} SizesAscend(top: nat, i: nat, j: nat)
    requires top >= MIN_K && i < j <= Regular(top)
    ensures ClassSizeTo(top, i) < ClassSizeTo(top, j)
    decreases j
  {
    SizeStep(top, j - 1);
    if i < j - 1 { SizesAscend(top, i, j - 1); }
  }

  /** `i` is the first class that holds `size` bytes. */
  ghost predicate LeastFit(top: nat, size: nat, i: nat)
    requires top >= MIN_K
  {
    && i <= Regular(top) && size <= ClassSizeTo(top, i)
    && forall j :: 0 <= j < i ==> ClassSizeTo(top, j) < size
  }

  lemma LeastFitUnique(top: nat, size: nat, i: nat, j: nat)
    requires top >= MIN_K && LeastFit(top, size, i) && LeastFit(top, size, j)
    ensures i == j
  {
  }

  /** The size of class `4 (k - 3) + j`, for `j` up to and including 4. */
  lemma GroupSize(top: nat, k: nat, j: nat)
    requires MIN_K <= k <= top && j <= 4
    ensures ClassSizeTo(top, (k - MIN_K) * SUB_STEPS + j) == 4 * Pow2(k - 2) + j * Pow2(k - 2)
    ensures (k - MIN_K) * SUB_STEPS + j <= Regular(top)
  {
    QuarterExact(k);
    var i := (k - MIN_K) * SUB_STEPS + j;
    if j < 4 {
      assert i / SUB_STEPS == k - MIN_K && i % SUB_STEPS == j;
    } else {
      SizeStep(top, i - 1);
      assert (i - 1) / SUB_STEPS == k - MIN_K && (i - 1) % SUB_STEPS == 3;
    }
  }

  lemma DivCeilBounds(a: nat, b: nat)
    requires b > 0
    ensures a <= DivCeil(a, b) * b < a + b
  {
    var q := DivCeil(a, b);
    assert a + b - 1 == q * b + (a + b - 1) % b;
  }

  /** In group `k`, `j = ceil((size - 2^k) / 2^(k-2))` steps hold the size and `j - 1` do not. */
  lemma StepsRight(size: nat, k: nat, j: nat)
    requires k >= MIN_K && Pow2(k) <= size < Pow2(k + 1) && j == DivCeil(size - Pow2(k), Pow2(k - 2))
    ensures j <= 4
    ensures size <= 4 * Pow2(k - 2) + j * Pow2(k - 2) < size + Pow2(k - 2)
  {
    QuarterExact(k);
    PowNext(k);
    hide Pow2;
    var step := Pow2(k - 2);
    DivCeilBounds(size - Pow2(k), step);
    MulMono(5, j, step);
  }

  /** The index arithmetic, with the carry into the next group folded in. */
  lemma IndexByGroup(top: nat, size: nat)
    requires top >= MIN_K && MIN_SIZE <= size < Pow2(top + 1)
    ensures var k := Log2(size);
            && MIN_K <= k <= top
            && DivCeil(size - Pow2(k), Pow2(k - 2)) <= 4
            && IndexFromSize(top, size) == (k - MIN_K) * SUB_STEPS + DivCeil(size - Pow2(k), Pow2(k - 2))
  {
    var k := Log2(size);
    GroupAtLeast(size, MIN_K);
    if k > top { PowMono(top + 1, k); }
    QuarterExact(k);
    StepsRight(size, k, DivCeil(size - Pow2(k), Pow2(k - 2)));
  }

  /** The bit arithmetic picks the first class that fits. */
  lemma IndexIsLeastFit(top: nat, size: nat)
    requires top >= MIN_K && MIN_SIZE <= size <= Pow2(top + 1)
    ensures LeastFit(top, size, IndexFromSize(top, size))
    ensures Log2(size) >= MIN_K
    ensures ClassSizeTo(top, IndexFromSize(top, size)) - size < Pow2(Log2(size) - 2)
  {
    hide Pow2, Log2, ClassSizeTo, IndexFromSize, LeastFit;
    if size >= Pow2(top + 1) {
      LastFits(top, size);
    } else {
      RegularLeastFit(top, size);
    }
  }

  lemma RegularLeastFit(top: nat, size: nat)
    requires top >= MIN_K && MIN_SIZE <= size < Pow2(top + 1)
    ensures LeastFit(top, size, IndexFromSize(top, size)) && Log2(size) >= MIN_K
    ensures ClassSizeTo(top, IndexFromSize(top, size)) - size < Pow2(Log2(size) - 2)
  {
    hide Pow2, Log2, ClassSizeTo, IndexFromSize, DivCeil;
    IndexByGroup(top, size);
    var k := Log2(size);
    var j := DivCeil(size - Pow2(k), Pow2(k - 2));
    StepsRight(size, k, j);
    GroupSize(top, k, j);
    var i := (k - MIN_K) * SUB_STEPS + j;
    BelowFits(top, size, k, j);
    forall n | 0 <= n < i ensures ClassSizeTo(top, n) < size {
      if n < i - 1 { SizesAscend(top, n, i - 1); }
    }
  }

  lemma LastFits(top: nat, size: nat)
    requires top >= MIN_K && MIN_SIZE <= size == Pow2(top + 1)
    ensures IndexFromSize(top, size) == Regular(top) && ClassSizeTo(top, Regular(top)) == size
    ensures LeastFit(top, size, Regular(top)) && Log2(size) == top + 1
  {
    PowNext(top + 1);
    LogUnique(size, top + 1);
    forall n | 0 <= n < Regular(top) ensures ClassSizeTo(top, n) < size { SizesAscend(top, n, Regular(top)); }
  }

  /** The class before the chosen one is too small. */
  lemma BelowFits(top: nat, size: nat, k: nat, j: nat)
    requires MIN_K <= k <= top && j <= 4 && Pow2(k) <= size
    requires 4 * Pow2(k - 2) + j * Pow2(k - 2) < size + Pow2(k - 2)
    ensures (k - MIN_K) * SUB_STEPS + j > 0 ==> ClassSizeTo(top, (k - MIN_K) * SUB_STEPS + j - 1) < size
  {
    QuarterExact(k);
    if j > 0 {
      GroupSize(top, k, j - 1);
      assert (j - 1) * Pow2(k - 2) == j * Pow2(k - 2) - Pow2(k - 2);
    } else if k > MIN_K {
      GroupSize(top, k - 1, 3);
      QuarterExact(k - 1);
      PowNext(k - 1);
    }
  }

  /** `class_size` undoes `class_index_from_size` on every class. */
  lemma IndexOfSize(top: nat, i: nat)
    requires top >= MIN_K && i <= Regular(top)
    ensures MIN_SIZE <= ClassSizeTo(top, i) <= Pow2(top + 1)
    ensures IndexFromSize(top, ClassSizeTo(top, i)) == i
  {
    if i > 0 { SizesAscend(top, 0, i); }
    if i < Regular(top) { SizesAscend(top, i, Regular(top)); }
    assert ClassSizeTo(top, 0) == 8;
    var size := ClassSizeTo(top, i);
    IndexIsLeastFit(top, size);
    forall n | 0 <= n < i ensures ClassSizeTo(top, n) < size { SizesAscend(top, n, i); }
    assert LeastFit(top, size, i);
    LeastFitUnique(top, size, i, IndexFromSize(top, size));
  }

  /** At most a quarter of the requested bytes is wasted. */
  lemma WasteAtMostQuarter(top: nat, size: nat)
    requires top >= MIN_K && MIN_SIZE <= size <= Pow2(top + 1)
    ensures 4 * (ClassSizeTo(top, IndexFromSize(top, size)) - size) <= size
  {
    IndexIsLeastFit(top, size);
    QuarterExact(Log2(size));
    hide Pow2, ClassSizeTo, IndexFromSize;
  }

  // ----- the table

  function Max(a: nat, b: nat): nat {
    if a < b then b else a
  }

  /** The entry the table holds at index `i`. */
  function Entry(top: nat, i: nat): nat
    requires top >= MIN_K && i < Pow2(top)
  {
    PowMono(MIN_K, top + 1);
    IndexFromSize(top, Max(MIN_SIZE, (i + 1) * 2))
  }

  /** `(size - 1) >> 1`. */
  function TableSlot(size: nat): nat {
    if size == 0 then 0 else (size - 1) / 2
  }

  /** The loop that fills `CLASS_TABLE`: looking a size up gives the first class that holds it. */
  method BuildTable(top: nat) returns (table: array<nat>)
    requires top >= MIN_K
    ensures fresh(table) && table.Length == Pow2(top)
    ensures forall i :: 0 <= i < Pow2(top) ==> table[i] == Entry(top, i)
    ensures forall size: nat :: MIN_SIZE <= size <= Pow2(top + 1) ==>
              TableSlot(size) < table.Length && LeastFit(top, size, table[TableSlot(size)])
  {
    table := new nat[Pow2(top)];
    PowMono(MIN_K, top + 1);
    var i := 0;
    while i < Pow2(top)
      invariant 0 <= i <= Pow2(top)
      invariant forall k :: 0 <= k < i ==> table[k] == Entry(top, k)
    {
      var size := (i + 1) * 2;
      var clamped := if size < MIN_SIZE then MIN_SIZE else size;
      table[i] := IndexFromSize(top, clamped);
      i := i + 1;
    }
    hide IndexFromSize, Entry, LeastFit, Pow2;
    forall size: nat | MIN_SIZE <= size <= Pow2(top + 1)
      ensures TableSlot(size) < table.Length && LeastFit(top, size, table[TableSlot(size)])
    {
      LookupExact(top, size);
      IndexIsLeastFit(top, size);
    }
  }

  /** Every class has an even size. */
  lemma SizesEven(top: nat, i: nat)
    requires top >= MIN_K
    ensures ClassSizeTo(top, i) % 2 == 0
  {
    if i < Regular(top) {
      var g, j := i / SUB_STEPS, i % SUB_STEPS;
      ClassSizeForm(top, g, j);
      PowNext(g);
      hide Pow2, ClassSizeTo;
      assert Steps(j, 2 * Pow2(g)) == 2 * Steps(j, Pow2(g));
    } else {
      PowNext(top);
    }
  }

  lemma FitsRoundedUp(top: nat, size: nat, i: nat)
    requires top >= MIN_K && LeastFit(top, size, i) && size % 2 == 1
    ensures LeastFit(top, size + 1, i)
  {
    SizesEven(top, i);
    hide ClassSizeTo;
  }

  /** The lookup with two-byte granularity agrees with the arithmetic on every size. */
  lemma LookupExact(top: nat, size: nat)
    requires top >= MIN_K && MIN_SIZE <= size <= Pow2(top + 1)
    ensures (size - 1) / 2 < Pow2(top)
    ensures Entry(top, (size - 1) / 2) == IndexFromSize(top, size)
  {
    hide ClassSizeTo, IndexFromSize, Pow2, LeastFit;
    PowNext(top);
    if size % 2 == 1 {
      assert ((size - 1) / 2 + 1) * 2 == size + 1;
      IndexIsLeastFit(top, size + 1);
      IndexIsLeastFit(top, size);
      FitsRoundedUp(top, size, IndexFromSize(top, size));
      LeastFitUnique(top, size + 1, IndexFromSize(top, size), IndexFromSize(top, size + 1));
    } else {
      assert ((size - 1) / 2 + 1) * 2 == size;
    }
  }

  // ----- layouts

  function NextMultiple(n: nat, a: nat): nat
    requires a > 0
  {
    DivCeil(n, a) * a
  }

  /** A layout: a size and an alignment `2^align`. `class_index` is a table lookup. */
  function ClassIndexTo(top: nat, size: nat, align: nat): Option<nat>
    requires top >= MIN_K
  {
    var n := Max(NextMultiple(size, Pow2(align)), MIN_SIZE);
    if n > Pow2(top + 1) then None
    else
      LookupExact(top, n);
      Some(Entry(top, (n - 1) / 2))
  }

  function ClassIndex(size: nat, align: nat): Option<nat> {
    ClassIndexTo(MAX_K, size, align)
  }

  lemma MulMod(m: nat, d: nat)
    requires d > 0
    ensures m * d % d == 0 && m * d / d == m
  {
    var q, r := m * d / d, m * d % d;
    assert m * d == q * d + r;
    MulMono(q + 1, m, d);
    MulMono(m + 1, q, d);
    assert (q + 1) * d == q * d + d && (m + 1) * d == m * d + d;
  }

  /** A multiple of a larger power of two is a multiple of a smaller one. */
  lemma PowDivides(a: nat, k: nat, m: nat)
    requires a <= k
    ensures m * Pow2(k) % Pow2(a) == 0
  {
    hide Pow2;
    PowSplit(k - a, a);
    var x, y := Pow2(k - a), Pow2(a);
    assert m * (x * y) == (m * x) * y;
    MulMod(m * x, y);
  }

  lemma QuotientBounds(m: nat, d: nat, lo: nat, hi: nat)
    requires d > 0 && lo * d <= m * d < hi * d
    ensures lo <= m < hi
  {
    MulMono(m + 1, lo, d);
    MulMono(hi, m, d);
    assert (m + 1) * d == m * d + d;
  }

  /** The class of a size that is a multiple of `2^align` is itself a multiple of `2^align`. */
  lemma ClassAligned(top: nat, m: nat, align: nat, size: nat)
    requires top >= MIN_K && size == m * Pow2(align) && MIN_SIZE <= size <= Pow2(top + 1)
    ensures ClassSizeTo(top, IndexFromSize(top, size)) % Pow2(align) == 0
  {
    MulMod(m, Pow2(align));
    if size < Pow2(top + 1) {
      if align <= Log2(size) - 2 {
        FineAligned(top, size, align);
      } else {
        IndexByGroup(top, size);
        CoarseExact(top, m, align, Log2(size), size);
      }
    }
  }

  lemma FineAligned(top: nat, size: nat, align: nat)
    requires top >= MIN_K && MIN_SIZE <= size < Pow2(top + 1) && align <= Log2(size) - 2
    ensures ClassSizeTo(top, IndexFromSize(top, size)) % Pow2(align) == 0
  {
    hide Pow2, Log2, ClassSizeTo, IndexFromSize, DivCeil;
    IndexByGroup(top, size);
    var k := Log2(size);
    var j := DivCeil(size - Pow2(k), Pow2(k - 2));
    GroupSize(top, k, j);
    assert 4 * Pow2(k - 2) + j * Pow2(k - 2) == (4 + j) * Pow2(k - 2);
    PowDivides(align, k - 2, 4 + j);
  }

  /** A size aligned to half its group or more is a class size already. */
  lemma CoarseExact(top: nat, m: nat, align: nat, k: nat, size: nat)
    requires MIN_K <= k <= top && align > k - 2 && size == m * Pow2(align)
    requires Pow2(k) <= size < Pow2(k + 1) && MIN_SIZE <= size <= Pow2(top + 1)
    ensures ClassSizeTo(top, IndexFromSize(top, size)) == size
  {
    hide ClassSizeTo, IndexFromSize, Pow2;
    QuarterExact(k);
    PowNext(k);
    PowNext(k - 1);
    PowNext(k - 2);
    if align > k { PowMono(k + 1, align); }
    MulMono(1, m, Pow2(align));
    var j: nat;
    if align == k {
      QuotientBounds(m, Pow2(k), 1, 2);
      j := 0;
    } else {
      QuotientBounds(m, Pow2(k - 1), 2, 4);
      j := (m - 2) * 2;
    }
    GroupSize(top, k, j);
    IndexOfSize(top, (k - MIN_K) * SUB_STEPS + j);
  }

  /**
   What a layout of nonzero size gets: the least class that holds the size and is a multiple of the
   alignment; and a layout gets no class exactly when its rounded size exceeds the largest one.
   */
  lemma ClassIndexRight(top: nat, size: nat, align: nat)
    requires top >= MIN_K && size > 0
    ensures ClassIndexTo(top, size, align).None? <==> NextMultiple(size, Pow2(align)) > Pow2(top + 1)
    ensures ClassIndexTo(top, size, align).Some? ==>
              var i := ClassIndexTo(top, size, align).value;
              && i <= Regular(top)
              && size <= ClassSizeTo(top, i) && ClassSizeTo(top, i) % Pow2(align) == 0
              && (forall j :: 0 <= j < i ==> !(size <= ClassSizeTo(top, j) && ClassSizeTo(top, j) % Pow2(align) == 0))
              && 4 * (ClassSizeTo(top, i) - Max(NextMultiple(size, Pow2(align)), MIN_SIZE))
                 <= Max(NextMultiple(size, Pow2(align)), MIN_SIZE)
  {
    var d, r := Pow2(align), NextMultiple(size, Pow2(align));
    DivCeilBounds(size, d);
    var n := Max(r, MIN_SIZE);
    PowMono(MIN_K, top + 1);
    if n <= Pow2(top + 1) {
      LookupExact(top, n);
      IndexIsLeastFit(top, n);
      WasteAtMostQuarter(top, n);
      var i := IndexFromSize(top, n);
      hide ClassSizeTo, IndexFromSize, Pow2, NextMultiple, LeastFit;
      if r < MIN_SIZE {
        SmallestFits(top, size, align);
        LeastFitUnique(top, 8, 0, i);
      } else {
        assert ClassSizeTo(top, i) % d == 0 by { ClassAligned(top, DivCeil(size, d), align, n); }
        forall j | 0 <= j < i ensures !(size <= ClassSizeTo(top, j) && ClassSizeTo(top, j) % d == 0) {
          FitBelow(top, n, i, j);
          NoMultipleBetween(size, ClassSizeTo(top, j), d);
        }
      }
    }
  }

  lemma FitBelow(top: nat, size: nat, i: nat, j: nat)
    requires top >= MIN_K && LeastFit(top, size, i) && j < i
    ensures ClassSizeTo(top, j) < size
  {
  }

  /** Anything that rounds to less than eight bytes has the smallest class, which is aligned for it. */
  lemma SmallestFits(top: nat, size: nat, align: nat)
    requires top >= MIN_K && size > 0 && NextMultiple(size, Pow2(align)) < MIN_SIZE
    ensures LeastFit(top, 8, 0) && ClassSizeTo(top, 0) == 8 && 8 % Pow2(align) == 0 && size <= 8
  {
    var d := Pow2(align);
    DivCeilBounds(size, d);
    MulMono(1, DivCeil(size, d), d);
    if align >= 3 { PowMono(3, align); }
    PowDivides(align, 3, 1);
  }

  /** No multiple of `d` lies in `[size, NextMultiple(size, d))`. */
  lemma NoMultipleBetween(size: nat, x: nat, d: nat)
    requires d > 0 && x < NextMultiple(size, d)
    ensures !(size <= x && x % d == 0)
  {
    var q, c := x / d, DivCeil(size, d);
    assert x == q * d + x % d;
    DivCeilBounds(size, d);
    MulMono(c, q, d);
    MulMono(q + 1, c, d);
    assert (q + 1) * d == q * d + d;
  }
}
