/**
 `PageFreeList`: free pages chained through their own first words, with a removal that walks the
 chain with a pointer to the link it came from.
 */
module PageList {
  import opened Places
  import opened Tiling
  import opened Chains
  import opened PoolSections

  /** What `cursor: *mut Link` can point at. */
  datatype LinkRef = HeadOf | WordOf(page: Page)

  lemma OutsideDrop(base: nat, q: seq<Page>)
    requires q != [] && InSegment(base, q[0])
    ensures OutsideOf(base, q) == OutsideOf(base, q[1..])
  {
  }

  lemma OutsideKeep(base: nat, kept: seq<Page>, q: seq<Page>)
    requires q != [] && !InSegment(base, q[0])
    ensures kept + OutsideOf(base, q) == (kept + [q[0]]) + OutsideOf(base, q[1..])
  {
    Associative(kept, [q[0]], OutsideOf(base, q[1..]));
  }

  lemma Associative(a: seq<Page>, b: seq<Page>, c: seq<Page>)
    ensures a + (b + c) == (a + b) + c
  {
  }

  /** The word of the first page after the cursor. */
  lemma NextOf(words: map<Page, Option<Page>>, head: Option<Page>, kept: seq<Page>, rest: seq<Page>)
    requires rest != [] && Chain(words, head, kept + rest)
    ensures rest[0] in words && words[rest[0]] == if |rest| == 1 then None else Some(rest[1])
  {
    var q, i := kept + rest, |kept|;
    ChainSuffix(words, head, q, i + 1);
    assert q[i] == rest[0] && q[i + 1..] == rest[1..];
  }

  class PageFreeList {
    var words: map<Page, Option<Page>>    // first word of every page
    var head: Option<Page>
    var len: nat
    ghost var Contents: seq<Page>

    ghost predicate Valid()
      reads this
    {
      Chain(words, head, Contents) && NoDup(Contents) && len == |Contents|
    }

    constructor ()
      ensures Valid() && Contents == []
    {
      words, head, len, Contents := map[], None, 0, [];
    }

    method Push(p: Page)
      requires Valid() && p !in Contents
      modifies this
      ensures Valid() && Contents == [p] + old(Contents)
    {
      ChainFrame(words, head, Contents, p, head);
      words := words[p := head];
      head := Some(p);
      len := len + 1;
      Contents := [p] + Contents;
      assert Contents[1..] == old(Contents);
    }

    method Pop() returns (r: Option<Page>)
      requires Valid()
      modifies this
      ensures Valid()
      ensures if old(Contents) == [] then r == None && Contents == []
              else r == Some(old(Contents)[0]) && Contents == old(Contents)[1..]
    {
      r := head;
      if r.Some? {
        head := words[r.value];
        len := len - 1;
        Contents := Contents[1..];
      }
    }

    /**
     `remove_if` with the predicate of `remove_segment_slabs`: the pages of one segment leave, the rest
     keep their order.
     */
    method RemoveSegment(base: nat)
      requires Valid()
      modifies this
      ensures Valid() && Contents == OutsideOf(base, old(Contents))
    {
      var cursor, current := HeadOf, head;          // `cursor` and `*cursor`
      ghost var kept, rest := [], Contents;         // what the cursor has passed, what it has not
      ghost var q := Contents;
      hide OutsideOf, NoDup, InSegment, Walking;
      WalkBegins(words, head, len, q);
      OutsideNone(base, OutsideOf(base, q));
      hide Chain;
      while current.Some?
        invariant Walking(words, head, len, cursor, current, kept, rest)
        invariant OutsideOf(base, q) == kept + OutsideOf(base, rest)
        decreases |rest|
      {
        AtCursor(words, head, len, cursor, current, kept, rest);
        var slab := current.value;
        var next := words[slab];
        if InSegment(base, slab) {
          StepOut(words, head, len, cursor, current, kept, rest);
          OutsideDrop(base, rest);
          match cursor {
            case HeadOf => head := next;
            case WordOf(p) => words := words[p := next];
          }
          len := len - 1;
        } else {
          StepOver(words, head, len, cursor, current, kept, rest);
          OutsideKeep(base, kept, rest);
          cursor := WordOf(slab);
          kept := kept + [slab];
        }
        current := next;
        rest := rest[1..];
      }
      WalkedAll(words, head, len, cursor, kept, rest);
      OutsideNone(base, kept);
      Contents := kept;
    }
  }

  /** The walk: `kept` is behind the cursor, `rest` ahead of it. */
  ghost predicate Walking(words: map<Page, Option<Page>>, head: Option<Page>, len: nat, cursor: LinkRef,
                          current: Option<Page>, kept: seq<Page>, rest: seq<Page>) {
    && Chain(words, head, kept + rest) && NoDup(kept + rest) && len == |kept| + |rest|
    && cursor == (if kept == [] then HeadOf else WordOf(kept[|kept| - 1]))
    && current == (if rest == [] then None else Some(rest[0]))
  }

  lemma AtCursor(words: map<Page, Option<Page>>, head: Option<Page>, len: nat, cursor: LinkRef, current: Option<Page>,
                 kept: seq<Page>, rest: seq<Page>)
    requires Walking(words, head, len, cursor, current, kept, rest) && current.Some?
    ensures rest != [] && current.value == rest[0] && rest[0] in words && len > 0
  {
    NextOf(words, head, kept, rest);
  }

  lemma StepOver(words: map<Page, Option<Page>>, head: Option<Page>, len: nat, cursor: LinkRef, current: Option<Page>,
                 kept: seq<Page>, rest: seq<Page>)
    requires Walking(words, head, len, cursor, current, kept, rest) && rest != [] && rest[0] in words
    ensures Walking(words, head, len, WordOf(rest[0]), words[rest[0]], kept + [rest[0]], rest[1..])
  {
    NextOf(words, head, kept, rest);
    assert (kept + [rest[0]]) + rest[1..] == kept + rest;
  }

  lemma StepOut(words: map<Page, Option<Page>>, head: Option<Page>, len: nat, cursor: LinkRef, current: Option<Page>,
                kept: seq<Page>, rest: seq<Page>)
    requires Walking(words, head, len, cursor, current, kept, rest) && rest != [] && rest[0] in words && len > 0
    ensures cursor.HeadOf? ==> Walking(words, words[rest[0]], len - 1, cursor, words[rest[0]], kept, rest[1..])
    ensures cursor.WordOf? ==>
              Walking(words[cursor.page := words[rest[0]]], head, len - 1, cursor, words[rest[0]], kept, rest[1..])
  {
    hide Chain, NoDup;
    Unlinked(words, head, kept, rest);
  }

  lemma WalkedAll(words: map<Page, Option<Page>>, head: Option<Page>, len: nat, cursor: LinkRef,
                  kept: seq<Page>, rest: seq<Page>)
    requires Walking(words, head, len, cursor, None, kept, rest)
    ensures rest == [] && Chain(words, head, kept) && NoDup(kept) && len == |kept|
  {
    assert kept + [] == kept;
  }

  lemma OutsideNone(base: nat, q: seq<Page>)
    ensures q + OutsideOf(base, []) == q && [] + q == q
  {
  }

  lemma WalkBegins(words: map<Page, Option<Page>>, head: Option<Page>, len: nat, q: seq<Page>)
    requires Chain(words, head, q) && NoDup(q) && len == |q|
    ensures Walking(words, head, len, HeadOf, head, [], q)
  {
    assert [] + q == q;
  }

  /** Bypassing the first element of `rest`. */
  lemma Unlinked(words: map<Page, Option<Page>>, head: Option<Page>, kept: seq<Page>, rest: seq<Page>)
    requires rest != [] && Chain(words, head, kept + rest) && NoDup(kept + rest) && rest[0] in words
    ensures NoDup(kept + rest[1..])
    ensures kept == [] ==> Chain(words, words[rest[0]], kept + rest[1..])
    ensures kept != [] ==> Chain(words[kept[|kept| - 1] := words[rest[0]]], head, kept + rest[1..])
    ensures words[rest[0]] == if rest[1..] == [] then None else Some(rest[1])
  {
    var q, i := kept + rest, |kept|;
    assert kept + rest[1..] == q[..i] + q[i + 1..];
    assert q[i] == rest[0];
    ChainSuffix(words, head, q, i + 1);
    assert q[i + 1..] == rest[1..];
    if kept == [] {
      assert q == rest && kept + rest[1..] == rest[1..];
    } else {
      assert q[i - 1] == kept[i - 1];
      assert forall j :: i + 1 <= j < |q| ==> q[j] != q[i - 1];
      ChainSplice(words, head, q, i, words[rest[0]], rest[1..]);
      assert q[..i] == kept;
    }
  }
}
