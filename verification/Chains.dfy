/**
 Singly linked chains whose next-pointers live in the elements themselves.
 */
module Chains {
  import opened Places
  import opened Tiling

  /** Following the links from `h` visits exactly `q`, and ends. */
  predicate Chain<K(==)>(link: map<K, Option<K>>, h: Option<K>, q: seq<K>)
    decreases |q|
  {
    if q == [] then h.None?
    else h == Some(q[0]) && q[0] in link && Chain(link, link[q[0]], q[1..])
  }

  /** A write to an element outside the chain does not disturb it. */
  lemma {:induction false} ChainFrame<K>(link: map<K, Option<K>>, h: Option<K>, q: seq<K>, x: K, v: Option<K>)
    requires Chain(link, h, q) && x !in q
    ensures Chain(link[x := v], h, q)
    decreases |q|
  {
    if q != [] {
      ChainFrame(link, link[q[0]], q[1..], x, v);
    }
  }

  /** Memory determines the chain. */
  lemma {:induction false} ChainUnique<K>(link: map<K, Option<K>>, h: Option<K>, q: seq<K>, r: seq<K>)
    requires Chain(link, h, q) && Chain(link, h, r)
    ensures q == r
    decreases |q|
  {
    if q != [] {
      ChainUnique(link, link[q[0]], q[1..], r[1..]);
      assert q == [q[0]] + q[1..] && r == [r[0]] + r[1..];
    }
  }

  /** The chain from the middle on. */
  lemma {:induction false} ChainSuffix<K>(link: map<K, Option<K>>, h: Option<K>, q: seq<K>, i: nat)
    requires Chain(link, h, q) && 0 < i <= |q|
    ensures q[i - 1] in link && Chain(link, link[q[i - 1]], q[i..])
    decreases i
  {
    if i > 1 {
      ChainSuffix(link, link[q[0]], q[1..], i - 1);
      assert q[1..][i - 1..] == q[i..];
    }
  }

  /** Redirecting the link of element `i - 1` replaces the rest of the chain. */
  lemma {:induction false} ChainSplice<K>(link: map<K, Option<K>>, h: Option<K>, q: seq<K>, i: nat, v: Option<K>,
      r: seq<K>)
    requires Chain(link, h, q) && 0 < i <= |q| && NoDup(q)
    requires Chain(link, v, r) && q[i - 1] !in r
    ensures Chain(link[q[i - 1] := v], h, q[..i] + r)
    decreases i
  {
    var link' := link[q[i - 1] := v];
    var s := q[..i] + r;
    if i == 1 {
      assert s[1..] == r;
      ChainFrame(link, v, r, q[0], v);
    } else {
      ChainSplice(link, link[q[0]], q[1..], i - 1, v, r);
      assert s[1..] == q[1..][..i - 1] + r;
      assert q[0] != q[i - 1];
    }
  }

  /** Following the links from `h` visits `q` without repetition, and `q` is the only such sequence. */
  ghost predicate Visits<K(!new)>(link: map<K, Option<K>>, h: Option<K>, q: seq<K>) {
    Chain(link, h, q) && NoDup(q) && forall r :: Chain(link, h, r) ==> r == q
  }

  lemma VisitsOnly<K(!new)>(link: map<K, Option<K>>, h: Option<K>, q: seq<K>)
    requires Chain(link, h, q) && NoDup(q)
    ensures Visits(link, h, q)
  {
    forall r | Chain(link, h, r) ensures r == q { ChainUnique(link, h, r, q); }
  }
}
