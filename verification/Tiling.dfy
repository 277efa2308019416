/**
 Families of lists that never share an element.

 The allocator keeps every page (and every slot) on exactly one list: a free list, a queue, a
 stack, a buffer. A family of lists is a map from the name of a list to its contents, where an
 absent name stands for the empty list. The family is `Tiled` by a map `where` when `where` says,
 for every element, the one list and the one position that hold it.
 */
module Tiling {

  /** The list called `a`. */
  function At<P(==), K>(m: map<P, seq<K>>, a: P): seq<K> {
    if a in m then m[a] else []
  }

  function Without<K>(q: seq<K>, i: nat): seq<K>
    requires i < |q|
  {
    q[..i] + q[i + 1..]
  }

  /** Unlink position `i` of list `a` and push the element on the front of list `b`. */
  function Shift<P(==), K>(m: map<P, seq<K>>, a: P, i: nat, b: P): map<P, seq<K>>
    requires i < |At(m, a)|
  {
    m[a := Without(At(m, a), i)][b := [At(m, a)[i]] + At(m, b)]
  }

  lemma ShiftAt<P(!new), K>(m: map<P, seq<K>>, a: P, i: nat, b: P)
    requires i < |At(m, a)| && a != b
    ensures At(Shift(m, a, i, b), a) == Without(At(m, a), i)
    ensures At(Shift(m, a, i, b), b) == [At(m, a)[i]] + At(m, b)
    ensures forall c: P {:trigger At(Shift(m, a, i, b), c)} :: c != a && c != b ==> At(Shift(m, a, i, b), c) == At(m, c)
  {
  }

  /** Move the whole of list `a` to list `b`, as an atomic swap with the empty list does. */
  function Pour<P(==), K>(m: map<P, seq<K>>, a: P, b: P): map<P, seq<K>> {
    m[a := []][b := At(m, a)]
  }

  ghost predicate NoDup<K>(q: seq<K>) {
    forall i, j :: 0 <= i < j < |q| ==> q[i] != q[j]
  }

  ghost predicate Tiled<P(!new), K(!new)>(m: map<P, seq<K>>, where: map<K, P>) {
    && (forall a: P :: NoDup(At(m, a)))
    && (forall a: P, k: K {:trigger k in At(m, a)} :: k in At(m, a) ==> k in where && where[k] == a)
    && (forall k :: k in where ==> k in At(m, where[k]))
  }

  lemma WithoutMembers<K>(q: seq<K>, i: nat)
    requires i < |q| && NoDup(q)
    ensures NoDup(Without(q, i))
    ensures forall k :: k in Without(q, i) <==> k in q && k != q[i]
  {
    var r := Without(q, i);
    forall k | k in q && k != q[i] ensures k in r {
      var j :| 0 <= j < |q| && q[j] == k;
      assert j < i ==> r[j] == k;
      assert j > i ==> r[j - 1] == k;
    }
  }

  /** One element leaves list `a` and joins list `b`; the tiling follows it. */
  lemma MoveTiled<P(!new), K(!new)>(m: map<P, seq<K>>, m': map<P, seq<K>>, where: map<K, P>, a: P, b: P, k: K)
    requires Tiled(m, where) && a != b && k in At(m, a)
    requires NoDup(At(m', a)) && NoDup(At(m', b))
    requires forall x :: x in At(m', a) <==> x in At(m, a) && x != k
    requires forall x :: x in At(m', b) <==> x in At(m, b) || x == k
    requires forall c: P :: c != a && c != b ==> At(m', c) == At(m, c)
    ensures Tiled(m', where[k := b])
  {
    forall c: P ensures NoDup(At(m', c)) {
      assert NoDup(At(m, c));
    }
    forall c: P, x: K | x in At(m', c) ensures x in where && where[k := b][x] == c {
      assert x in At(m, c) || x in At(m, a);
    }
    forall x | x in where ensures x in At(m', where[k := b][x]) {
      assert x in At(m, where[x]);
    }
  }

  lemma ShiftTiled<P(!new), K(!new)>(m: map<P, seq<K>>, where: map<K, P>, a: P, i: nat, b: P)
    requires Tiled(m, where) && a != b && i < |At(m, a)|
    ensures At(m, a)[i] in where && where[At(m, a)[i]] == a
    ensures Tiled(Shift(m, a, i, b), where[At(m, a)[i] := b])
  {
    var k := At(m, a)[i];
    assert k in At(m, a);
    assert NoDup(At(m, a)) && NoDup(At(m, b)) && k !in At(m, b);
    WithoutMembers(At(m, a), i);
    MoveTiled(m, Shift(m, a, i, b), where, a, b, k);
  }

  /** Everything recorded at `a` is now recorded at `b`. */
  ghost function Renamed<P, K>(where: map<K, P>, a: P, b: P): map<K, P> {
    map k | k in where :: if where[k] == a then b else where[k]
  }

  lemma PourTiled<P(!new), K(!new)>(m: map<P, seq<K>>, where: map<K, P>, a: P, b: P)
    requires Tiled(m, where) && a != b && At(m, b) == []
    ensures Tiled(Pour(m, a, b), Renamed(where, a, b))
  {
    var m' := Pour(m, a, b);
    var w' := Renamed(where, a, b);
    forall c: P ensures NoDup(At(m', c)) {
      assert NoDup(At(m, c)) && NoDup(At(m, a));
    }
    forall c: P, x: K | x in At(m', c) ensures x in w' && w'[x] == c {
      assert c != a;
      assert At(m', c) == if c == b then At(m, a) else At(m, c);
    }
    forall x | x in w' ensures x in At(m', w'[x]) {
      assert x in At(m, where[x]);
    }
  }

  /** New elements arrive at the front of a list. */
  ghost function Joined<P, K>(where: map<K, P>, a: P, q: seq<K>): map<K, P> {
    where + map k | k in q :: a
  }

  lemma NoDupConcat<K>(q: seq<K>, r: seq<K>)
    requires NoDup(q) && NoDup(r) && forall k :: k in r ==> k !in q
    ensures NoDup(q + r)
  {
    forall i, j | 0 <= i < j < |q + r| ensures (q + r)[i] != (q + r)[j] {
      if i < |q| <= j { assert r[j - |q|] in r; }
    }
  }

  lemma GrowTiled<P(!new), K(!new)>(m: map<P, seq<K>>, where: map<K, P>, a: P, q: seq<K>)
    requires Tiled(m, where)
    requires NoDup(q) && forall k :: k in q ==> k !in where
    ensures Tiled(m[a := q + At(m, a)], Joined(where, a, q))
  {
    var m' := m[a := q + At(m, a)];
    var w' := Joined(where, a, q);
    assert NoDup(At(m, a));
    NoDupConcat(q, At(m, a));
    forall c: P ensures NoDup(At(m', c)) {
      assert NoDup(At(m, c));
    }
    forall c: P, x: K | x in At(m', c) ensures x in w' && w'[x] == c {
      assert (x in q && c == a) || x in At(m, c);
    }
    forall x | x in w' ensures x in At(m', w'[x]) {
      assert x in q || x in At(m, where[x]);
    }
  }

  /** Everything at `a` or `b` is forgotten. */
  ghost function Cleared<P, K>(where: map<K, P>, a: P, b: P): map<K, P> {
    map k | k in where && where[k] != a && where[k] != b :: where[k]
  }

  lemma ClearTiled<P(!new), K(!new)>(m: map<P, seq<K>>, where: map<K, P>, a: P, b: P)
    requires Tiled(m, where)
    ensures Tiled(m[a := []][b := []], Cleared(where, a, b))
  {
    var m', w' := m[a := []][b := []], Cleared(where, a, b);
    forall c: P ensures NoDup(At(m', c)) {
      assert NoDup(At(m, c));
    }
    forall c: P, x: K | x in At(m', c) ensures x in w' && w'[x] == c {
      assert x in At(m, c);
    }
    forall x | x in w' ensures x in At(m', w'[x]) {
      assert x in At(m, where[x]);
    }
  }

  lemma NobodyAt<P(!new), K(!new)>(m: map<P, seq<K>>, where: map<K, P>, a: P)
    requires Tiled(m, where) && At(m, a) == []
    ensures forall k :: k in where ==> where[k] != a
  {
  }

  lemma FoundAt<P(!new), K(!new)>(m: map<P, seq<K>>, where: map<K, P>, a: P, i: nat)
    requires Tiled(m, where) && i < |At(m, a)|
    ensures At(m, a)[i] in where && where[At(m, a)[i]] == a
  {
    assert At(m, a)[i] in At(m, a);
  }

  ghost function Elems<K>(q: seq<K>): set<K> {
    set k | k in q
  }

  lemma {:induction false} ElemsSize<K>(q: seq<K>)
    requires NoDup(q)
    ensures |Elems(q)| == |q|
  {
    if q != [] {
      var n := |q| - 1;
      ElemsSize(q[..n]);
      assert q == q[..n] + [q[n]];
      assert Elems(q) == Elems(q[..n]) + {q[n]};
    }
  }

  lemma {:induction false} SubsetSize<K>(a: set<K>, b: set<K>)
    requires a <= b
    ensures |a| <= |b|
    ensures |a| == |b| ==> a == b
  {
    if a != {} {
      var k :| k in a;
      SubsetSize(a - {k}, b - {k});
    } else if b != {} {
      assert |b| > 0;
    }
  }

  /** Two lists that together are as long as the domain they draw from leave nothing elsewhere. */
  lemma TwoListsCover<P(!new), K(!new)>(m: map<P, seq<K>>, where: map<K, P>, a: P, b: P, dom: set<K>)
    requires Tiled(m, where) && a != b
    requires forall k :: k in At(m, a) || k in At(m, b) ==> k in dom
    ensures |At(m, a)| + |At(m, b)| <= |dom|
    ensures |At(m, a)| + |At(m, b)| == |dom| ==>
              forall k :: k in dom ==> k in where && (where[k] == a || where[k] == b)
  {
    var x, y := Elems(At(m, a)), Elems(At(m, b));
    assert NoDup(At(m, a)) && NoDup(At(m, b));
    ElemsSize(At(m, a));
    ElemsSize(At(m, b));
    assert x !! y;
    assert |x + y| == |x| + |y|;
    SubsetSize(x + y, dom);
  }
}
