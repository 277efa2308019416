/**
 The intrusive doubly-linked list of slabs. A node's back pointer does not point at the previous
 node but at the link cell that holds the node: the list head, or the previous node's forward link.
 That is why a slab can be removed without being told which list it is in.
 */
module SlabList {
  import opened Tiling

  /** A place that can hold a slab: a list head or a forward link. */
  class Cell {
    var target: Node?

    constructor ()
      ensures target == null
    {
      target := null;
    }
  }

  /** A slab header, as far as lists are concerned. */
  class Node {
    const next: Cell                  // the address of `next_link`
    var prev: Cell?                   // `prev_link`

    constructor ()
      ensures fresh(next) && next.target == null && prev == null
    {
      next := new Cell();
      prev := null;
    }
  }

  /**
   The list `q` whose head is `cells[0]`: cell `i` holds node `i`, the back pointer of node `i`
   names exactly that cell, and the forward link of node `i` is cell `i + 1`.
   */
  ghost predicate IsList(cells: seq<Cell>, q: seq<Node>)
    reads cells, q
  {
    && |cells| == |q| + 1 && NoDup(cells)
    && (forall i {:trigger q[i].next} {:trigger q[i].prev} :: 0 <= i < |q| ==>
          q[i].next == cells[i + 1] && q[i].prev == cells[i])
    && (forall i {:trigger cells[i].target} :: 0 <= i < |q| ==> cells[i].target == q[i])
    && cells[|q|].target == null
  }

  /** Nodes with different forward links are different. */
  lemma NodesDiffer(cells: seq<Cell>, q: seq<Node>)
    requires |cells| == |q| + 1 && NoDup(cells)
    requires forall i {:trigger q[i].next} :: 0 <= i < |q| ==> q[i].next == cells[i + 1]
    ensures NoDup(q)
  {
    forall i, j | 0 <= i < j < |q| ensures q[i] != q[j] {
      assert q[i].next == cells[i + 1] && q[j].next == cells[j + 1];
    }
  }

  /**
   `slab_list_remove` is delete, wherever the slab is. The list is a ghost argument: the code
   follows the back pointer only.
   */
  method Remove(slab: Node, ghost cells: seq<Cell>, ghost q: seq<Node>, ghost k: nat)
    requires IsList(cells, q) && k < |q| && q[k] == slab
    modifies slab, slab.next, slab.prev, slab.next.target
    ensures IsList(Without(cells, k + 1), Without(q, k))
    ensures slab.next.target == null && slab.prev == null
  {
    NodesDiffer(cells, q);
    var prev := slab.prev;
    var next := slab.next.target;
    assert prev == cells[k] && slab.next == cells[k + 1];
    assert cells[k + 1].target == next && (k + 1 < |q| ==> next == q[k + 1]) && (k + 1 == |q| ==> next == null);
    prev.target := next;
    if next != null {
      next.prev := prev;
    }
    slab.next.target := null;
    slab.prev := null;
    Relinked(cells, q, k);
  }

  /** The list with node `k` bypassed is a list. */
  lemma Relinked(cells: seq<Cell>, q: seq<Node>, k: nat)
    requires k < |q| && |cells| == |q| + 1 && NoDup(cells)
    requires forall i {:trigger q[i].next} :: 0 <= i < |q| ==> q[i].next == cells[i + 1]
    requires forall i {:trigger q[i].prev} :: 0 <= i < |q| && i != k ==> q[i].prev == cells[if i == k + 1 then k else i]
    requires forall i {:trigger cells[i].target} :: 0 <= i < |q| && i != k && i != k + 1 ==> cells[i].target == q[i]
    requires cells[k].target == if k + 1 < |q| then q[k + 1] else null
    requires k + 1 < |q| ==> cells[|q|].target == null
    ensures IsList(Without(cells, k + 1), Without(q, k))
  {
    var cs, r := Without(cells, k + 1), Without(q, k);
    assert forall i :: 0 <= i < |cs| ==> cs[i] == cells[if i <= k then i else i + 1];
    assert forall i :: 0 <= i < |r| ==> r[i] == q[if i < k then i else i + 1];
    forall i | 0 <= i < |r| ensures r[i].next == cs[i + 1] && r[i].prev == cs[i] && cs[i].target == r[i] {
      var j := if i < k then i else i + 1;
      assert q[j].next == cells[j + 1] && q[j].prev == cells[if j == k + 1 then k else j];
    }
  }

  /** `slab_list_push` is cons. */
  method Push(head: Cell, slab: Node, ghost cells: seq<Cell>, ghost q: seq<Node>)
    requires IsList(cells, q) && cells[0] == head && slab.next !in cells
    modifies head, slab, slab.next, head.target
    ensures IsList([head, slab.next] + cells[1..], [slab] + q)
  {
    NodesDiffer(cells, q);
    assert forall i :: 0 <= i < |q| ==> q[i].next in cells;
    var old_head := head.target;
    assert |q| > 0 ==> old_head == q[0];
    slab.next.target := old_head;
    slab.prev := head;
    if old_head != null {
      old_head.prev := slab.next;
    }
    head.target := slab;
    Consed(cells, q, slab);
  }

  lemma Consed(cells: seq<Cell>, q: seq<Node>, slab: Node)
    requires |cells| == |q| + 1 && NoDup(cells) && slab.next !in cells
    requires forall i {:trigger q[i].next} :: 0 <= i < |q| ==> q[i].next == cells[i + 1]
    requires forall i {:trigger q[i].prev} :: 0 <= i < |q| ==> q[i].prev == if i == 0 then slab.next else cells[i]
    requires forall i {:trigger cells[i].target} :: 1 <= i < |q| ==> cells[i].target == q[i]
    requires cells[0].target == slab && slab.prev == cells[0]
    requires slab.next.target == if |q| > 0 then q[0] else null
    requires |q| > 0 ==> cells[|q|].target == null
    ensures IsList([cells[0], slab.next] + cells[1..], [slab] + q)
  {
    var cs, r := [cells[0], slab.next] + cells[1..], [slab] + q;
    assert forall i :: 2 <= i < |cs| ==> cs[i] == cells[i - 1];
    forall i | 0 < i < |r| ensures r[i].next == cs[i + 1] && r[i].prev == cs[i] && cs[i].target == r[i] {
      assert q[i - 1].next == cells[i];
      assert q[i - 1].prev == if i == 1 then slab.next else cells[i - 1];
    }
  }

  /** `slab_list_pop` is tail. */
  method Pop(head: Cell, ghost cells: seq<Cell>, ghost q: seq<Node>) returns (slab: Node?)
    requires IsList(cells, q) && cells[0] == head
    modifies head, head.target, if head.target == null then {} else {head.target.next},
             if head.target == null || head.target.next.target == null then {} else {head.target.next.target}
    ensures slab == null <==> q == []
    ensures q == [] ==> IsList(cells, q)
    ensures q != [] ==> slab == q[0] && IsList(Without(cells, 1), Without(q, 0)) && Without(cells, 1)[0] == head
                        && slab.next.target == null && slab.prev == null
  {
    slab := head.target;
    if slab == null {
      return;
    }
    NodesDiffer(cells, q);
    assert slab == q[0] && slab.next == cells[1];
    head.target := slab.next.target;
    if head.target != null {
      head.target.prev := head;
    }
    slab.next.target := null;
    slab.prev := null;
    Relinked(cells, q, 0);
  }

  /** A list that shares no cell with the one the slab is in does not notice the removal. */
  method RemoveBeside(slab: Node, ghost cells: seq<Cell>, ghost q: seq<Node>, ghost k: nat,
                      ghost others: seq<Cell>, ghost r: seq<Node>)
    requires IsList(cells, q) && k < |q| && q[k] == slab
    requires IsList(others, r) && forall c :: c in others ==> c !in cells
    modifies slab, slab.next, slab.prev, slab.next.target
    ensures IsList(Without(cells, k + 1), Without(q, k)) && IsList(others, r)
    ensures slab.next.target == null && slab.prev == null
  {
    assert forall i :: 0 <= i < |q| ==> q[i].next in cells;
    assert forall i :: 0 <= i < |r| ==> r[i].next in others && r[i] !in q;
    assert slab.prev in cells && slab.next in cells;
    assert slab.next.target != null ==> slab.next.target == q[k + 1];
    Remove(slab, cells, q, k);
  }
}
