/**
 The doubly linked list of call and return entries, and its surgery: `Lift` takes a call and its return out,
 `Unlift` puts them back where they were.  The nodes are numbered by their place in the original list, so
 the list is described by the set of numbers that are in it.
 */
module EntryList {

  class Node<T> {
    const value: T
    const match_: Node?<T>  // the return entry of a call; null for a return entry
    const id: int
    var next: Node?<T>
    var prev: Node?<T>

    constructor (value: T, match_: Node?<T>, id: int)
      ensures this.value == value && this.match_ == match_ && this.id == id
      ensures next == null && prev == null
    {
      this.value, this.match_, this.id := value, match_, id;
      next, prev := null, null;
    }
  }

  // ---------- Neighbours in a set of numbers ----------

  ghost predicate Adjacent(s: set<nat>, p: nat, q: nat) {
    p in s && q in s && p < q && forall x :: x in s ==> x <= p || q <= x
  }

  ghost predicate Last(s: set<nat>, p: nat) {
    p in s && forall x :: x in s ==> x <= p
  }

  lemma {:induction false} PrevExists(s: set<nat>, x: nat, low: nat) returns (p: nat)
    requires x in s && low in s && low < x
    ensures low <= p && Adjacent(s, p, x)
    decreases x - low
  {
    if y :| y in s && low < y < x {
      p := PrevExists(s, x, y);
    } else {
      p := low;
    }
  }

  lemma {:induction false} NextExists(s: set<nat>, x: nat, high: nat) returns (q: nat)
    requires x in s && high in s && x < high
    ensures q <= high && Adjacent(s, x, q)
    decreases high - x
  {
    if y :| y in s && x < y < high {
      q := NextExists(s, x, y);
    } else {
      q := high;
    }
  }

  lemma AdjacentWithout(s: set<nat>, x: nat, a: nat, p: nat, q: nat)
    requires Adjacent(s, a, x) && Adjacent(s - {x}, p, q)
    ensures (p == a && Adjacent(s, x, q)) || (Adjacent(s, p, q) && p != x && q != x)
  {
    forall y | y in s && y != x ensures y <= p || q <= y {
      assert y in s - {x};
    }
  }

  // ---------- The list ----------

  ghost predicate Distinct<T>(nodes: seq<Node<T>>) {
    forall i, j :: 0 <= i < j < |nodes| ==> nodes[i] != nodes[j]
  }

  /** The nodes numbered by s are linked in ascending order; node 0 is the head. */
  ghost predicate Linked<T>(nodes: seq<Node<T>>, s: set<nat>)
    reads nodes
  {
    && 0 in s
    && (forall p :: p in s ==> p < |nodes|)
    && (forall p: nat, q: nat :: Adjacent(s, p, q) ==> nodes[p].next == nodes[q] && nodes[q].prev == nodes[p])
    && (forall p: nat :: Last(s, p) ==> nodes[p].next == null)
  }

  /** These are the pointers that node x has when the nodes of s are linked. */
  ghost predicate Neighbours<T>(nodes: seq<Node<T>>, s: set<nat>, x: nat, next: Node?<T>, prev: Node?<T>) {
    && x in s && (forall p :: p in s ==> p < |nodes|)
    && (forall p: nat :: Adjacent(s, p, x) ==> prev == nodes[p])
    && (forall q: nat :: Adjacent(s, x, q) ==> next == nodes[q])
    && (Last(s, x) ==> next == null)
  }

  /** Node x still points at its neighbours in s, whether or not it is in the list. */
  ghost predicate Remembers<T>(nodes: seq<Node<T>>, s: set<nat>, x: nat)
    reads nodes
  {
    x < |nodes| && Neighbours(nodes, s, x, nodes[x].next, nodes[x].prev)
  }

  ghost function Pointers<T>(nodes: seq<Node<T>>): (r: seq<(Node?<T>, Node?<T>)>)
    reads nodes
    ensures |r| == |nodes| && forall i :: 0 <= i < |nodes| ==> r[i] == (nodes[i].next, nodes[i].prev)
  {
    seq(|nodes|, i requires 0 <= i < |nodes| reads nodes => (nodes[i].next, nodes[i].prev))
  }

  /** The pointers of the nodes outside s have not changed. */
  ghost predicate KeepsOutside<T>(before: seq<(Node?<T>, Node?<T>)>, after: seq<(Node?<T>, Node?<T>)>, s: set<nat>) {
    |before| == |after| && forall i: nat {:trigger after[i]} :: i < |before| && i !in s ==> after[i] == before[i]
  }

  method Unlink<T>(n: Node<T>, ghost nodes: seq<Node<T>>, ghost s: set<nat>, ghost x: nat)
    requires Distinct(nodes) && Linked(nodes, s) && x in s && 0 < x && nodes[x] == n
    modifies nodes
    ensures Linked(nodes, s - {x}) && Remembers(nodes, s, x)
    ensures forall i :: 0 <= i < |nodes| && i !in s - {x} ==>
              nodes[i].next == old(nodes[i].next) && nodes[i].prev == old(nodes[i].prev)
  {
    ghost var a := PrevExists(s, x, 0);
    ghost var last := Last(s, x);
    ghost var b := 0;
    if !last {
      ghost var high :| high in s && x < high;
      b := NextExists(s, x, high);
    }
    n.prev.next := n.next;
    if n.next != null {
      n.next.prev := n.prev;
    }
    forall p: nat, q: nat | Adjacent(s - {x}, p, q) ensures nodes[p].next == nodes[q] && nodes[q].prev == nodes[p] {
      AdjacentWithout(s, x, a, p, q);
    }
    forall p: nat | Last(s - {x}, p) ensures nodes[p].next == null {
      forall y | y in s && y != x ensures y <= p {
        assert y in s - {x};
      }
      assert if last then p == a else Last(s, p);
    }
  }

  method Relink<T>(n: Node<T>, ghost nodes: seq<Node<T>>, ghost s: set<nat>, ghost x: nat)
    requires Distinct(nodes) && 0 < x && Remembers(nodes, s, x) && Linked(nodes, s - {x}) && nodes[x] == n
    modifies nodes
    ensures Linked(nodes, s)
    ensures forall i :: 0 <= i < |nodes| && i !in s - {x} ==>
              nodes[i].next == old(nodes[i].next) && nodes[i].prev == old(nodes[i].prev)
  {
    ghost var a := PrevExists(s, x, 0);
    ghost var last := Last(s, x);
    ghost var b := 0;
    if !last {
      ghost var high :| high in s && x < high;
      b := NextExists(s, x, high);
    }
    n.prev.next := n;
    if n.next != null {
      n.next.prev := n;
    }
    forall p: nat, q: nat | Adjacent(s, p, q) ensures nodes[p].next == nodes[q] && nodes[q].prev == nodes[p] {
      if p != x && q != x {
        assert Adjacent(s - {x}, p, q);
      }
    }
    forall p: nat | Last(s, p) ensures nodes[p].next == null {
      assert p != x ==> Last(s - {x}, p);
    }
  }

  /** Takes call c and its return r out of the list. */
  method Lift<T>(entry: Node<T>, ghost nodes: seq<Node<T>>, ghost s: set<nat>, ghost c: nat, ghost r: nat)
    requires Distinct(nodes) && Linked(nodes, s) && c in s && r in s && 0 < c < r
    requires nodes[c] == entry && entry.match_ == nodes[r]
    modifies nodes
    ensures Linked(nodes, s - {c} - {r}) && Remembers(nodes, s, c) && Remembers(nodes, s - {c}, r)
    ensures KeepsOutside(old(Pointers(nodes)), Pointers(nodes), s)
  {
    Unlink(entry, nodes, s, c);
    Unlink(entry.match_, nodes, s - {c}, r);
  }

  /** Puts them back: after the list is again what it was when they were taken out. */
  method Unlift<T>(entry: Node<T>, ghost nodes: seq<Node<T>>, ghost s: set<nat>, ghost c: nat, ghost r: nat)
    requires Distinct(nodes) && Linked(nodes, s - {c} - {r}) && 0 < c < r
    requires Remembers(nodes, s, c) && Remembers(nodes, s - {c}, r)
    requires nodes[c] == entry && entry.match_ == nodes[r]
    modifies nodes
    ensures Linked(nodes, s)
    ensures KeepsOutside(old(Pointers(nodes)), Pointers(nodes), s)
  {
    Relink(entry.match_, nodes, s - {c}, r);
    Relink(entry, nodes, s, c);
  }
}
