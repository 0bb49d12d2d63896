/** Histories as lists of call and return entries, in the order of their times. */
module Entries {
  import opened Linearizability
  import opened EntryList

  datatype Entry<+I, +O> =
    | CallEntry(id: nat, input: I, time: int, clientId: int)
    | ReturnEntry(id: nat, output: O, time: int, clientId: int)

  /** Every operation below n has one call and, later, one return. */
  ghost predicate WellFormed<I, O>(h: seq<Entry<I, O>>, n: nat) {
    && |h| == 2 * n
    && (forall i :: 0 <= i < |h| ==> h[i].id < n)
    && (forall i, j :: 0 <= i < j < |h| && h[i].id == h[j].id ==> h[i].CallEntry? && h[j].ReturnEntry?)
    && (forall id: nat :: id < n ==> Called(h, id) && Returned(h, id))
  }

  ghost predicate Called<I, O>(h: seq<Entry<I, O>>, id: nat) {
    exists i :: 0 <= i < |h| && h[i].id == id && h[i].CallEntry?
  }

  ghost predicate Returned<I, O>(h: seq<Entry<I, O>>, id: nat) {
    exists i :: 0 <= i < |h| && h[i].id == id && h[i].ReturnEntry?
  }

  ghost function CallAt<I, O>(h: seq<Entry<I, O>>, id: nat): (i: nat)
    requires Called(h, id)
    ensures i < |h| && h[i].id == id && h[i].CallEntry?
  {
    var i :| 0 <= i < |h| && h[i].id == id && h[i].CallEntry?;
    i
  }

  ghost function ReturnAt<I, O>(h: seq<Entry<I, O>>, id: nat): (i: nat)
    requires Returned(h, id)
    ensures i < |h| && h[i].id == id && h[i].ReturnEntry?
  {
    var i :| 0 <= i < |h| && h[i].id == id && h[i].ReturnEntry?;
    i
  }

  /** The history's operations, with positions in the list for times. */
  ghost function OpsOf<I, O>(h: seq<Entry<I, O>>, n: nat): (ops: seq<Operation<I, O>>)
    requires WellFormed(h, n)
    ensures |ops| == n
    ensures forall x :: 0 <= x < n ==> ops[x].call < ops[x].ret
  {
    seq(n, x requires 0 <= x < n =>
      Operation(h[CallAt(h, x)].clientId, h[CallAt(h, x)].input, CallAt(h, x), h[ReturnAt(h, x)].output, ReturnAt(h,
            x)))
  }

  // ---------- The linked list ----------

  datatype Value<+I, +O> = Input(input: I) | Output(output: O) | NoValue

  function ValueOf<I, O>(e: Entry<I, O>): Value<I, O> {
    match e
    case CallEntry(_, input, _, _) => Input(input)
    case ReturnEntry(_, output, _, _) => Output(output)
  }

  type EntryNode<I, O> = Node<Value<I, O>>

  method InsertBefore<T>(n: Node<T>, mark: Node?<T>) returns (r: Node<T>)
    requires mark != null ==> n != mark && n != mark.prev && mark != mark.prev
    modifies n, mark, if mark != null then mark.prev else null
    ensures r == n
    ensures mark == null ==> n.next == old(n.next) && n.prev == old(n.prev)
    ensures mark != null ==>
              && mark.prev == n && n.next == mark && mark.next == old(mark.next)
              && n.prev == (if old(mark.prev) == null then old(n.prev) else old(mark.prev))
              && (old(mark.prev) != null ==> old(mark.prev).next == n)
  {
    if mark != null {
      var beforeMark := mark.prev;
      mark.prev := n;
      n.next := mark;
      if beforeMark != null {
        n.prev := beforeMark;
        beforeMark.next := n;
      }
    }
    return n;
  }

  lemma Places<I, O>(h: seq<Entry<I, O>>, n: nat, p: nat)
    requires WellFormed(h, n) && p < |h|
    ensures Called(h, h[p].id) && Returned(h, h[p].id) && CallAt(h, h[p].id) < ReturnAt(h, h[p].id)
    ensures p == (if h[p].CallEntry? then CallAt(h, h[p].id) else ReturnAt(h, h[p].id))
  {
  }

  /** The nodes carry the entries from `from` on. */
  ghost predicate Carries<I, O>(h: seq<Entry<I, O>>, nodes: seq<EntryNode<I, O>>, from: nat) {
    && from + |nodes| == |h|
    && forall p {:trigger CarriesAt(h, nodes, from, p)} :: from <= p < |h| ==> CarriesAt(h, nodes, from, p)
  }

  ghost predicate CarriesAt<I, O>(h: seq<Entry<I, O>>, nodes: seq<EntryNode<I, O>>, from: nat, p: int)
    requires from + |nodes| == |h| && from <= p < |h|
  {
    nodes[p - from].id == h[p].id && nodes[p - from].value == ValueOf(h[p])
  }

  /** A call's node leads to the node of its return; a return's node leads nowhere. */
  ghost predicate Matched<I, O>(h: seq<Entry<I, O>>, n: nat, nodes: seq<EntryNode<I, O>>, from: nat)
    requires WellFormed(h, n) && from + |nodes| == |h|
  {
    forall p {:trigger MatchedAt(h, n, nodes, from, p)} :: from <= p < |h| ==> MatchedAt(h, n, nodes, from, p)
  }

  ghost predicate MatchedAt<I, O>(h: seq<Entry<I, O>>, n: nat, nodes: seq<EntryNode<I, O>>, from: nat, p: int)
    requires WellFormed(h, n) && from + |nodes| == |h| && from <= p < |h|
  {
    if h[p].ReturnEntry? then nodes[p - from].match_ == null
    else from < ReturnAt(h, h[p].id) && nodes[p - from].match_ == nodes[ReturnAt(h, h[p].id) - from]
  }

  /** Every return among the nodes is known by its id. */
  ghost predicate Known<I, O>(h: seq<Entry<I, O>>, n: nat, nodes: seq<EntryNode<I, O>>, from: nat,
                              matches: map<nat, EntryNode<I, O>>)
    requires WellFormed(h, n) && from + |nodes| == |h|
  {
    forall p {:trigger h[p]} :: from <= p < |h| && h[p].ReturnEntry? ==>
          h[p].id in matches && matches[h[p].id] == nodes[p - from]
  }

  ghost predicate Chained<T>(nodes: seq<Node<T>>)
    reads nodes
  {
    && (forall i {:trigger nodes[i].next} :: 0 <= i < |nodes| - 1 ==> nodes[i].next == nodes[i + 1])
    && (forall i {:trigger nodes[i].prev} :: 0 < i < |nodes| ==> nodes[i].prev == nodes[i - 1])
    && (nodes != [] ==> nodes[|nodes| - 1].next == null && nodes[0].prev == null)
  }

  /** Insertion before the first node. */
  method PushFront<T>(n: Node<T>, root: Node?<T>, ghost nodes: seq<Node<T>>)
    requires root == (if nodes == [] then null else nodes[0])
    requires Distinct(nodes) && Chained(nodes) && n !in nodes && n.next == null && n.prev == null
    modifies n, nodes
    ensures Chained([n] + nodes)
  {
    if root != null {
      assert forall i :: 0 < i < |nodes| ==> nodes[i] != nodes[0];
    }
    var _ := InsertBefore(n, root);
  }

  lemma MatchedExtends<I, O>(h: seq<Entry<I, O>>, n: nat, nodes: seq<EntryNode<I, O>>, from: nat,
                             entry: EntryNode<I, O>)
    requires WellFormed(h, n) && 0 < from && Carries(h, nodes, from) && Matched(h, n, nodes, from)
    requires entry.id == h[from - 1].id && entry.value == ValueOf(h[from - 1])
    requires if h[from - 1].ReturnEntry? then entry.match_ == null
             else from <= ReturnAt(h, h[from - 1].id) && entry.match_ == nodes[ReturnAt(h, h[from - 1].id) - from]
    ensures Carries(h, [entry] + nodes, from - 1) && Matched(h, n, [entry] + nodes, from - 1)
  {
    var all, first := [entry] + nodes, from - 1;
    forall p | first <= p < |h| ensures CarriesAt(h, all, first, p) && MatchedAt(h, n, all, first, p) {
      assert p >= from ==> CarriesAt(h, nodes, from, p) && MatchedAt(h, n, nodes, from, p);
    }
  }

  lemma KnownExtends<I, O>(h: seq<Entry<I, O>>, n: nat, nodes: seq<EntryNode<I, O>>, from: nat,
                           matches: map<nat, EntryNode<I, O>>, entry: EntryNode<I, O>)
    requires WellFormed(h, n) && 0 < from && from + |nodes| == |h| && Known(h, n, nodes, from, matches)
    ensures Known(h, n, [entry] + nodes, from - 1,
                  if h[from - 1].ReturnEntry? then matches[h[from - 1].id := entry] else matches)
  {
  }

  /** The node for entry from - 1. */
  method NewEntry<I, O>(h: seq<Entry<I, O>>, ghost n: nat, ghost nodes: seq<EntryNode<I, O>>, from: nat,
                        matches: map<nat, EntryNode<I, O>>)
    returns (entry: EntryNode<I, O>, matches': map<nat, EntryNode<I, O>>)
    requires WellFormed(h, n) && 0 < from && Carries(h, nodes, from)
    requires Matched(h, n, nodes, from) && Known(h, n, nodes, from, matches)
    ensures fresh(entry) && entry.next == null && entry.prev == null
    ensures Carries(h, [entry] + nodes, from - 1)
    ensures Matched(h, n, [entry] + nodes, from - 1) && Known(h, n, [entry] + nodes, from - 1, matches')
  {
    var elem := h[from - 1];
    Places(h, n, from - 1);
    if elem.ReturnEntry? {
      entry := new Node(ValueOf(elem), null, elem.id);
      matches' := matches[elem.id := entry];
    } else {
      assert h[ReturnAt(h, elem.id)].id in matches;
      entry := new Node(ValueOf(elem), matches[elem.id], elem.id);
      matches' := matches;
    }
    KnownExtends(h, n, nodes, from, matches, entry);
    MatchedExtends(h, n, nodes, from, entry);
  }

  method MakeLinkedEntries<I, O>(h: seq<Entry<I, O>>, ghost n: nat)
    returns (root: Node?<Value<I, O>>, ghost nodes: seq<EntryNode<I, O>>)
    requires WellFormed(h, n)
    ensures root == (if nodes == [] then null else nodes[0])
    ensures fresh(nodes) && Distinct(nodes) && Chained(nodes) && Carries(h, nodes, 0) && Matched(h, n, nodes, 0)
  {
    root, nodes := null, [];
    var matches: map<nat, EntryNode<I, O>> := map[];
    var i := |h|;
    while i > 0
      invariant 0 <= i <= |h| && root == (if nodes == [] then null else nodes[0])
      invariant fresh(nodes) && Distinct(nodes) && Chained(nodes)
      invariant Carries(h, nodes, i) && Matched(h, n, nodes, i) && Known(h, n, nodes, i, matches)
    {
      var entry: EntryNode<I, O>;
      entry, matches := NewEntry(h, n, nodes, i, matches);
      PushFront(entry, root, nodes);
      root, nodes, i := entry, [entry] + nodes, i - 1;
    }
  }
}
