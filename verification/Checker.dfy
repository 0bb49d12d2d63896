/** The checker's search: lift an operation, cache the configuration, backtrack at a return. */
module Checker {
  import opened Sets
  import opened Linearizability
  import opened EntryList
  import opened Entries
  import opened Bitset
  import opened SearchSpace

  datatype CallsEntry<I, O, S> = CallsEntry(entry: EntryNode<I, O>, state: S)

  type Cache<S> = map<Word, seq<(Bitset, S)>>

  // ---------- The cache ----------

  ghost predicate Holds<S(!new)>(cache: Cache<S>, seen: set<(Bitset, S)>) {
    forall c :: c in seen <==> Hash(c.0) in cache && c in cache[Hash(c.0)]
  }

  method CacheContains<S(==)>(cache: Cache<S>, c: (Bitset, S)) returns (found: bool)
    ensures found <==> Hash(c.0) in cache && c in cache[Hash(c.0)]
  {
    var hash := Hash(c.0);
    if hash !in cache {
      return false;
    }
    var bucket := cache[hash];
    for i := 0 to |bucket|
      invariant c !in bucket[..i]
    {
      if c.0 == bucket[i].0 && c.1 == bucket[i].1 {
        return true;
      }
    }
    return false;
  }

  function Remember<S>(cache: Cache<S>, c: (Bitset, S)): Cache<S> {
    var hash := Hash(c.0);
    cache[hash := (if hash in cache then cache[hash] else []) + [c]]
  }

  lemma RememberHolds<S(!new)>(cache: Cache<S>, seen: set<(Bitset, S)>, c: (Bitset, S))
    requires Holds(cache, seen)
    ensures Holds(Remember(cache, c), seen + {c})
  {
    var r := Remember(cache, c);
    forall e ensures e in seen + {c} <==> Hash(e.0) in r && e in r[Hash(e.0)] {
    }
  }

  // ---------- Which entries are in the list ----------

  ghost predicate InList<I, O>(h: seq<Entry<I, O>>, placed: set<nat>, q: nat) {
    q == 0 || (q <= |h| && h[q - 1].id !in placed)
  }

  /** The head, and the entries of the operations that have not been placed. */
  ghost function Present<I, O>(h: seq<Entry<I, O>>, placed: set<nat>): (s: set<nat>)
    ensures 0 in s && forall q: nat :: q in s ==> q <= |h|
    ensures forall p: nat {:trigger h[p]} :: p < |h| ==> (p + 1 in s <==> h[p].id !in placed)
  {
    set q: nat | q <= |h| && InList(h, placed, q)
  }

  lemma PresentWithout<I, O>(h: seq<Entry<I, O>>, n: nat, stack: seq<nat>, x: nat)
    requires WellFormed(h, n) && x < n
    ensures Present(h, Placed(stack + [x])) == Present(h, Placed(stack)) - {CallAt(h, x) + 1} - {ReturnAt(h, x) + 1}
  {
    forall q: nat | 0 < q <= |h| ensures q in Present(h, Placed(stack + [x])) <==>
                                         q in Present(h, Placed(stack)) - {CallAt(h, x) + 1} - {ReturnAt(h, x) + 1}
    {
      Places(h, n, q - 1);
    }
  }

  /** After a call that is present comes another entry, and nothing of the rest lies between. */
  lemma AfterCall<I, O>(h: seq<Entry<I, O>>, n: nat, stack: seq<nat>, p: nat) returns (q: nat)
    requires WellFormed(h, n) && p < |h| && h[p].CallEntry? && h[p].id !in stack
    ensures p + 1 < q <= |h| && Adjacent(Present(h, Placed(stack)), p + 1, q)
    ensures forall y :: y in Rest(n, stack) ==> !(p < OpsOf(h, n)[y].call < q - 1) && !(p < OpsOf(h, n)[y].ret < q - 1)
  {
    Places(h, n, p);
    q := NextExists(Present(h, Placed(stack)), p + 1, ReturnAt(h, h[p].id) + 1);
    NothingBetween(h, n, stack, p + 1, q);
  }

  lemma NothingBetween<I, O>(h: seq<Entry<I, O>>, n: nat, stack: seq<nat>, a: nat, q: nat)
    requires WellFormed(h, n) && Adjacent(Present(h, Placed(stack)), a, q)
    ensures forall y :: y in Rest(n, stack) ==>
          !(a <= OpsOf(h, n)[y].call < q - 1) && !(a <= OpsOf(h, n)[y].ret < q - 1)
  {
    forall y | y in Rest(n, stack)
      ensures !(a <= OpsOf(h, n)[y].call < q - 1) && !(a <= OpsOf(h, n)[y].ret < q - 1)
    {
      var c, r := CallAt(h, y), ReturnAt(h, y);
      assert c + 1 in Present(h, Placed(stack)) && r + 1 in Present(h, Placed(stack));
    }
  }

  /** If an operation is left, some entry comes first, and nothing of the rest comes before it. */
  lemma FirstEntry<S, I, O>(m: Model<S, I, O>, h: seq<Entry<I, O>>, n: nat, stack: seq<nat>, s: S) returns (q: nat)
    requires WellFormed(h, n) && Rest(n, stack) != {}
    ensures 0 < q <= |h| && Adjacent(Present(h, Placed(stack)), 0, q)
    ensures Tried(m, OpsOf(h, n), Rest(n, stack), s, q - 1)
  {
    var y :| y in Rest(n, stack);
    q := NextExists(Present(h, Placed(stack)), 0, CallAt(h, y) + 1);
    NothingBetween(h, n, stack, 0, q);
  }

  lemma OnlyHead<I, O>(h: seq<Entry<I, O>>, n: nat, stack: seq<nat>)
    requires WellFormed(h, n) && Rest(n, stack) == {}
    ensures Last(Present(h, Placed(stack)), 0)
  {
    forall q | q in Present(h, Placed(stack)) ensures q == 0 {
      assert q > 0 ==> h[q - 1].id in Below(n);
    }
  }

  // ---------- The list during the search ----------

  /** Node 0 is the head; node p + 1 carries entry p. */
  ghost predicate NodesOf<I, O>(h: seq<Entry<I, O>>, n: nat, nodes: seq<EntryNode<I, O>>) {
    && WellFormed(h, n) && |nodes| == |h| + 1 && Distinct(nodes)
    && nodes[0].match_ == null
    && Carries(h, nodes[1..], 0) && Matched(h, n, nodes[1..], 0)
  }

  /** The two nodes of the operation lifted at level d still know their places. */
  ghost predicate LiftedOk<I, O>(h: seq<Entry<I, O>>, n: nat, nodes: seq<EntryNode<I, O>>,
                                 ptrs: seq<(Node?<Value<I, O>>, Node?<Value<I, O>>)>, stack: seq<nat>, d: nat)
    requires WellFormed(h, n) && |ptrs| == |h| + 1 && d < |stack| && stack[d] < n
  {
    var s, c, r := Present(h, Placed(stack[..d])), CallAt(h, stack[d]) + 1, ReturnAt(h, stack[d]) + 1;
    Neighbours(nodes, s, c, ptrs[c].0, ptrs[c].1) && Neighbours(nodes, s - {c}, r, ptrs[r].0, ptrs[r].1)
  }

  ghost predicate AllLifted<I, O>(h: seq<Entry<I, O>>, n: nat, nodes: seq<EntryNode<I, O>>,
                                  ptrs: seq<(Node?<Value<I, O>>, Node?<Value<I, O>>)>, stack: seq<nat>)
    requires WellFormed(h, n) && |ptrs| == |h| + 1
  {
    && (forall d :: 0 <= d < |stack| ==> stack[d] < n)
    && (forall d {:trigger LiftedOk(h, n, nodes, ptrs, stack, d)} :: 0 <= d < |stack| ==>
          LiftedOk(h, n, nodes, ptrs, stack, d))
  }

  ghost predicate ListOk<I, O>(h: seq<Entry<I, O>>, n: nat, nodes: seq<EntryNode<I, O>>, stack: seq<nat>)
    requires WellFormed(h, n) && |nodes| == |h| + 1
    reads nodes
  {
    && Linked(nodes, Present(h, Placed(stack)))
    && AllLifted(h, n, nodes, Pointers(nodes), stack)
  }

  lemma NodeFacts<I, O>(h: seq<Entry<I, O>>, n: nat, nodes: seq<EntryNode<I, O>>, p: nat)
    requires NodesOf(h, n, nodes) && p < |h|
    ensures nodes[p + 1].id == h[p].id && nodes[p + 1].value == ValueOf(h[p])
    ensures h[p].ReturnEntry? ==> nodes[p + 1].match_ == null
    ensures h[p].CallEntry? ==> ReturnAt(h, h[p].id) < |h| && nodes[p + 1].match_ == nodes[ReturnAt(h, h[p].id) + 1]
  {
    Places(h, n, p);
    assert CarriesAt(h, nodes[1..], 0, p) && MatchedAt(h, n, nodes[1..], 0, p);
    assert nodes[1..][p] == nodes[p + 1];
    assert h[p].CallEntry? ==> nodes[1..][ReturnAt(h, h[p].id)] == nodes[ReturnAt(h, h[p].id) + 1];
  }

  /** Surgery on nodes in the list leaves the lifted ones alone. */
  lemma LiftedSame<I, O>(h: seq<Entry<I, O>>, n: nat, nodes: seq<EntryNode<I, O>>,
                         ptrs: seq<(Node?<Value<I, O>>, Node?<Value<I, O>>)>,
                         ptrs': seq<(Node?<Value<I, O>>, Node?<Value<I, O>>)>,
                         stack: seq<nat>, d: nat)
    requires WellFormed(h, n) && |ptrs| == |ptrs'| == |h| + 1 && d < |stack| && stack[d] < n
    requires LiftedOk(h, n, nodes, ptrs, stack, d)
    requires KeepsOutside(ptrs, ptrs', Present(h, Placed(stack)))
    ensures LiftedOk(h, n, nodes, ptrs', stack, d)
  {
    assert h[CallAt(h, stack[d])].id in stack && h[ReturnAt(h, stack[d])].id in stack;
  }

  lemma AllLiftedPush<I, O>(h: seq<Entry<I, O>>, n: nat, nodes: seq<EntryNode<I, O>>,
                            ptrs: seq<(Node?<Value<I, O>>, Node?<Value<I, O>>)>,
                            ptrs': seq<(Node?<Value<I, O>>, Node?<Value<I, O>>)>,
                            stack: seq<nat>, x: nat)
    requires WellFormed(h, n) && |ptrs| == |ptrs'| == |h| + 1 && x < n && AllLifted(h, n, nodes, ptrs, stack)
    requires KeepsOutside(ptrs, ptrs', Present(h, Placed(stack)))
    requires LiftedOk(h, n, nodes, ptrs', stack + [x], |stack|)
    ensures AllLifted(h, n, nodes, ptrs', stack + [x])
  {
    var more := stack + [x];
    forall d | 0 <= d < |more| ensures LiftedOk(h, n, nodes, ptrs', more, d) {
      if d < |stack| {
        assert LiftedOk(h, n, nodes, ptrs, stack, d);
        LiftedSame(h, n, nodes, ptrs, ptrs', stack, d);
        LiftedBelow(h, n, nodes, ptrs', stack, x, d);
      }
    }
  }

  /** What lies deeper in the stack does not depend on its top. */
  lemma LiftedBelow<I, O>(h: seq<Entry<I, O>>, n: nat, nodes: seq<EntryNode<I, O>>,
                          ptrs: seq<(Node?<Value<I, O>>, Node?<Value<I, O>>)>, stack: seq<nat>, x: nat, d: nat)
    requires WellFormed(h, n) && |ptrs| == |h| + 1 && d < |stack| && stack[d] < n
    ensures LiftedOk(h, n, nodes, ptrs, stack + [x], d) <==> LiftedOk(h, n, nodes, ptrs, stack, d)
  {
    assert (stack + [x])[..d] == stack[..d];
  }

  lemma AllLiftedPop<I, O>(h: seq<Entry<I, O>>, n: nat, nodes: seq<EntryNode<I, O>>,
                           ptrs: seq<(Node?<Value<I, O>>, Node?<Value<I, O>>)>,
                           ptrs': seq<(Node?<Value<I, O>>, Node?<Value<I, O>>)>,
                           stack: seq<nat>, x: nat)
    requires WellFormed(h, n) && |ptrs| == |ptrs'| == |h| + 1 && AllLifted(h, n, nodes, ptrs, stack + [x])
    requires KeepsOutside(ptrs, ptrs', Present(h, Placed(stack)))
    ensures AllLifted(h, n, nodes, ptrs', stack)
  {
    var more := stack + [x];
    assert forall d :: 0 <= d < |stack| ==> stack[d] == more[d];
    forall d | 0 <= d < |stack| ensures LiftedOk(h, n, nodes, ptrs', stack, d) {
      assert LiftedOk(h, n, nodes, ptrs, more, d);
      LiftedBelow(h, n, nodes, ptrs, stack, x, d);
      LiftedSame(h, n, nodes, ptrs, ptrs', stack, d);
    }
  }

  /** Lifting operation x goes one level down. */
  method LiftOperation<I, O>(entry: EntryNode<I, O>, ghost h: seq<Entry<I, O>>, ghost n: nat,
                             ghost nodes: seq<EntryNode<I, O>>,
                             ghost stack: seq<nat>, ghost x: nat)
    requires NodesOf(h, n, nodes) && ListOk(h, n, nodes, stack) && x < n && x !in stack
    requires entry == nodes[CallAt(h, x) + 1]
    modifies nodes
    ensures ListOk(h, n, nodes, stack + [x])
  {
    ghost var s := Present(h, Placed(stack));
    ghost var before := Pointers(nodes);
    LiftReady(h, n, nodes, stack, x);
    Lift(entry, nodes, s, CallAt(h, x) + 1, ReturnAt(h, x) + 1);
    LiftDone(h, n, nodes, before, stack, x);
  }

  lemma LiftReady<I, O>(h: seq<Entry<I, O>>, n: nat, nodes: seq<EntryNode<I, O>>, stack: seq<nat>, x: nat)
    requires NodesOf(h, n, nodes) && x < n && x !in stack
    ensures var s, c, r := Present(h, Placed(stack)), CallAt(h, x) + 1, ReturnAt(h, x) + 1;
            && c in s && r in s && 0 < c < r < |nodes| && nodes[c].match_ == nodes[r]
  {
    MatchFacts(h, n, nodes, x);
    PresentWithout(h, n, stack, x);
  }

  /** After the surgery: the list without the operation, whose nodes remember where they were. */
  lemma LiftDone<I, O>(h: seq<Entry<I, O>>, n: nat, nodes: seq<EntryNode<I, O>>,
                       before: seq<(Node?<Value<I, O>>, Node?<Value<I, O>>)>, stack: seq<nat>, x: nat)
    requires NodesOf(h, n, nodes) && x < n && x !in stack && |before| == |h| + 1
          && AllLifted(h, n, nodes, before, stack)
    requires var s, c, r := Present(h, Placed(stack)), CallAt(h, x) + 1, ReturnAt(h, x) + 1;
             && c < |nodes| && r < |nodes|
             && Linked(nodes, s - {c} - {r}) && Remembers(nodes, s, c) && Remembers(nodes, s - {c}, r)
             && KeepsOutside(before, Pointers(nodes), s)
    ensures ListOk(h, n, nodes, stack + [x])
  {
    PresentWithout(h, n, stack, x);
    LiftedTop(h, n, nodes, Pointers(nodes), stack, x);
    AllLiftedPush(h, n, nodes, before, Pointers(nodes), stack, x);
  }

  lemma LiftedTop<I, O>(h: seq<Entry<I, O>>, n: nat, nodes: seq<EntryNode<I, O>>,
                        ptrs: seq<(Node?<Value<I, O>>, Node?<Value<I, O>>)>, stack: seq<nat>, x: nat)
    requires WellFormed(h, n) && x < n && |ptrs| == |h| + 1
    ensures var s, c, r := Present(h, Placed(stack)), CallAt(h, x) + 1, ReturnAt(h, x) + 1;
            LiftedOk(h, n, nodes, ptrs, stack + [x], |stack|) <==>
            (Neighbours(nodes, s, c, ptrs[c].0, ptrs[c].1) && Neighbours(nodes, s - {c}, r, ptrs[r].0, ptrs[r].1))
  {
    assert (stack + [x])[..|stack|] == stack;
  }

  lemma UnliftReady<I, O>(h: seq<Entry<I, O>>, n: nat, nodes: seq<EntryNode<I, O>>, stack: seq<nat>, x: nat)
    returns (s: set<nat>, c: nat, r: nat)
    requires NodesOf(h, n, nodes) && x < n && ListOk(h, n, nodes, stack + [x])
    ensures s == Present(h, Placed(stack)) && c == CallAt(h, x) + 1 && r == ReturnAt(h, x) + 1
    ensures c < r < |nodes| && nodes[c].match_ == nodes[r]
    ensures Linked(nodes, s - {c} - {r}) && Remembers(nodes, s, c) && Remembers(nodes, s - {c}, r)
  {
    s, c, r := Present(h, Placed(stack)), CallAt(h, x) + 1, ReturnAt(h, x) + 1;
    MatchFacts(h, n, nodes, x);
    PresentWithout(h, n, stack, x);
    TopRemembers(h, n, nodes, stack, x);
  }

  lemma MatchFacts<I, O>(h: seq<Entry<I, O>>, n: nat, nodes: seq<EntryNode<I, O>>, x: nat)
    requires NodesOf(h, n, nodes) && x < n
    ensures CallAt(h, x) < ReturnAt(h, x) < |h| && nodes[CallAt(h, x) + 1].match_ == nodes[ReturnAt(h, x) + 1]
  {
    NodeFacts(h, n, nodes, CallAt(h, x));
    Places(h, n, CallAt(h, x));
  }

  lemma TopRemembers<I, O>(h: seq<Entry<I, O>>, n: nat, nodes: seq<EntryNode<I, O>>, stack: seq<nat>, x: nat)
    requires WellFormed(h, n) && |nodes| == |h| + 1 && x < n && AllLifted(h, n, nodes, Pointers(nodes), stack + [x])
    ensures var s, c := Present(h, Placed(stack)), CallAt(h, x) + 1;
            Remembers(nodes, s, c) && Remembers(nodes, s - {c}, ReturnAt(h, x) + 1)
  {
    assert LiftedOk(h, n, nodes, Pointers(nodes), stack + [x], |stack|);
    LiftedTop(h, n, nodes, Pointers(nodes), stack, x);
  }

  /** Unlifting the operation on top goes one level up. */
  method UnliftOperation<I, O>(entry: EntryNode<I, O>, ghost h: seq<Entry<I, O>>, ghost n: nat,
                               ghost nodes: seq<EntryNode<I, O>>,
                               ghost stack: seq<nat>, ghost x: nat)
    requires NodesOf(h, n, nodes) && x < n && ListOk(h, n, nodes, stack + [x])
    requires entry == nodes[CallAt(h, x) + 1]
    modifies nodes
    ensures ListOk(h, n, nodes, stack)
  {
    ghost var before := Pointers(nodes);
    ghost var s, c, r := UnliftReady(h, n, nodes, stack, x);
    Unlift(entry, nodes, s, c, r);
    UnliftDone(h, n, nodes, before, stack, x);
  }

  lemma UnliftDone<I, O>(h: seq<Entry<I, O>>, n: nat, nodes: seq<EntryNode<I, O>>,
                         before: seq<(Node?<Value<I, O>>, Node?<Value<I, O>>)>, stack: seq<nat>, x: nat)
    requires WellFormed(h, n) && |nodes| == |h| + 1 == |before| && Linked(nodes, Present(h, Placed(stack)))
    requires AllLifted(h, n, nodes, before, stack + [x])
    requires KeepsOutside(before, Pointers(nodes), Present(h, Placed(stack)))
    ensures ListOk(h, n, nodes, stack)
  {
    AllLiftedPop(h, n, nodes, before, Pointers(nodes), stack, x);
  }

  // ---------- The search ----------

  /** Everything the search knows, apart from the list. */
  ghost predicate Knows<S(!new), I, O>(m: Model<S, I, O>, ops: seq<Operation<I, O>>, t: Trail<S>,
                                       seen: set<(Bitset, S)>, linearized: Bitset) {
    && TrailOk(m, ops, t) && CacheOk(m, ops, t, seen)
    && seen <= Reach(m, ops, |ops|)
    && Config(m, ops, t, |t.stack|) == (linearized, t.states[|t.stack|])
  }

  /** The open calls, as the source keeps them. */
  ghost predicate CallsOk<S, I, O>(h: seq<Entry<I, O>>, n: nat, nodes: seq<EntryNode<I, O>>, t: Trail<S>,
                                   calls: seq<CallsEntry<I, O, S>>)
    requires NodesOf(h, n, nodes)
  {
    && |calls| == |t.stack| && |t.states| == |t.stack| + 1
    && (forall d :: 0 <= d < |calls| ==>
          t.stack[d] < n && calls[d].entry == nodes[CallAt(h, t.stack[d]) + 1] && calls[d].state == t.states[d])
  }

  /** Placing operation x: the new configuration is one of finitely many, and new. */
  lemma KnowsPush<S(!new), I, O>(m: Model<S, I, O>, ops: seq<Operation<I, O>>, t: Trail<S>, seen: set<(Bitset, S)>,
                                 linearized: Bitset, x: nat)
    requires Knows(m, ops, t, seen, linearized) && x < |ops| && x in Rest(|ops|, t.stack)
    requires Tried(m, ops, Rest(|ops|, t.stack), t.states[|t.stack|], ops[x].call)
    requires Step(m, ops, t.states[|t.stack|], x).0 && x < 64 * |linearized|
    ensures var c := After(m, ops, (linearized, t.states[|t.stack|]), x);
            && Bits(c.0) == Placed(t.stack) + {x}
            && c in Reach(m, ops, |ops|)
            && Knows(m, ops, Trail(t.stack + [x], t.states + [c.1]), seen + {c}, c.0)
  {
    var c := After(m, ops, (linearized, t.states[|t.stack|]), x);
    var u := Trail(t.stack + [x], t.states + [c.1]);
    assert t.stack[..|t.stack|] == t.stack;
    PushTrail(m, ops, t, x);
    PushCache(m, ops, t, seen, x, c);
    assert u.stack[..|u.stack|] == u.stack;
    assert u.stack[..|t.stack|] == t.stack;
    TrailReached(m, ops, u, |u.stack|);
    TrailIds(m, ops, u);
    ReachGrows(m, ops, |u.stack|, |ops|);
  }

  lemma KnowsPop<S(!new), I, O>(m: Model<S, I, O>, ops: seq<Operation<I, O>>, t: Trail<S>, seen: set<(Bitset, S)>,
                                linearized: Bitset)
    requires Knows(m, ops, t, seen, linearized) && t.stack != []
    requires !Placeable(m, ops, Rest(|ops|, t.stack), t.states[|t.stack|])
    ensures var k := |t.stack| - 1;
            var x, u := t.stack[k], Trail(t.stack[..k], t.states[..k + 1]);
            && x < |ops| && x < 64 * |linearized| && x in Rest(|ops|, u.stack)
            && Knows(m, ops, u, seen, Clear(linearized, x))
            && Tried(m, ops, Rest(|ops|, u.stack), u.states[k], ops[x].call)
            && !First(m, ops, Rest(|ops|, u.stack), u.states[k], x)
  {
    var k := |t.stack| - 1;
    var x, u := t.stack[k], Trail(t.stack[..k], t.states[..k + 1]);
    PopTrail(m, ops, t, seen);
    TrailIds(m, ops, t);
    assert t.stack[..|t.stack|] == t.stack;
    assert u.stack[..k] == u.stack;
    ClearUndoesSet(Words(|ops|, u.stack), x);
  }

  /** Nothing can be placed at a return: the level has failed. */
  lemma ReturnFails<S, I, O>(m: Model<S, I, O>, h: seq<Entry<I, O>>, n: nat, stack: seq<nat>, s: S, p: nat)
    requires WellFormed(h, n) && p < |h| && h[p].ReturnEntry? && h[p].id !in stack
    requires Tried(m, OpsOf(h, n), Rest(n, stack), s, p)
    ensures !Placeable(m, OpsOf(h, n), Rest(n, stack), s)
  {
    Places(h, n, p);
    NothingLeft(m, OpsOf(h, n), Rest(n, stack), s, h[p].id);
  }

  /** The call at position p leads nowhere: go on to the next entry. */
  lemma CallFails<S, I, O>(m: Model<S, I, O>, h: seq<Entry<I, O>>, n: nat, stack: seq<nat>, s: S, p: nat)
    returns (q: nat)
    requires WellFormed(h, n) && p < |h| && h[p].CallEntry? && h[p].id !in stack
    requires Tried(m, OpsOf(h, n), Rest(n, stack), s, p)
    requires !First(m, OpsOf(h, n), Rest(n, stack), s, h[p].id)
    ensures p + 1 < q <= |h| && Adjacent(Present(h, Placed(stack)), p + 1, q)
    ensures Tried(m, OpsOf(h, n), Rest(n, stack), s, q - 1)
  {
    Places(h, n, p);
    q := AfterCall(h, n, stack, p);
    forall y | y in Rest(n, stack)
      ensures OpsOf(h, n)[y].ret != p && (y != h[p].id ==> OpsOf(h, n)[y].call != p)
    {
      assert h[OpsOf(h, n)[y].ret].ReturnEntry? && h[OpsOf(h, n)[y].call].id == y;
    }
    TriedMore(m, OpsOf(h, n), Rest(n, stack), s, h[p].id, q - 1);
  }

  /** Where the search stands: the entry at position p is next, and what comes before it leads nowhere. */
  ghost predicate AtEntry<S, I, O>(m: Model<S, I, O>, h: seq<Entry<I, O>>, n: nat, nodes: seq<EntryNode<I, O>>,
                                   t: Trail<S>,
                                   entry: Node?<Value<I, O>>, p: nat)
    requires NodesOf(h, n, nodes) && |t.states| == |t.stack| + 1
  {
    && p < |h| && entry == nodes[p + 1] && h[p].id !in t.stack
    && Tried(m, OpsOf(h, n), Rest(n, t.stack), t.states[|t.stack|], p)
  }

  lemma ListEmpty<I, O>(h: seq<Entry<I, O>>, n: nat, nodes: seq<EntryNode<I, O>>, stack: seq<nat>)
    requires WellFormed(h, n) && Linked(nodes, Present(h, Placed(stack))) && Rest(n, stack) == {}
    ensures nodes[0].next == null
  {
    OnlyHead(h, n, stack);
  }

  lemma ListFirst<S, I, O>(m: Model<S, I, O>, h: seq<Entry<I, O>>, n: nat, nodes: seq<EntryNode<I, O>>,
                           t: Trail<S>) returns (p: nat)
    requires NodesOf(h, n, nodes) && Linked(nodes, Present(h, Placed(t.stack))) && |t.states| == |t.stack| + 1
    requires Rest(n, t.stack) != {}
    ensures AtEntry(m, h, n, nodes, t, nodes[0].next, p)
  {
    var q := FirstEntry(m, h, n, t.stack, t.states[|t.stack|]);
    p := q - 1;
    assert h[p].id !in Placed(t.stack);
  }

  lemma ListNext<S, I, O>(m: Model<S, I, O>, h: seq<Entry<I, O>>, n: nat, nodes: seq<EntryNode<I, O>>, t: Trail<S>,
                          entry: EntryNode<I, O>, p: nat)
    returns (q: nat)
    requires NodesOf(h, n, nodes) && Linked(nodes, Present(h, Placed(t.stack))) && |t.states| == |t.stack| + 1
    requires AtEntry(m, h, n, nodes, t, entry, p) && h[p].CallEntry?
    requires !First(m, OpsOf(h, n), Rest(n, t.stack), t.states[|t.stack|], h[p].id)
    ensures p < q && AtEntry(m, h, n, nodes, t, entry.next, q)
  {
    q := CallFails(m, h, n, t.stack, t.states[|t.stack|], p);
    q := q - 1;
    assert h[q].id !in Placed(t.stack);
  }

  lemma ListNotEmpty<I, O>(h: seq<Entry<I, O>>, n: nat, nodes: seq<EntryNode<I, O>>, stack: seq<nat>)
    requires NodesOf(h, n, nodes) && Linked(nodes, Present(h, Placed(stack))) && nodes[0].next != null
    ensures Rest(n, stack) != {}
  {
    if Rest(n, stack) == {} {
      OnlyHead(h, n, stack);
    }
  }

  /** The variables of the search loop. */
  datatype Locals<I, O, S> = Locals(
    entry: Node?<Value<I, O>>, linearized: Bitset, cache: Cache<S>, calls: seq<CallsEntry<I, O, S>>, state: S)

  /** The loop invariant; `t`, `seen` and `p` say what the variables stand for. */
  ghost predicate SearchOk<S(!new), I, O>(m: Model<S, I, O>, h: seq<Entry<I, O>>, n: nat, nodes: seq<EntryNode<I, O>>,
                                          l: Locals<I, O, S>, t: Trail<S>, seen: set<(Bitset, S)>, p: nat)
    requires NodesOf(h, n, nodes)
    reads nodes
  {
    && ListOk(h, n, nodes, t.stack)
    && Knows(m, OpsOf(h, n), t, seen, l.linearized)
    && CallsOk(h, n, nodes, t, l.calls)
    && Holds(l.cache, seen)
    && l.state == t.states[|t.stack|]
    && (if Rest(n, t.stack) == {} then nodes[0].next == null else AtEntry(m, h, n, nodes, t, l.entry, p))
  }

  /** The call at hand leads nowhere: on to the next entry. */
  lemma SkipCall<S(!new), I, O>(m: Model<S, I, O>, h: seq<Entry<I, O>>, n: nat, nodes: seq<EntryNode<I, O>>,
                                l: Locals<I, O, S>, t: Trail<S>, seen: set<(Bitset, S)>, p: nat) returns (q: nat)
    requires NodesOf(h, n, nodes) && SearchOk(m, h, n, nodes, l, t, seen, p) && Rest(n, t.stack) != {}
          && h[p].CallEntry?
    requires !First(m, OpsOf(h, n), Rest(n, t.stack), l.state, h[p].id)
    ensures p < q < |h| && SearchOk(m, h, n, nodes, l.(entry := l.entry.next), t, seen, q)
  {
    q := ListNext(m, h, n, nodes, t, l.entry, p);
  }

  /** A call's node and its match carry the operation's input and output. */
  lemma OpFacts<I, O>(h: seq<Entry<I, O>>, n: nat, nodes: seq<EntryNode<I, O>>, p: nat)
    requires NodesOf(h, n, nodes) && p < |h| && h[p].CallEntry?
    ensures var x, ops, e := h[p].id, OpsOf(h, n), nodes[p + 1];
            && x < n && e.id == x && CallAt(h, x) == p == ops[x].call
            && e.value.Input? && e.value.input == ops[x].input
            && e.match_ != null && e.match_.value.Output? && e.match_.value.output == ops[x].output
  {
    Places(h, n, p);
    NodeFacts(h, n, nodes, p);
    NodeFacts(h, n, nodes, ReturnAt(h, h[p].id));
  }

  lemma CallsPush<S, I, O>(h: seq<Entry<I, O>>, n: nat, nodes: seq<EntryNode<I, O>>, t: Trail<S>,
                           calls: seq<CallsEntry<I, O, S>>, x: nat, s: S)
    requires NodesOf(h, n, nodes) && CallsOk(h, n, nodes, t, calls) && x < n
    ensures CallsOk(h, n, nodes, Trail(t.stack + [x], t.states + [s]),
                    calls + [CallsEntry(nodes[CallAt(h, x) + 1], t.states[|t.stack|])])
  {
  }

  /** The operation at hand is placed: lifted, remembered and pushed. */
  method PlaceCall<S(!new), I, O>(m: Model<S, I, O>, headEntry: EntryNode<I, O>, l: Locals<I, O, S>, newState: S,
                                  ghost h: seq<Entry<I, O>>, ghost n: nat, ghost nodes: seq<EntryNode<I, O>>,
                                  ghost t: Trail<S>, ghost seen: set<(Bitset, S)>, ghost x: nat)
    returns (l': Locals<I, O, S>, ghost p': nat)
    requires NodesOf(h, n, nodes) && ListOk(h, n, nodes, t.stack) && headEntry == nodes[0]
    requires l.entry != null && l.entry.id == x < 64 * |l.linearized|
          && PlaceReady(m, h, n, nodes, l, newState, t, seen, x)
    modifies nodes
    ensures SearchOk(m, h, n, nodes, l', Trail(t.stack + [x], t.states + [newState]), seen + {(Set(l.linearized, x),
          newState)}, p')
  {
    var newLinearized := Set(l.linearized, l.entry.id);
    var newCacheEntry := (newLinearized, newState);
    var cache, calls := Remember(l.cache, newCacheEntry), l.calls + [CallsEntry(l.entry, l.state)];
    LiftOperation(l.entry, h, n, nodes, t.stack, x);
    l' := Locals(headEntry.next, newLinearized, cache, calls, newState);
    p' := Descend(m, h, n, nodes, l', Trail(t.stack + [x], t.states + [newState]), seen + {newCacheEntry});
  }

  /** What the search knows once operation x is placed; the list comes after. */
  ghost predicate PlaceReady<S(!new), I, O>(m: Model<S, I, O>, h: seq<Entry<I, O>>, n: nat, nodes: seq<EntryNode<I, O>>,
                                            l: Locals<I, O, S>, newState: S, t: Trail<S>, seen: set<(Bitset, S)>,
                                            x: nat)
    requires NodesOf(h, n, nodes) && l.entry != null && x < 64 * |l.linearized|
  {
    var c, t' := (Set(l.linearized, x), newState), Trail(t.stack + [x], t.states + [newState]);
    && x < n && x !in t.stack && l.entry == nodes[CallAt(h, x) + 1]
    && Knows(m, OpsOf(h, n), t', seen + {c}, c.0)
    && CallsOk(h, n, nodes, t', l.calls + [CallsEntry(l.entry, l.state)])
    && Holds(Remember(l.cache, c), seen + {c})
    && t'.states[|t'.stack|] == newState
  }

  lemma PlaceFacts<S(!new), I, O>(m: Model<S, I, O>, h: seq<Entry<I, O>>, n: nat, nodes: seq<EntryNode<I, O>>,
                                  l: Locals<I, O, S>, newState: S, t: Trail<S>, seen: set<(Bitset, S)>, p: nat)
    requires NodesOf(h, n, nodes) && SearchOk(m, h, n, nodes, l, t, seen, p)
    requires Rest(n, t.stack) != {} && h[p].CallEntry? && l.entry == nodes[p + 1] && l.entry.id < 64 * |l.linearized|
    requires h[p].id == l.entry.id && Step(m, OpsOf(h, n), l.state, h[p].id) == (true, newState)
    ensures PlaceReady(m, h, n, nodes, l, newState, t, seen, h[p].id)
  {
    var x, c := h[p].id, (Set(l.linearized, l.entry.id), newState);
    OpFacts(h, n, nodes, p);
    KnowsPush(m, OpsOf(h, n), t, seen, l.linearized, x);
    RememberHolds(l.cache, seen, c);
    CallsPush(h, n, nodes, t, l.calls, x, newState);
  }

  /** One level down: the search begins at the head of the list. */
  lemma Descend<S(!new), I, O>(m: Model<S, I, O>, h: seq<Entry<I, O>>, n: nat, nodes: seq<EntryNode<I, O>>,
                               l: Locals<I, O, S>, t: Trail<S>, seen: set<(Bitset, S)>) returns (p: nat)
    requires NodesOf(h, n, nodes) && ListOk(h, n, nodes, t.stack) && Knows(m, OpsOf(h, n), t, seen, l.linearized)
    requires CallsOk(h, n, nodes, t, l.calls) && Holds(l.cache, seen) && l.state == t.states[|t.stack|]
          && l.entry == nodes[0].next
    ensures SearchOk(m, h, n, nodes, l, t, seen, p)
  {
    p := 0;
    if Rest(n, t.stack) == {} {
      ListEmpty(h, n, nodes, t.stack);
    } else {
      p := ListFirst(m, h, n, nodes, t);
    }
  }

  /** A return comes next: the operation on top is taken back and passed over. */
  method Backtrack<S(!new), I, O>(m: Model<S, I, O>, l: Locals<I, O, S>,
                                  ghost h: seq<Entry<I, O>>, ghost n: nat, ghost nodes: seq<EntryNode<I, O>>,
                                  ghost t: Trail<S>, ghost seen: set<(Bitset, S)>)
    returns (l': Locals<I, O, S>, ghost t': Trail<S>, ghost p': nat)
    requires NodesOf(h, n, nodes) && ListOk(h, n, nodes, t.stack) && Knows(m, OpsOf(h, n), t, seen, l.linearized)
    requires CallsOk(h, n, nodes, t, l.calls) && Holds(l.cache, seen) && l.state == t.states[|t.stack|] && |l.calls| > 0
    requires !Placeable(m, OpsOf(h, n), Rest(n, t.stack), l.state)
    modifies nodes
    ensures SearchOk(m, h, n, nodes, l', t', seen, p') && |t'.stack| < |t.stack|
  {
    ghost var k := |t.stack| - 1;
    ghost var x := t.stack[k];
    KnowsPop(m, OpsOf(h, n), t, seen, l.linearized);
    var callsTop := l.calls[|l.calls| - 1];
    var entry := callsTop.entry;
    t' := Trail(t.stack[..k], t.states[..k + 1]);
    BacktrackFacts(h, n, nodes, t, l.calls);
    UnliftOperation(entry, h, n, nodes, t'.stack, x);
    l' := Locals(entry, Clear(l.linearized, entry.id), l.cache, l.calls[..|l.calls| - 1], callsTop.state);
    p' := Resume(m, h, n, nodes, l', t', seen, x);
    l' := l'.(entry := entry.next);
  }

  /** Back at the level of operation x, which has failed. */
  lemma Resume<S(!new), I, O>(m: Model<S, I, O>, h: seq<Entry<I, O>>, n: nat, nodes: seq<EntryNode<I, O>>,
                              l: Locals<I, O, S>, t: Trail<S>, seen: set<(Bitset, S)>, x: nat) returns (q: nat)
    requires NodesOf(h, n, nodes) && ListOk(h, n, nodes, t.stack) && Knows(m, OpsOf(h, n), t, seen, l.linearized)
    requires CallsOk(h, n, nodes, t, l.calls) && Holds(l.cache, seen) && l.state == t.states[|t.stack|]
    requires x < n && x in Rest(n, t.stack) && l.entry == nodes[CallAt(h, x) + 1]
    requires Tried(m, OpsOf(h, n), Rest(n, t.stack), l.state, CallAt(h, x))
    requires !First(m, OpsOf(h, n), Rest(n, t.stack), l.state, x)
    ensures q < |h| && SearchOk(m, h, n, nodes, l.(entry := l.entry.next), t, seen, q)
  {
    q := ListNext(m, h, n, nodes, t, l.entry, CallAt(h, x));
  }

  lemma BacktrackFacts<S, I, O>(h: seq<Entry<I, O>>, n: nat, nodes: seq<EntryNode<I, O>>, t: Trail<S>,
                                calls: seq<CallsEntry<I, O, S>>)
    requires NodesOf(h, n, nodes) && CallsOk(h, n, nodes, t, calls) && t.stack != []
    ensures var k := |t.stack| - 1;
            && t.stack == t.stack[..k] + [t.stack[k]] && t.stack[k] < n
            && calls[k].entry == nodes[CallAt(h, t.stack[k]) + 1] && calls[k].entry.id == t.stack[k]
            && OpsOf(h, n)[t.stack[k]].call == CallAt(h, t.stack[k])
            && h[CallAt(h, t.stack[k])].id == t.stack[k]
            && CallsOk(h, n, nodes, Trail(t.stack[..k], t.states[..k + 1]), calls[..k])
  {
    OpFacts(h, n, nodes, CallAt(h, t.stack[|t.stack| - 1]));
  }

  /** The measure of the search: configurations not yet seen, then the depth, then the entries ahead. */
  method Search<S(==, !new), I, O>(m: Model<S, I, O>, n: nat, headEntry: EntryNode<I, O>,
                                   ghost h: seq<Entry<I, O>>, ghost nodes: seq<EntryNode<I, O>>)
    returns (ok: bool)
    requires NodesOf(h, n, nodes) && ListOk(h, n, nodes, []) && headEntry == nodes[0]
    modifies nodes
    ensures ok <==> Placeable(m, OpsOf(h, n), Below(n), m.init)
  {
    ghost var ops := OpsOf(h, n);
    var l: Locals<I, O, S> := Locals(headEntry.next, NewBitset(n), map[], [], m.init);
    ghost var t, seen, p := Trail([], [m.init]), {}, 0;
    p := SearchStarts(m, h, n, nodes, l);
    while headEntry.next != null
      invariant SearchOk(m, h, n, nodes, l, t, seen, p)
      decreases |Reach(m, ops, n)| - |seen|, |t.stack|, |h| - p
    {
      ListNotEmpty(h, n, nodes, t.stack);
      NodeFacts(h, n, nodes, p);
      if l.entry.match_ != null {
        OpFacts(h, n, nodes, p);
        var (legal, newState) := m.step(l.state, l.entry.value.input, l.entry.match_.value.output);
        ghost var before := seen;
        l, t, seen, p := TryCall(m, headEntry, l, legal, newState, h, n, nodes, t, seen, p);
        SubsetSize(seen, Reach(m, ops, n));
      } else {
        ReturnFails(m, h, n, t.stack, l.state, p);
        if |l.calls| == 0 {
          assert Rest(n, t.stack) == Below(n);
          return false;
        }
        l, t, p := Backtrack(m, l, h, n, nodes, t, seen);
      }
    }
    SearchEnds(m, h, n, nodes, l, t, seen, p);
    return true;
  }

  lemma SearchStarts<S(!new), I, O>(m: Model<S, I, O>, h: seq<Entry<I, O>>, n: nat, nodes: seq<EntryNode<I, O>>,
                                    l: Locals<I, O, S>)
    returns (p: nat)
    requires NodesOf(h, n, nodes) && ListOk(h, n, nodes, [])
    requires l == Locals(nodes[0].next, NewBitset(n), map[], [], m.init)
    ensures SearchOk(m, h, n, nodes, l, Trail([], [m.init]), {}, p)
  {
    var t := Trail([], [m.init]);
    p := 0;
    if Rest(n, t.stack) == {} {
      ListEmpty(h, n, nodes, t.stack);
    } else {
      p := ListFirst(m, h, n, nodes, t);
    }
  }

  lemma ListIsEmpty<S, I, O>(m: Model<S, I, O>, h: seq<Entry<I, O>>, n: nat, nodes: seq<EntryNode<I, O>>, t: Trail<S>)
    requires NodesOf(h, n, nodes) && Linked(nodes, Present(h, Placed(t.stack))) && |t.states| == |t.stack| + 1
    requires nodes[0].next == null
    ensures Rest(n, t.stack) == {}
  {
    if Rest(n, t.stack) != {} {
      var q := ListFirst(m, h, n, nodes, t);
    }
  }

  lemma SearchEnds<S(!new), I, O>(m: Model<S, I, O>, h: seq<Entry<I, O>>, n: nat, nodes: seq<EntryNode<I, O>>,
                                  l: Locals<I, O, S>, t: Trail<S>, seen: set<(Bitset, S)>, p: nat)
    requires NodesOf(h, n, nodes) && SearchOk(m, h, n, nodes, l, t, seen, p) && nodes[0].next == null
    ensures Placeable(m, OpsOf(h, n), Below(n), m.init)
  {
    ListIsEmpty(m, h, n, nodes, t);
    TrailPlacesAll(m, OpsOf(h, n), t);
  }

  /** One call entry: place the operation unless it is illegal or leads to a known configuration. */
  method TryCall<S(==, !new), I, O>(m: Model<S, I, O>, headEntry: EntryNode<I, O>, l: Locals<I, O, S>, legal: bool,
                                    newState: S,
                                    ghost h: seq<Entry<I, O>>, ghost n: nat, ghost nodes: seq<EntryNode<I, O>>,
                                    ghost t: Trail<S>, ghost seen: set<(Bitset, S)>, ghost p: nat)
    returns (l': Locals<I, O, S>, ghost t': Trail<S>, ghost seen': set<(Bitset, S)>, ghost p': nat)
    requires NodesOf(h, n, nodes) && SearchOk(m, h, n, nodes, l, t, seen, p) && headEntry == nodes[0]
    requires Rest(n, t.stack) != {} && h[p].CallEntry? && l.entry == nodes[p + 1]
    requires Step(m, OpsOf(h, n), l.state, h[p].id) == (legal, newState)
    modifies nodes
    ensures SearchOk(m, h, n, nodes, l', t', seen', p')
    ensures |seen'| > |seen| || (seen' == seen && t' == t && p < p' < |h|)
  {
    TryFacts(m, h, n, nodes, l, t, seen, p);
    var hit := false;
    if legal {
      hit := CacheContains(l.cache, (Set(l.linearized, l.entry.id), newState));
    }
    if legal && !hit {
      l', t', seen', p' := PlaceNew(m, headEntry, l, newState, h, n, nodes, t, seen, p);
    } else {
      p' := PassOver(m, h, n, nodes, l, legal, newState, t, seen, p);
      t', seen', l' := t, seen, l.(entry := l.entry.next);
    }
  }

  /** The call is legal and leads to a new configuration. */
  method PlaceNew<S(!new), I, O>(m: Model<S, I, O>, headEntry: EntryNode<I, O>, l: Locals<I, O, S>, newState: S,
                                 ghost h: seq<Entry<I, O>>, ghost n: nat, ghost nodes: seq<EntryNode<I, O>>,
                                 ghost t: Trail<S>, ghost seen: set<(Bitset, S)>, ghost p: nat)
    returns (l': Locals<I, O, S>, ghost t': Trail<S>, ghost seen': set<(Bitset, S)>, ghost p': nat)
    requires NodesOf(h, n, nodes) && SearchOk(m, h, n, nodes, l, t, seen, p) && headEntry == nodes[0]
    requires Rest(n, t.stack) != {} && h[p].CallEntry? && l.entry == nodes[p + 1]
          && l.entry.id == h[p].id < 64 * |l.linearized|
    requires Step(m, OpsOf(h, n), l.state, h[p].id) == (true, newState)
          && (Set(l.linearized, h[p].id), newState) !in seen
    modifies nodes
    ensures SearchOk(m, h, n, nodes, l', t', seen', p') && |seen'| > |seen|
  {
    ghost var x := h[p].id;
    PlaceFacts(m, h, n, nodes, l, newState, t, seen, p);
    t', seen' := Trail(t.stack + [x], t.states + [newState]), seen + {(Set(l.linearized, x), newState)};
    l', p' := PlaceCall(m, headEntry, l, newState, h, n, nodes, t, seen, x);
  }

  /** The call is illegal, or leads to a configuration that was seen before. */
  lemma PassOver<S(!new), I, O>(m: Model<S, I, O>, h: seq<Entry<I, O>>, n: nat, nodes: seq<EntryNode<I, O>>,
                                l: Locals<I, O, S>,
                                legal: bool, newState: S, t: Trail<S>, seen: set<(Bitset, S)>, p: nat) returns (q: nat)
    requires NodesOf(h, n, nodes) && SearchOk(m, h, n, nodes, l, t, seen, p) && Rest(n, t.stack) != {}
          && h[p].CallEntry?
    requires h[p].id in Rest(n, t.stack) && h[p].id < 64 * |l.linearized|
    requires Step(m, OpsOf(h, n), l.state, h[p].id) == (legal, newState)
    requires legal ==> (Set(l.linearized, h[p].id), newState) in seen
    ensures p < q < |h| && SearchOk(m, h, n, nodes, l.(entry := l.entry.next), t, seen, q)
  {
    TryFails(m, h, n, t, seen, l.linearized, h[p].id, legal, newState);
    q := SkipCall(m, h, n, nodes, l, t, seen, p);
  }

  lemma WordsFit<S(!new), I, O>(m: Model<S, I, O>, h: seq<Entry<I, O>>, n: nat, t: Trail<S>, seen: set<(Bitset, S)>,
                                linearized: Bitset)
    requires WellFormed(h, n) && Knows(m, OpsOf(h, n), t, seen, linearized)
    ensures n <= 64 * |linearized| && Bits(linearized) == Placed(t.stack)
  {
    assert t.stack[..|t.stack|] == t.stack;
  }

  lemma TryFacts<S(!new), I, O>(m: Model<S, I, O>, h: seq<Entry<I, O>>, n: nat, nodes: seq<EntryNode<I, O>>,
                                l: Locals<I, O, S>, t: Trail<S>, seen: set<(Bitset, S)>, p: nat)
    requires NodesOf(h, n, nodes) && SearchOk(m, h, n, nodes, l, t, seen, p) && Rest(n, t.stack) != {}
          && h[p].CallEntry?
    ensures l.entry != null && l.entry.id == h[p].id && h[p].id in Rest(n, t.stack)
    ensures n <= 64 * |l.linearized| && h[p].id < n
  {
    OpFacts(h, n, nodes, p);
    WordsFit(m, h, n, t, seen, l.linearized);
  }

  lemma TryFails<S(!new), I, O>(m: Model<S, I, O>, h: seq<Entry<I, O>>, n: nat, t: Trail<S>, seen: set<(Bitset, S)>,
                                linearized: Bitset, x: nat, legal: bool, newState: S)
    requires WellFormed(h, n) && Knows(m, OpsOf(h, n), t, seen, linearized) && x < n && x in Rest(n, t.stack)
    requires x < 64 * |linearized| && Step(m, OpsOf(h, n), t.states[|t.stack|], x) == (legal, newState)
    requires legal ==> (Set(linearized, x), newState) in seen
    ensures !First(m, OpsOf(h, n), Rest(n, t.stack), t.states[|t.stack|], x)
  {
    WordsFit(m, h, n, t, seen, linearized);
    if legal {
      HitLeadsNowhere(m, OpsOf(h, n), t, seen, x, (Set(linearized, x), newState));
    }
  }

  // ---------- checkSingle ----------

  method Length<T>(root: Node?<T>, ghost nodes: seq<Node<T>>) returns (len: nat)
    requires root == (if nodes == [] then null else nodes[0]) && Chained(nodes)
    ensures len == |nodes|
  {
    len := 0;
    var n := root;
    while n != null
      invariant len <= |nodes| && n == (if len < |nodes| then nodes[len] else null)
      decreases |nodes| - len
    {
      assert nodes[len].next == if len + 1 < |nodes| then nodes[len + 1] else null;
      n := n.next;
      len := len + 1;
    }
  }

  lemma ChainIsLinked<I, O>(h: seq<Entry<I, O>>, nodes: seq<EntryNode<I, O>>)
    requires |nodes| == |h| + 1 && Chained(nodes)
    ensures Linked(nodes, Present(h, {}))
  {
    var s := Present(h, {});
    assert forall q: nat :: q <= |h| ==> q in s by {
      forall q: nat | q <= |h| ensures q in s {
        assert q > 0 ==> h[q - 1].id !in {};
      }
    }
    forall p: nat, q: nat | Adjacent(s, p, q) ensures nodes[p].next == nodes[q] && nodes[q].prev == nodes[p] {
      assert p + 1 in s;
    }
    forall p: nat | Last(s, p) ensures nodes[p].next == null {
      assert |h| in s;
    }
  }

  /** The list with its head in front, and the number of operations. */
  method SetUp<I, O>(h: seq<Entry<I, O>>)
    returns (headEntry: EntryNode<I, O>, n: nat, ghost nodes: seq<EntryNode<I, O>>)
    requires WellFormed(h, |h| / 2)
    ensures n == |h| / 2 && fresh(nodes) && fresh(headEntry) && headEntry !in nodes && headEntry.match_ == null
    ensures Distinct(nodes) && Carries(h, nodes, 0) && Matched(h, n, nodes, 0) && Chained([headEntry] + nodes)
  {
    var entry;
    entry, nodes := MakeLinkedEntries(h, |h| / 2);
    var len := Length(entry, nodes);
    n := len / 2;
    headEntry := new Node(NoValue, null, -1);
    PushFront(headEntry, entry, nodes);
  }

  /** Unless it is killed, the search answers true exactly for linearizable histories. */
  method CheckSingle<S(==, !new), I, O>(m: Model<S, I, O>, h: seq<Entry<I, O>>) returns (ok: bool)
    requires WellFormed(h, |h| / 2)
    ensures ok <==> Linearizable(m, OpsOf(h, |h| / 2))
  {
    var headEntry, n, nodes := Prepare(h);
    ok := Search(m, n, headEntry, h, nodes);
    SearchDecides(m, h, n);
  }

  method Prepare<I, O>(h: seq<Entry<I, O>>)
    returns (headEntry: EntryNode<I, O>, n: nat, ghost nodes: seq<EntryNode<I, O>>)
    requires WellFormed(h, |h| / 2)
    ensures n == |h| / 2 && fresh(nodes) && NodesOf(h, n, nodes) && ListOk(h, n, nodes, []) && headEntry == nodes[0]
  {
    headEntry, n, nodes := SetUp(h);
    ListStarts(h, n, headEntry, nodes);
    nodes := [headEntry] + nodes;
  }

  lemma ListStarts<I, O>(h: seq<Entry<I, O>>, n: nat, head: EntryNode<I, O>, nodes: seq<EntryNode<I, O>>)
    requires WellFormed(h, n) && Distinct(nodes) && head !in nodes && head.match_ == null
    requires Carries(h, nodes, 0) && Matched(h, n, nodes, 0) && Chained([head] + nodes)
    ensures NodesOf(h, n, [head] + nodes) && ListOk(h, n, [head] + nodes, [])
  {
    assert ([head] + nodes)[1..] == nodes;
    ChainIsLinked(h, [head] + nodes);
    assert Placed([]) == {};
  }

  lemma SearchDecides<S, I, O>(m: Model<S, I, O>, h: seq<Entry<I, O>>, n: nat)
    requires WellFormed(h, n)
    ensures Placeable(m, OpsOf(h, n), Below(n), m.init) <==> Linearizable(m, OpsOf(h, n))
  {
    PlaceableIsLinearizable(m, OpsOf(h, n), Below(n), m.init);
  }
}
