/** What the checker decides: histories of operations and when they are linearizable (Herlihy and Wing). */
module Linearizability {
  import opened Sets

  /** An operation with its invocation and response times. */
  datatype Operation<+I, +O> = Operation(clientId: int, input: I, call: int, output: O, ret: int)

  /** A sequential object: `step` says whether the response is legal, and the next state. */
  datatype Model<!S, !I, !O> = Model(init: S, step: (S, I, O) -> (bool, S))

  function Step<S, I, O>(m: Model<S, I, O>, ops: seq<Operation<I, O>>, s: S, x: nat): (bool, S)
    requires x < |ops|
  {
    m.step(s, ops[x].input, ops[x].output)
  }

  // ---------- The declarative definition ----------

  ghost predicate Indices<I, O>(ops: seq<Operation<I, O>>, order: seq<nat>) {
    forall i :: 0 <= i < |order| ==> order[i] < |ops|
  }

  /** Each operation of `rest` exactly once. */
  ghost predicate OrderOf(order: seq<nat>, rest: set<nat>) {
    && (forall i, j :: 0 <= i < j < |order| ==> order[i] != order[j])
    && (forall x :: x in rest <==> x in order)
  }

  /** No operation is placed before one that had returned before it was called. */
  ghost predicate RealTime<I, O>(ops: seq<Operation<I, O>>, order: seq<nat>)
    requires Indices(ops, order)
  {
    forall i, j :: 0 <= i < j < |order| ==> ops[order[i]].call <= ops[order[j]].ret
  }

  /** The operations, one after the other, are legal from state s. */
  ghost predicate Legal<S, I, O>(m: Model<S, I, O>, ops: seq<Operation<I, O>>, order: seq<nat>, s: S)
    requires Indices(ops, order)
  {
    order == [] ||
    (var r := Step(m, ops, s, order[0]); r.0 && Legal(m, ops, order[1..], r.1))
  }

  ghost predicate Linearization<S, I, O>(m: Model<S, I, O>, ops: seq<Operation<I, O>>, rest: set<nat>, s: S,
                                         order: seq<nat>) {
    Indices(ops, order) && OrderOf(order, rest) && RealTime(ops, order) && Legal(m, ops, order, s)
  }

  ghost predicate Linearizable<S, I, O>(m: Model<S, I, O>, ops: seq<Operation<I, O>>) {
    exists order :: Linearization(m, ops, Below(|ops|), m.init, order)
  }

  // ---------- The search's definition ----------

  /** Nothing else in `rest` returned before x was called: x may come first. */
  ghost predicate Minimal<I, O>(ops: seq<Operation<I, O>>, rest: set<nat>, x: nat) {
    && x in rest && x < |ops|
    && forall y :: y in rest && y < |ops| ==> ops[x].call <= ops[y].ret
  }

  /** The operations of `rest` can be placed one by one, each time choosing a minimal one. */
  ghost predicate Placeable<S, I, O>(m: Model<S, I, O>, ops: seq<Operation<I, O>>, rest: set<nat>, s: S)
    decreases |rest|
  {
    rest == {} ||
    exists x :: Minimal(ops, rest, x) && First(m, ops, rest, s, x)
  }

  /** Operation x can be placed first. */
  ghost predicate First<S, I, O>(m: Model<S, I, O>, ops: seq<Operation<I, O>>, rest: set<nat>, s: S, x: nat)
    requires x in rest && x < |ops|
    decreases |rest|, 0
  {
    var r := Step(m, ops, s, x);
    r.0 && Placeable(m, ops, rest - {x}, r.1)
  }

  /** The two definitions agree for operations whose call does not follow their return. */
  lemma {:induction false} PlaceableIsLinearizable<S, I, O>(m: Model<S, I, O>, ops: seq<Operation<I, O>>,
                                                            rest: set<nat>, s: S)
    requires forall x :: x in rest ==> x < |ops| && ops[x].call <= ops[x].ret
    ensures Placeable(m, ops, rest, s) <==> exists order :: Linearization(m, ops, rest, s, order)
    decreases |rest|
  {
    if rest == {} {
      assert Linearization(m, ops, rest, s, []);
    } else {
      if Placeable(m, ops, rest, s) {
        var x :| Minimal(ops, rest, x) && First(m, ops, rest, s, x);
        PlaceableIsLinearizable(m, ops, rest - {x}, Step(m, ops, s, x).1);
        var tail :| Linearization(m, ops, rest - {x}, Step(m, ops, s, x).1, tail);
        Prepend(m, ops, rest, s, x, tail);
      }
      if order :| Linearization(m, ops, rest, s, order) {
        assert order != [] by {
          var x :| x in rest;
        }
        Behead(m, ops, rest, s, order);
        PlaceableIsLinearizable(m, ops, rest - {order[0]}, Step(m, ops, s, order[0]).1);
      }
    }
  }

  lemma Prepend<S, I, O>(m: Model<S, I, O>, ops: seq<Operation<I, O>>, rest: set<nat>, s: S, x: nat, tail: seq<nat>)
    requires Minimal(ops, rest, x) && Step(m, ops, s, x).0
    requires Linearization(m, ops, rest - {x}, Step(m, ops, s, x).1, tail)
    ensures Linearization(m, ops, rest, s, [x] + tail)
  {
    var order := [x] + tail;
    assert order[1..] == tail;
    forall i, j | 0 <= i < j < |order| ensures order[i] != order[j] && ops[order[i]].call <= ops[order[j]].ret {
      assert order[j] in tail;
    }
  }

  lemma Behead<S, I, O>(m: Model<S, I, O>, ops: seq<Operation<I, O>>, rest: set<nat>, s: S, order: seq<nat>)
    requires Linearization(m, ops, rest, s, order) && order != []
    requires forall x :: x in rest ==> x < |ops| && ops[x].call <= ops[x].ret
    ensures Minimal(ops, rest, order[0]) && Step(m, ops, s, order[0]).0
    ensures Linearization(m, ops, rest - {order[0]}, Step(m, ops, s, order[0]).1, order[1..])
  {
    var tail := order[1..];
    forall y | y in rest ensures ops[order[0]].call <= ops[y].ret {
      assert y in order;
    }
    forall x ensures x in rest - {order[0]} <==> x in tail {
      if x in order && x != order[0] {
        var i :| 0 <= i < |order| && order[i] == x;
        assert tail[i - 1] == x;
      }
    }
  }
}
