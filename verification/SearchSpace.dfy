/** Why the depth-first search with a cache decides linearizability: what it knows at each moment. */
module SearchSpace {
  import opened Sets
  import opened Linearizability
  import opened Bitset

  /** The operations placed so far and the states between them; the last state is the current one. */
  datatype Trail<S> = Trail(stack: seq<nat>, states: seq<S>)

  ghost function Placed(stack: seq<nat>): (s: set<nat>)
    ensures forall x :: x in s <==> x in stack
  {
    set x | x in stack
  }

  ghost function Rest(n: nat, stack: seq<nat>): set<nat> {
    Below(n) - Placed(stack)
  }

  /** Up to position `limit` there are only calls, and placing any of them next leads nowhere. */
  ghost predicate Tried<S, I, O>(m: Model<S, I, O>, ops: seq<Operation<I, O>>, rest: set<nat>, s: S, limit: int) {
    forall x :: x in rest && x < |ops| ==> limit <= ops[x].ret && (ops[x].call < limit ==> !First(m, ops, rest, s, x))
  }

  ghost predicate LevelOk<S, I, O>(m: Model<S, I, O>, ops: seq<Operation<I, O>>, t: Trail<S>, d: nat)
    requires d < |t.stack| && |t.states| == |t.stack| + 1
  {
    var x, rest := t.stack[d], Rest(|ops|, t.stack[..d]);
    && x < |ops| && x in rest
    && Minimal(ops, rest, x)
    && Step(m, ops, t.states[d], x) == (true, t.states[d + 1])
    && Tried(m, ops, rest, t.states[d], ops[x].call)
  }

  ghost predicate TrailOk<S, I, O>(m: Model<S, I, O>, ops: seq<Operation<I, O>>, t: Trail<S>) {
    && |t.states| == |t.stack| + 1 && t.states[0] == m.init
    && forall d {:trigger LevelOk(m, ops, t, d)} :: 0 <= d < |t.stack| ==> LevelOk(m, ops, t, d)
  }

  /** The configuration lies on the current trail. */
  ghost predicate OnTrail<S>(t: Trail<S>, c: (Bitset, S)) {
    |t.states| == |t.stack| + 1 &&
    exists d :: 1 <= d <= |t.stack| && Bits(c.0) == Placed(t.stack[..d]) && c.1 == t.states[d]
  }

  /** A configuration seen before is being explored right now, or leads nowhere. */
  ghost predicate CacheOk<S(!new), I, O>(m: Model<S, I, O>, ops: seq<Operation<I, O>>, t: Trail<S>,
                                         seen: set<(Bitset, S)>) {
    forall c {:trigger OnTrail(t, c)} :: c in seen ==>
          OnTrail(t, c) || !Placeable(m, ops, Below(|ops|) - Bits(c.0), c.1)
  }

  // ---------- Placing an operation ----------

  lemma PushTrail<S, I, O>(m: Model<S, I, O>, ops: seq<Operation<I, O>>, t: Trail<S>, x: nat)
    requires TrailOk(m, ops, t) && x < |ops| && x in Rest(|ops|, t.stack)
    requires Tried(m, ops, Rest(|ops|, t.stack), t.states[|t.stack|], ops[x].call)
    requires Step(m, ops, t.states[|t.stack|], x).0
    ensures TrailOk(m, ops, Trail(t.stack + [x], t.states + [Step(m, ops, t.states[|t.stack|], x).1]))
  {
    var u := Trail(t.stack + [x], t.states + [Step(m, ops, t.states[|t.stack|], x).1]);
    forall d | 0 <= d < |u.stack| ensures LevelOk(m, ops, u, d) {
      if d < |t.stack| {
        assert LevelOk(m, ops, t, d);
        assert u.stack[..d] == t.stack[..d];
      } else {
        assert u.stack[..d] == t.stack;
      }
    }
  }

  lemma PushCache<S(!new), I, O>(m: Model<S, I, O>, ops: seq<Operation<I, O>>, t: Trail<S>, seen: set<(Bitset, S)>,
                                 x: nat, c: (Bitset, S))
    requires |t.states| == |t.stack| + 1 && CacheOk(m, ops, t, seen) && Bits(c.0) == Placed(t.stack) + {x}
    ensures CacheOk(m, ops, Trail(t.stack + [x], t.states + [c.1]), seen + {c})
  {
    var u := Trail(t.stack + [x], t.states + [c.1]);
    forall e | e in seen + {c} ensures OnTrail(u, e) || !Placeable(m, ops, Below(|ops|) - Bits(e.0), e.1) {
      if e in seen && OnTrail(t, e) {
        var d :| 1 <= d <= |t.stack| && Bits(e.0) == Placed(t.stack[..d]) && e.1 == t.states[d];
        assert u.stack[..d] == t.stack[..d];
      } else if e == c {
        assert u.stack[..|u.stack|] == u.stack;
        assert Placed(u.stack) == Placed(t.stack) + {x};
      }
    }
  }

  /** A cache hit never cuts off a successful branch: the configuration is too large to be on the trail. */
  lemma HitLeadsNowhere<S(!new), I, O>(m: Model<S, I, O>, ops: seq<Operation<I, O>>, t: Trail<S>,
                                       seen: set<(Bitset, S)>, x: nat, c: (Bitset, S))
    requires TrailOk(m, ops, t) && CacheOk(m, ops, t, seen) && c in seen
    requires x < |ops| && x in Rest(|ops|, t.stack) && Bits(c.0) == Placed(t.stack) + {x}
    requires c.1 == Step(m, ops, t.states[|t.stack|], x).1
    ensures !First(m, ops, Rest(|ops|, t.stack), t.states[|t.stack|], x)
  {
    NotOnTrail(t, x, c);
    assert Below(|ops|) - Bits(c.0) == Rest(|ops|, t.stack) - {x};
  }

  lemma NotOnTrail<S>(t: Trail<S>, x: nat, c: (Bitset, S))
    requires x !in t.stack && x in Bits(c.0)
    ensures !OnTrail(t, c)
  {
    assert forall d :: 0 <= d <= |t.stack| ==> x !in Placed(t.stack[..d]);
  }

  /** Operation x has been tried in vain; `limit` is the next position after its call. */
  lemma TriedMore<S, I, O>(m: Model<S, I, O>, ops: seq<Operation<I, O>>, rest: set<nat>, s: S, x: nat, limit: int)
    requires x < |ops| && x in rest && Tried(m, ops, rest, s, ops[x].call) && !First(m, ops, rest, s, x)
    requires forall y :: y in rest && y < |ops| ==> ops[x].call != ops[y].ret && (y != x ==> ops[y].call != ops[x].call)
    requires forall y :: y in rest && y < |ops| ==>
               !(ops[x].call < ops[y].call < limit) && !(ops[x].call < ops[y].ret < limit)
    ensures Tried(m, ops, rest, s, limit)
  {
  }

  // ---------- Giving up a level ----------

  /** A return comes next: whatever could be placed first has been tried. */
  lemma NothingLeft<S, I, O>(m: Model<S, I, O>, ops: seq<Operation<I, O>>, rest: set<nat>, s: S, z: nat)
    requires z < |ops| && z in rest && Tried(m, ops, rest, s, ops[z].ret)
    requires forall y :: y in rest && y < |ops| ==> ops[y].call != ops[z].ret
    ensures !Placeable(m, ops, rest, s)
  {
  }

  lemma PopTrail<S(!new), I, O>(m: Model<S, I, O>, ops: seq<Operation<I, O>>, t: Trail<S>, seen: set<(Bitset, S)>)
    requires TrailOk(m, ops, t) && CacheOk(m, ops, t, seen) && t.stack != []
    requires !Placeable(m, ops, Rest(|ops|, t.stack), t.states[|t.stack|])
    ensures var k := |t.stack| - 1;
            var u := Trail(t.stack[..k], t.states[..k + 1]);
            && t.stack[k] < |ops| && t.stack[k] in Rest(|ops|, u.stack)
            && TrailOk(m, ops, u) && CacheOk(m, ops, u, seen)
            && Tried(m, ops, Rest(|ops|, u.stack), u.states[k], ops[t.stack[k]].call)
            && !First(m, ops, Rest(|ops|, u.stack), u.states[k], t.stack[k])
  {
    var k := |t.stack| - 1;
    var u := Trail(t.stack[..k], t.states[..k + 1]);
    assert LevelOk(m, ops, t, k);
    assert t.stack == u.stack + [t.stack[k]];
    assert Rest(|ops|, u.stack) - {t.stack[k]} == Rest(|ops|, t.stack);
    forall d | 0 <= d < k ensures LevelOk(m, ops, u, d) {
      assert LevelOk(m, ops, t, d);
      assert u.stack[..d] == t.stack[..d];
    }
    forall c | c in seen ensures OnTrail(u, c) || !Placeable(m, ops, Below(|ops|) - Bits(c.0), c.1) {
      if OnTrail(t, c) {
        var d :| 1 <= d <= |t.stack| && Bits(c.0) == Placed(t.stack[..d]) && c.1 == t.states[d];
        if d <= k {
          assert u.stack[..d] == t.stack[..d];
        } else {
          assert t.stack[..d] == t.stack;
        }
      }
    }
  }

  // ---------- Success ----------

  lemma TrailPlacesAll<S, I, O>(m: Model<S, I, O>, ops: seq<Operation<I, O>>, t: Trail<S>)
    requires TrailOk(m, ops, t) && Rest(|ops|, t.stack) == {} && t.states[0] == m.init
    ensures Placeable(m, ops, Below(|ops|), m.init)
  {
    TrailPlaces(m, ops, t, 0);
    assert Rest(|ops|, t.stack[..0]) == Below(|ops|);
  }

  lemma {:induction false} TrailPlaces<S, I, O>(m: Model<S, I, O>, ops: seq<Operation<I, O>>, t: Trail<S>, d: nat)
    requires TrailOk(m, ops, t) && d <= |t.stack| && Rest(|ops|, t.stack) == {}
    ensures Placeable(m, ops, Rest(|ops|, t.stack[..d]), t.states[d])
    decreases |t.stack| - d
  {
    if d == |t.stack| {
      assert t.stack[..d] == t.stack;
    } else {
      TrailPlaces(m, ops, t, d + 1);
      assert LevelOk(m, ops, t, d);
      RestAfter(|ops|, t.stack, d);
      PlaceFirst(m, ops, Rest(|ops|, t.stack[..d]), t.states[d], t.stack[d]);
    }
  }

  lemma RestAfter(n: nat, stack: seq<nat>, d: nat)
    requires d < |stack|
    ensures Rest(n, stack[..d + 1]) == Rest(n, stack[..d]) - {stack[d]}
  {
    assert stack[..d + 1] == stack[..d] + [stack[d]];
  }

  lemma PlaceFirst<S, I, O>(m: Model<S, I, O>, ops: seq<Operation<I, O>>, rest: set<nat>, s: S, x: nat)
    requires Minimal(ops, rest, x) && Step(m, ops, s, x).0 && Placeable(m, ops, rest - {x}, Step(m, ops, s, x).1)
    ensures Placeable(m, ops, rest, s)
  {
    assert First(m, ops, rest, s, x);
  }

  // ---------- Termination: only finitely many configurations ----------

  ghost function Words(n: nat, stack: seq<nat>): (b: Bitset)
    requires forall x :: x in stack ==> x < n
    ensures |b| == |NewBitset(n)| && Bits(b) == Placed(stack)
  {
    if stack == [] then NewBitset(n)
    else
      var k := |stack| - 1;
      assert Placed(stack) == Placed(stack[..k]) + {stack[k]};
      Set(Words(n, stack[..k]), stack[k])
  }

  /** The configurations one step, legal or not, away from those in r, and r itself. */
  ghost function Expand<S, I, O>(m: Model<S, I, O>, ops: seq<Operation<I, O>>, r: set<(Bitset, S)>):
    (e: set<(Bitset, S)>)
    ensures r <= e
    ensures forall c, x :: c in r && x in Below(|ops|) && x < 64 * |c.0| ==> After(m, ops, c, x) in e
  {
    r + (set c, x | c in r && x in Below(|ops|) && x < 64 * |c.0| :: After(m, ops, c, x))
  }

  ghost function After<S, I, O>(m: Model<S, I, O>, ops: seq<Operation<I, O>>, c: (Bitset, S), x: nat): (Bitset, S)
    requires x < |ops| && x < 64 * |c.0|
  {
    (Set(c.0, x), Step(m, ops, c.1, x).1)
  }

  ghost function Reach<S, I, O>(m: Model<S, I, O>, ops: seq<Operation<I, O>>, k: nat): set<(Bitset, S)> {
    if k == 0 then {(NewBitset(|ops|), m.init)} else Expand(m, ops, Reach(m, ops, k - 1))
  }

  lemma {:induction false} ReachGrows<S, I, O>(m: Model<S, I, O>, ops: seq<Operation<I, O>>, j: nat, k: nat)
    requires j <= k
    ensures Reach(m, ops, j) <= Reach(m, ops, k)
  {
    if j < k {
      ReachGrows(m, ops, j, k - 1);
      var r := Reach(m, ops, k - 1);
      assert r <= Expand(m, ops, r) == Reach(m, ops, k);
    }
  }

  ghost function Config<S, I, O>(m: Model<S, I, O>, ops: seq<Operation<I, O>>, t: Trail<S>, d: nat): (Bitset, S)
    requires TrailOk(m, ops, t) && d <= |t.stack|
  {
    TrailIds(m, ops, t);
    assert forall x :: x in t.stack[..d] ==> x in t.stack;
    (Words(|ops|, t.stack[..d]), t.states[d])
  }

  lemma {:induction false} TrailReached<S, I, O>(m: Model<S, I, O>, ops: seq<Operation<I, O>>, t: Trail<S>, d: nat)
    requires TrailOk(m, ops, t) && d <= |t.stack|
    ensures Config(m, ops, t, d) in Reach(m, ops, d)
  {
    TrailIds(m, ops, t);
    if d > 0 {
      TrailReached(m, ops, t, d - 1);
      ConfigStep(m, ops, t, d);
      Expands(m, ops, Reach(m, ops, d - 1), Config(m, ops, t, d - 1), t.stack[d - 1]);
    }
  }

  /** Each level's configuration comes from the one before by placing one operation. */
  lemma ConfigStep<S, I, O>(m: Model<S, I, O>, ops: seq<Operation<I, O>>, t: Trail<S>, d: nat)
    requires TrailOk(m, ops, t) && 0 < d <= |t.stack|
    ensures var c, x := Config(m, ops, t, d - 1), t.stack[d - 1];
            x < |ops| && x < 64 * |c.0| && Config(m, ops, t, d) == After(m, ops, c, x)
  {
    TrailIds(m, ops, t);
    assert LevelOk(m, ops, t, d - 1);
    assert t.stack[..d][..d - 1] == t.stack[..d - 1];
  }

  lemma Expands<S, I, O>(m: Model<S, I, O>, ops: seq<Operation<I, O>>, r: set<(Bitset, S)>, c: (Bitset, S), x: nat)
    requires c in r && x < |ops| && x < 64 * |c.0|
    ensures After(m, ops, c, x) in Expand(m, ops, r)
  {
    assert x in Below(|ops|);
  }

  lemma TrailIds<S, I, O>(m: Model<S, I, O>, ops: seq<Operation<I, O>>, t: Trail<S>)
    requires TrailOk(m, ops, t)
    ensures forall x :: x in t.stack ==> x < |ops|
    ensures |t.stack| <= |ops|
  {
    forall d | 0 <= d < |t.stack| ensures t.stack[d] < |ops| {
      assert LevelOk(m, ops, t, d);
    }
    TrailDistinct(m, ops, t, |t.stack|);
    assert t.stack[..|t.stack|] == t.stack;
    SubsetSize(Placed(t.stack), Below(|ops|));
  }

  lemma {:induction false} TrailDistinct<S, I, O>(m: Model<S, I, O>, ops: seq<Operation<I, O>>, t: Trail<S>, d: nat)
    requires TrailOk(m, ops, t) && d <= |t.stack|
    ensures |Placed(t.stack[..d])| == d
  {
    if d > 0 {
      TrailDistinct(m, ops, t, d - 1);
      assert LevelOk(m, ops, t, d - 1);
      assert t.stack[..d] == t.stack[..d - 1] + [t.stack[d - 1]];
      assert Placed(t.stack[..d]) == Placed(t.stack[..d - 1]) + {t.stack[d - 1]};
    }
  }
}
