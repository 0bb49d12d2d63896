/** From operations to entries: sorting by time keeps exactly the real-time order of the operations. */
module EntryOrder {
  import opened Sets
  import opened Linearizability
  import opened Entries

  predicate Less<I, O>(a: Entry<I, O>, b: Entry<I, O>) {
    if a.time != b.time then a.time < b.time else a.CallEntry? && b.ReturnEntry?
  }

  ghost predicate Ordered<I, O>(h: seq<Entry<I, O>>) {
    forall i, j :: 0 <= i < j < |h| ==> !Less(h[j], h[i])
  }

  // ---------- Sorting ----------

  function Insert<I, O>(e: Entry<I, O>, h: seq<Entry<I, O>>): seq<Entry<I, O>> {
    if h == [] || !Less(h[0], e) then [e] + h else [h[0]] + Insert(e, h[1..])
  }

  /** What `sort.Sort(byTime(entries))` may return. */
  function Sort<I, O>(h: seq<Entry<I, O>>): seq<Entry<I, O>> {
    if h == [] then [] else Insert(h[0], Sort(h[1..]))
  }

  lemma OrderedCons<I, O>(e: Entry<I, O>, h: seq<Entry<I, O>>)
    requires Ordered(h) && forall i :: 0 <= i < |h| ==> !Less(h[i], e)
    ensures Ordered([e] + h)
  {
  }

  lemma {:induction false} InsertAdds<I, O>(e: Entry<I, O>, h: seq<Entry<I, O>>)
    ensures multiset(Insert(e, h)) == multiset{e} + multiset(h)
  {
    if h != [] && Less(h[0], e) {
      InsertAdds(e, h[1..]);
      assert h == [h[0]] + h[1..];
    }
  }

  lemma {:induction false} InsertOrders<I, O>(e: Entry<I, O>, h: seq<Entry<I, O>>)
    requires Ordered(h)
    ensures Ordered(Insert(e, h))
  {
    if h == [] || !Less(h[0], e) {
      OrderedCons(e, h);
    } else {
      InsertOrders(e, h[1..]);
      var r := Insert(e, h[1..]);
      forall i | 0 <= i < |r| ensures !Less(r[i], h[0]) {
        InsertAdds(e, h[1..]);
        assert r[i] in multiset(r);
        assert r[i] == e || r[i] in h[1..];
      }
      OrderedCons(h[0], r);
    }
  }

  lemma {:induction false} SortOrders<I, O>(h: seq<Entry<I, O>>)
    ensures Ordered(Sort(h)) && multiset(Sort(h)) == multiset(h)
  {
    if h != [] {
      SortOrders(h[1..]);
      InsertOrders(h[0], Sort(h[1..]));
      InsertAdds(h[0], Sort(h[1..]));
      assert h == [h[0]] + h[1..];
    }
  }

  // ---------- Entries of a history ----------

  function CallOf<I, O>(op: Operation<I, O>, id: nat): Entry<I, O> {
    CallEntry(id, op.input, op.call, op.clientId)
  }

  function ReturnOf<I, O>(op: Operation<I, O>, id: nat): Entry<I, O> {
    ReturnEntry(id, op.output, op.ret, op.clientId)
  }

  /** Every operation's two entries, once each. */
  ghost predicate EntriesOf<I, O>(h: seq<Entry<I, O>>, ops: seq<Operation<I, O>>) {
    && |h| == 2 * |ops|
    && (forall i :: 0 <= i < |h| ==>
          h[i].id < |ops| && (h[i] == CallOf(ops[h[i].id], h[i].id) || h[i] == ReturnOf(ops[h[i].id], h[i].id)))
    && (forall i, j :: 0 <= i < j < |h| ==> h[i] != h[j])
    && (forall x: nat :: x < |ops| ==> CallOf(ops[x], x) in h && ReturnOf(ops[x], x) in h)
  }

  method MakeEntries<I, O>(ops: seq<Operation<I, O>>) returns (h: seq<Entry<I, O>>)
    ensures EntriesOf(h, ops) && Ordered(h)
  {
    h := [];
    var id := 0;
    while id < |ops|
      invariant 0 <= id <= |ops| && EntriesOf(h, ops[..id])
    {
      ghost var g := h;
      h := h + [CallOf(ops[id], id)];
      h := h + [ReturnOf(ops[id], id)];
      EntriesGrow(g, ops, id);
      id := id + 1;
    }
    assert ops[..|ops|] == ops;
    SortOrders(h);
    EntriesPermute(h, Sort(h), ops);
    h := Sort(h);
  }

  lemma EntriesGrow<I, O>(g: seq<Entry<I, O>>, ops: seq<Operation<I, O>>, id: nat)
    requires id < |ops| && EntriesOf(g, ops[..id])
    ensures EntriesOf(g + [CallOf(ops[id], id)] + [ReturnOf(ops[id], id)], ops[..id + 1])
  {
    var h, old_, new_ := g + [CallOf(ops[id], id)] + [ReturnOf(ops[id], id)], ops[..id], ops[..id + 1];
    assert h[|g|] == CallOf(ops[id], id) && h[|g| + 1] == ReturnOf(ops[id], id);
    forall i | 0 <= i < |g| ensures h[i] == g[i] && h[i].id < id {
    }
    forall x: nat | x < id + 1 ensures CallOf(new_[x], x) in h && ReturnOf(new_[x], x) in h {
      if x < id {
        assert CallOf(old_[x], x) in g && ReturnOf(old_[x], x) in g;
      }
    }
  }

  lemma EntriesPermute<I, O>(g: seq<Entry<I, O>>, h: seq<Entry<I, O>>, ops: seq<Operation<I, O>>)
    requires EntriesOf(g, ops) && multiset(g) == multiset(h)
    ensures EntriesOf(h, ops)
  {
    assert |g| == |multiset(g)| && |h| == |multiset(h)|;
    forall i | 0 <= i < |h| ensures h[i] in g {
      assert h[i] in multiset(h);
    }
    forall e | e in g ensures e in h {
      assert e in multiset(g);
    }
    forall i, j | 0 <= i < j < |h| ensures h[i] != h[j] {
      if h[i] == h[j] {
        TwoPlaces(h, i, j);
        OnePlace(g, h[i]);
      }
    }
  }

  lemma TwoPlaces<T>(s: seq<T>, i: nat, j: nat)
    requires i < j < |s| && s[i] == s[j]
    ensures multiset(s)[s[i]] >= 2
  {
    assert s == s[..j] + [s[j]] + s[j + 1..];
    assert s[..j][i] in multiset(s[..j]);
  }

  lemma {:induction false} OnePlace<T>(s: seq<T>, x: T)
    requires forall i, j :: 0 <= i < j < |s| ==> s[i] != s[j]
    ensures multiset(s)[x] <= 1
  {
    if s != [] {
      OnePlace(s[1..], x);
      assert s == [s[0]] + s[1..];
    }
  }

  // ---------- The real-time order survives ----------

  lemma EntriesWellFormed<I, O>(h: seq<Entry<I, O>>, ops: seq<Operation<I, O>>)
    requires EntriesOf(h, ops) && Ordered(h)
    requires forall x :: 0 <= x < |ops| ==> ops[x].call <= ops[x].ret
    ensures WellFormed(h, |ops|)
  {
    forall i, j | 0 <= i < j < |h| && h[i].id == h[j].id ensures h[i].CallEntry? && h[j].ReturnEntry? {
      assert !Less(h[j], h[i]);
    }
    forall id: nat | id < |ops| ensures Called(h, id) && Returned(h, id) {
      assert CallOf(ops[id], id) in h && ReturnOf(ops[id], id) in h;
    }
  }

  /** x returned before y was called exactly if x's return entry comes before y's call entry. */
  lemma SameRealTime<I, O>(h: seq<Entry<I, O>>, ops: seq<Operation<I, O>>, x: nat, y: nat)
    requires EntriesOf(h, ops) && Ordered(h) && WellFormed(h, |ops|) && x < |ops| && y < |ops|
    ensures OpsOf(h, |ops|)[x].call <= OpsOf(h, |ops|)[y].ret <==> ops[x].call <= ops[y].ret
    ensures OpsOf(h, |ops|)[x].input == ops[x].input && OpsOf(h, |ops|)[x].output == ops[x].output
  {
    var c, r := CallAt(h, x), ReturnAt(h, y);
    assert h[c] == CallOf(ops[x], x) && h[r] == ReturnOf(ops[y], y);
    assert h[ReturnAt(h, x)] == ReturnOf(ops[x], x);
    if c < r {
      assert !Less(h[r], h[c]);
    } else {
      assert c != r;
      assert !Less(h[c], h[r]);
    }
  }

  ghost predicate SameHistory<I, O>(a: seq<Operation<I, O>>, b: seq<Operation<I, O>>) {
    && |a| == |b|
    && (forall x :: 0 <= x < |a| ==> a[x].input == b[x].input && a[x].output == b[x].output)
    && (forall x, y :: 0 <= x < |a| && 0 <= y < |a| ==> (a[x].call <= a[y].ret <==> b[x].call <= b[y].ret))
  }

  lemma {:induction false} SameLegal<S, I, O>(m: Model<S, I, O>, a: seq<Operation<I, O>>, b: seq<Operation<I, O>>,
                                              order: seq<nat>, s: S)
    requires SameHistory(a, b) && Indices(a, order)
    ensures Legal(m, a, order, s) == Legal(m, b, order, s)
  {
    if order != [] {
      SameLegal(m, a, b, order[1..], Step(m, a, s, order[0]).1);
    }
  }

  lemma SameLinearizable<S, I, O>(m: Model<S, I, O>, a: seq<Operation<I, O>>, b: seq<Operation<I, O>>)
    requires SameHistory(a, b)
    ensures Linearizable(m, a) <==> Linearizable(m, b)
  {
    forall order: seq<nat> ensures Linearization(m, a, Below(|a|), m.init, order) <==>
          Linearization(m, b, Below(|b|), m.init, order) {
      if Indices(a, order) {
        SameLegal(m, a, b, order, m.init);
      }
    }
  }

  /** Checking the sorted entries is checking the operations. */
  lemma EntriesKeepLinearizability<S, I, O>(m: Model<S, I, O>, h: seq<Entry<I, O>>, ops: seq<Operation<I, O>>)
    requires EntriesOf(h, ops) && Ordered(h)
    requires forall x :: 0 <= x < |ops| ==> ops[x].call <= ops[x].ret
    ensures WellFormed(h, |ops|)
    ensures Linearizable(m, OpsOf(h, |ops|)) <==> Linearizable(m, ops)
  {
    EntriesWellFormed(h, ops);
    forall x, y | 0 <= x < |ops| && 0 <= y < |ops|
      ensures OpsOf(h, |ops|)[x].call <= OpsOf(h, |ops|)[y].ret <==> ops[x].call <= ops[y].ret
      ensures OpsOf(h, |ops|)[x].input == ops[x].input && OpsOf(h, |ops|)[x].output == ops[x].output
    {
      SameRealTime(h, ops, x, y);
    }
    SameLinearizable(m, OpsOf(h, |ops|), ops);
  }
}
