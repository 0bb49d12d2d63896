/**
 Checking a key/value store key by key.  `KvModel` is one key's value; `Store` is the whole store.  The
 checker only ever sees the former; `Locality` says that this is enough.
 */
module KvHistory {
  import opened Sets
  import KeyValues
  import opened Linearizability
  import opened Entries
  import opened EntryOrder
  import opened Checker

  datatype KvInput = KvInput(op: nat, key: string, value: string)  // 0: get, 1: put, otherwise append

  datatype KvOutput = KvOutput(value: string)

  type KvOperation = Operation<KvInput, KvOutput>

  function KvStep(state: string, input: KvInput, output: KvOutput): (bool, string) {
    if input.op == 0 then (output.value == state, state)
    else if input.op == 1 then (true, input.value)
    else (true, state + input.value)
  }

  const KvModel: Model<string, KvInput, KvOutput> := Model("", KvStep)

  // ---------- The whole store ----------

  function Lookup(store: map<string, string>, key: string): string {
    if key in store then store[key] else ""
  }

  function StoreStep(store: map<string, string>, input: KvInput, output: KvOutput): (bool, map<string, string>) {
    var r := KvStep(Lookup(store, input.key), input, output);
    (r.0, store[input.key := r.1])
  }

  const Store: Model<map<string, string>, KvInput, KvOutput> := Model(map[], StoreStep)

  // ---------- Legal orders, said of the operations alone ----------

  function EditOf(input: KvInput): KeyValues.Edit {
    if input.op == 0 then KeyValues.Other
    else if input.op == 1 then KeyValues.Put(input.key, input.value)
    else KeyValues.Append(input.key, input.value)
  }

  /** The writes among the operations, in this order. */
  function EditsOf(ops: seq<KvOperation>, order: seq<nat>): seq<KeyValues.Edit>
    requires forall i :: 0 <= i < |order| ==> order[i] < |ops|
  {
    if order == [] then [] else EditsOf(ops, order[..|order| - 1]) + [EditOf(ops[order[|order| - 1]].input)]
  }

  /** A get at position i returns the last value put before it, followed by what was appended since. */
  ghost predicate ReadsAt(ops: seq<KvOperation>, order: seq<nat>, i: nat)
    requires Indices(ops, order) && i < |order|
  {
    var x := ops[order[i]];
    x.input.op == 0 ==> x.output.value == KeyValues.ValueOf(EditsOf(ops, order[..i]), x.input.key)
  }

  ghost predicate ReadsLastWrite(ops: seq<KvOperation>, order: seq<nat>, from: nat)
    requires Indices(ops, order)
  {
    forall i: nat {:trigger ReadsAt(ops, order, i)} :: from <= i < |order| ==> ReadsAt(ops, order, i)
  }

  /** The store holds what the first k operations leave behind. */
  ghost predicate Holds(store: map<string, string>, ops: seq<KvOperation>, order: seq<nat>, k: nat)
    requires Indices(ops, order) && k <= |order|
  {
    forall key {:trigger Lookup(store, key)} :: Lookup(store, key) == KeyValues.ValueOf(EditsOf(ops, order[..k]), key)
  }

  /** One operation on the store, in terms of the writes so far. */
  lemma StepHolds(store: map<string, string>, ops: seq<KvOperation>, order: seq<nat>, k: nat)
    requires Indices(ops, order) && k < |order| && Holds(store, ops, order, k)
    ensures Step(Store, ops, store, order[k]).0 <==> ReadsAt(ops, order, k)
    ensures Holds(Step(Store, ops, store, order[k]).1, ops, order, k + 1)
  {
    var x := ops[order[k]].input;
    var after := Step(Store, ops, store, order[k]).1;
    assert Lookup(store, x.key) == KeyValues.ValueOf(EditsOf(ops, order[..k]), x.key);
    assert order[..k + 1][..k] == order[..k];
    forall key ensures Lookup(after, key) == KeyValues.ValueOf(EditsOf(ops, order[..k + 1]), key) {
      assert Lookup(store, key) == KeyValues.ValueOf(EditsOf(ops, order[..k]), key);
      KeyValues.ValueMore(EditsOf(ops, order[..k]), EditOf(x), key);
    }
  }

  lemma {:induction false} LegalFrom(ops: seq<KvOperation>, order: seq<nat>, k: nat, store: map<string, string>)
    requires Indices(ops, order) && k <= |order| && Holds(store, ops, order, k)
    ensures Legal(Store, ops, order[k..], store) <==> ReadsLastWrite(ops, order, k)
    decreases |order| - k
  {
    if k < |order| {
      var rest := order[k..];
      assert rest[0] == order[k] && rest[1..] == order[k + 1..];
      StepHolds(store, ops, order, k);
      LegalFrom(ops, order, k + 1, Step(Store, ops, store, order[k]).1);
      assert ReadsLastWrite(ops, order, k) <==> ReadsAt(ops, order, k) && ReadsLastWrite(ops, order, k + 1);
    }
  }

  /** An order of the operations, respecting real time, in which every get reads what was written last. */
  ghost predicate Explains(ops: seq<KvOperation>, order: seq<nat>) {
    && Indices(ops, order) && OrderOf(order, Below(|ops|)) && RealTime(ops, order) && ReadsLastWrite(ops, order, 0)
  }

  /** An order is legal for the store exactly if every get in it reads what was written last. */
  lemma LegalIffReadsLastWrite(ops: seq<KvOperation>, order: seq<nat>)
    requires Indices(ops, order)
    ensures Legal(Store, ops, order, map[]) <==> ReadsLastWrite(ops, order, 0)
  {
    assert order[0..] == order && order[..0] == [];
    LegalFrom(ops, order, 0, map[]);
  }

  lemma LinearizableIffExplained(ops: seq<KvOperation>)
    ensures Linearizable(Store, ops) <==> exists order :: Explains(ops, order)
  {
    forall order ensures Linearization(Store, ops, Below(|ops|), Store.init, order) <==> Explains(ops, order) {
      if Indices(ops, order) {
        LegalIffReadsLastWrite(ops, order);
      }
    }
  }

  // ---------- Locality ----------

  ghost function OfKey(ops: seq<KvOperation>, rest: set<nat>, key: string): set<nat> {
    set x | x in rest && x < |ops| && ops[x].input.key == key
  }

  /** Some operation of `rest` returns first. */
  lemma {:induction false} EarliestReturn<I, O>(ops: seq<Operation<I, O>>, rest: set<nat>) returns (z: nat)
    requires rest != {} && forall x :: x in rest ==> x < |ops|
    ensures z in rest && forall x :: x in rest ==> ops[z].ret <= ops[x].ret
    decreases |rest|
  {
    z :| z in rest;
    if rest != {z} {
      var y := EarliestReturn(ops, rest - {z});
      if ops[y].ret < ops[z].ret {
        z := y;
      }
    }
  }

  ghost predicate EveryKey(ops: seq<KvOperation>, rest: set<nat>, store: map<string, string>) {
    forall key {:trigger Lookup(store, key)} :: Placeable(KvModel, ops, OfKey(ops, rest, key), Lookup(store, key))
  }

  /** Placing x in the store is placing it in its key's history and leaving the others alone. */
  lemma StepOneKey(ops: seq<KvOperation>, rest: set<nat>, store: map<string, string>, x: nat, key: string)
    requires x in rest && x < |ops|
    ensures var store' := Step(Store, ops, store, x).1;
            var own := ops[x].input.key;
            && Step(Store, ops, store, x).0 == Step(KvModel, ops, Lookup(store, own), x).0
            && (key == own ==> Lookup(store', key) == Step(KvModel, ops, Lookup(store, own), x).1
                               && OfKey(ops, rest - {x}, key) == OfKey(ops, rest, key) - {x})
            && (key != own ==> Lookup(store', key) == Lookup(store, key)
                               && OfKey(ops, rest - {x}, key) == OfKey(ops, rest, key))
  {
  }

  /** If every key can go on without x, and x can come first among its key, then every key can go on. */
  lemma EveryKeyBefore(ops: seq<KvOperation>, rest: set<nat>, store: map<string, string>, x: nat)
    requires Minimal(ops, rest, x) && Step(Store, ops, store, x).0
    requires EveryKey(ops, rest - {x}, Step(Store, ops, store, x).1)
    ensures EveryKey(ops, rest, store)
  {
    var store' := Step(Store, ops, store, x).1;
    forall key ensures Placeable(KvModel, ops, OfKey(ops, rest, key), Lookup(store, key)) {
      StepOneKey(ops, rest, store, x, key);
      assert Placeable(KvModel, ops, OfKey(ops, rest - {x}, key), Lookup(store', key));
      if key == ops[x].input.key {
        assert Minimal(ops, OfKey(ops, rest, key), x);
        assert First(KvModel, ops, OfKey(ops, rest, key), Lookup(store, key), x);
      }
    }
  }

  lemma EveryKeyAfter(ops: seq<KvOperation>, rest: set<nat>, store: map<string, string>, x: nat)
    requires x in rest && x < |ops| && EveryKey(ops, rest, store)
    requires First(KvModel, ops, OfKey(ops, rest, ops[x].input.key), Lookup(store, ops[x].input.key), x)
    ensures Step(Store, ops, store, x).0 && EveryKey(ops, rest - {x}, Step(Store, ops, store, x).1)
  {
    var store' := Step(Store, ops, store, x).1;
    StepOneKey(ops, rest, store, x, ops[x].input.key);
    forall key ensures Placeable(KvModel, ops, OfKey(ops, rest - {x}, key), Lookup(store', key)) {
      StepOneKey(ops, rest, store, x, key);
      assert Placeable(KvModel, ops, OfKey(ops, rest, key), Lookup(store, key));
    }
  }

  /** The first operation, in its own key's order, of the key whose return comes first may come first overall. */
  lemma SomeKeyFirst(ops: seq<KvOperation>, rest: set<nat>, store: map<string, string>) returns (x: nat)
    requires rest != {} && (forall x :: x in rest ==> x < |ops|) && EveryKey(ops, rest, store)
    ensures Minimal(ops, rest, x)
    ensures First(KvModel, ops, OfKey(ops, rest, ops[x].input.key), Lookup(store, ops[x].input.key), x)
  {
    var z := EarliestReturn(ops, rest);
    var key := ops[z].input.key;
    var own := OfKey(ops, rest, key);
    assert z in own;
    assert Placeable(KvModel, ops, own, Lookup(store, key));
    x :| Minimal(ops, own, x) && First(KvModel, ops, own, Lookup(store, key), x);
  }

  lemma {:induction false} PlaceableByKey(ops: seq<KvOperation>, rest: set<nat>, store: map<string, string>)
    requires forall x :: x in rest ==> x < |ops|
    ensures Placeable(Store, ops, rest, store) <==> EveryKey(ops, rest, store)
    decreases |rest|
  {
    if rest == {} {
      forall key ensures OfKey(ops, rest, key) == {} {
      }
    } else {
      if Placeable(Store, ops, rest, store) {
        var x :| Minimal(ops, rest, x) && First(Store, ops, rest, store, x);
        PlaceableByKey(ops, rest - {x}, Step(Store, ops, store, x).1);
        EveryKeyBefore(ops, rest, store, x);
      }
      if EveryKey(ops, rest, store) {
        var x := SomeKeyFirst(ops, rest, store);
        EveryKeyAfter(ops, rest, store, x);
        PlaceableByKey(ops, rest - {x}, Step(Store, ops, store, x).1);
        assert First(Store, ops, rest, store, x);
      }
    }
  }

  // ---------- Sub-histories ----------

  /** The operations on `key`, in the order of the history. */
  function Sub(ops: seq<KvOperation>, key: string): seq<KvOperation> {
    if ops == [] then []
    else
      var n := |ops| - 1;
      Sub(ops[..n], key) + (if ops[n].input.key == key then [ops[n]] else [])
  }

  /** Where they stand in the history. */
  ghost function Where(ops: seq<KvOperation>, key: string): seq<nat> {
    if ops == [] then []
    else
      var n := |ops| - 1;
      Where(ops[..n], key) + (if ops[n].input.key == key then [n] else [])
  }

  /** `at` embeds `sub` into `ops` without repetition. */
  ghost predicate Embeds<I, O>(ops: seq<Operation<I, O>>, sub: seq<Operation<I, O>>, at: seq<nat>) {
    && |at| == |sub|
    && (forall j :: 0 <= j < |at| ==> at[j] < |ops| && ops[at[j]] == sub[j])
    && (forall i, j :: 0 <= i < j < |at| ==> at[i] < at[j])
  }

  ghost function Image(at: seq<nat>, rest: set<nat>): (r: set<nat>)
    ensures forall x :: x in r ==> exists j :: j in rest && j < |at| && at[j] == x
    ensures forall j :: j in rest && j < |at| ==> at[j] in r
  {
    set j | j in rest && j < |at| :: at[j]
  }

  lemma {:induction false} WhereEmbeds(ops: seq<KvOperation>, key: string)
    ensures Embeds(ops, Sub(ops, key), Where(ops, key))
    ensures forall x: nat :: x in Where(ops, key) <==> x < |ops| && ops[x].input.key == key
  {
    if ops != [] {
      var n := |ops| - 1;
      WhereEmbeds(ops[..n], key);
      assert forall j :: 0 <= j < |Where(ops[..n], key)| ==> Where(ops[..n], key)[j] < n;
    }
  }

  lemma ImageMinus(at: seq<nat>, rest: set<nat>, j: nat)
    requires j in rest && j < |at| && forall i, k :: 0 <= i < k < |at| ==> at[i] < at[k]
    ensures Image(at, rest) - {at[j]} == Image(at, rest - {j})
  {
    forall x | x in Image(at, rest) && x != at[j] ensures x in Image(at, rest - {j}) {
      var i :| i in rest && i < |at| && at[i] == x;
      assert i in rest - {j};
    }
    forall x | x in Image(at, rest - {j}) ensures x in Image(at, rest) && x != at[j] {
      var i :| i in rest - {j} && i < |at| && at[i] == x;
    }
  }

  lemma {:induction false} PlaceableInto<S, I, O>(m: Model<S, I, O>, ops: seq<Operation<I, O>>,
                                                  sub: seq<Operation<I, O>>, at: seq<nat>,
                                                  rest: set<nat>, s: S)
    requires Embeds(ops, sub, at) && (forall j :: j in rest ==> j < |sub|) && Placeable(m, sub, rest, s)
    ensures Placeable(m, ops, Image(at, rest), s)
    decreases |rest|
  {
    if rest == {} {
      assert Image(at, rest) == {};
    } else {
      var j: nat :| Minimal(sub, rest, j) && First(m, sub, rest, s, j);
      ImageMinus(at, rest, j);
      PlaceableInto(m, ops, sub, at, rest - {j}, Step(m, sub, s, j).1);
      MinimalEmbedded(ops, sub, at, rest, j);
      assert First(m, ops, Image(at, rest), s, at[j]);
    }
  }

  lemma {:induction false} PlaceableFrom<S, I, O>(m: Model<S, I, O>, ops: seq<Operation<I, O>>,
                                                  sub: seq<Operation<I, O>>, at: seq<nat>,
                                                  rest: set<nat>, s: S)
    requires Embeds(ops, sub, at) && (forall j :: j in rest ==> j < |sub|) && Placeable(m, ops, Image(at, rest), s)
    ensures Placeable(m, sub, rest, s)
    decreases |rest|
  {
    if rest != {} {
      var k :| k in rest;
      assert at[k] in Image(at, rest);
      var x: nat :| Minimal(ops, Image(at, rest), x) && First(m, ops, Image(at, rest), s, x);
      var j :| j in rest && j < |at| && at[j] == x;
      ImageMinus(at, rest, j);
      PlaceableFrom(m, ops, sub, at, rest - {j}, Step(m, sub, s, j).1);
      MinimalEmbedded(ops, sub, at, rest, j);
      assert First(m, sub, rest, s, j);
    }
  }

  lemma MinimalEmbedded<I, O>(ops: seq<Operation<I, O>>, sub: seq<Operation<I, O>>, at: seq<nat>, rest: set<nat>,
                              j: nat)
    requires Embeds(ops, sub, at) && (forall i :: i in rest ==> i < |sub|) && j in rest
    ensures Minimal(sub, rest, j) <==> Minimal(ops, Image(at, rest), at[j])
  {
    assert at[j] in Image(at, rest);
    if Minimal(ops, Image(at, rest), at[j]) {
      forall i | i in rest ensures sub[j].call <= sub[i].ret {
        assert at[i] in Image(at, rest);
      }
    }
  }

  lemma ImageOfAll(at: seq<nat>, x: nat)
    ensures x in Image(at, Below(|at|)) <==> x in at
  {
    if x in at {
      var j :| 0 <= j < |at| && at[j] == x;
      assert j in Below(|at|);
    }
  }

  /** The places of the key's operations are all of them. */
  lemma WhereIsAll(ops: seq<KvOperation>, key: string)
    ensures Image(Where(ops, key), Below(|Where(ops, key)|)) == OfKey(ops, Below(|ops|), key)
  {
    WhereEmbeds(ops, key);
    forall x: nat ensures x in Image(Where(ops, key), Below(|Where(ops, key)|)) <==>
          x in OfKey(ops, Below(|ops|), key) {
      ImageOfAll(Where(ops, key), x);
    }
  }

  lemma SubPlaceable(ops: seq<KvOperation>, key: string)
    ensures Placeable(KvModel, Sub(ops, key), Below(|Sub(ops, key)|), "")
       <==> Placeable(KvModel, ops, OfKey(ops, Below(|ops|), key), "")
  {
    var sub, at := Sub(ops, key), Where(ops, key);
    WhereEmbeds(ops, key);
    WhereIsAll(ops, key);
    if Placeable(KvModel, sub, Below(|sub|), "") {
      PlaceableInto(KvModel, ops, sub, at, Below(|sub|), "");
    }
    if Placeable(KvModel, ops, Image(at, Below(|sub|)), "") {
      PlaceableFrom(KvModel, ops, sub, at, Below(|sub|), "");
    }
  }

  ghost predicate Timed<I, O>(ops: seq<Operation<I, O>>) {
    forall x :: 0 <= x < |ops| ==> ops[x].call <= ops[x].ret
  }

  lemma SubTimed(ops: seq<KvOperation>, key: string)
    requires Timed(ops)
    ensures Timed(Sub(ops, key))
  {
    WhereEmbeds(ops, key);
  }

  lemma KeyLinearizable(ops: seq<KvOperation>, key: string)
    requires Timed(ops)
    ensures Linearizable(KvModel, Sub(ops, key)) <==> Placeable(KvModel, ops, OfKey(ops, Below(|ops|), key), "")
  {
    SubTimed(ops, key);
    SubPlaceable(ops, key);
    PlaceableIsLinearizable(KvModel, Sub(ops, key), Below(|Sub(ops, key)|), "");
  }

  ghost predicate LinearizableByKey(ops: seq<KvOperation>) {
    forall key :: Linearizable(KvModel, Sub(ops, key))
  }

  /** A history of the store is linearizable if and only if every key's sub-history is. */
  lemma Locality(ops: seq<KvOperation>)
    requires Timed(ops)
    ensures Linearizable(Store, ops) <==> LinearizableByKey(ops)
  {
    PlaceableIsLinearizable(Store, ops, Below(|ops|), Store.init);
    PlaceableByKey(ops, Below(|ops|), Store.init);
    ByKeyAgree(ops);
  }

  lemma ByKeyAgree(ops: seq<KvOperation>)
    requires Timed(ops)
    ensures EveryKey(ops, Below(|ops|), Store.init) <==> LinearizableByKey(ops)
  {
    if EveryKey(ops, Below(|ops|), Store.init) {
      forall key ensures Linearizable(KvModel, Sub(ops, key)) {
        KeyLinearizable(ops, key);
        assert Lookup(Store.init, key) == "";
      }
    } else {
      var key :| !Placeable(KvModel, ops, OfKey(ops, Below(|ops|), key), Lookup(Store.init, key));
      KeyLinearizable(ops, key);
      assert !Linearizable(KvModel, Sub(ops, key));
    }
  }

  // ---------- The check of a whole history ----------

  /** One sub-history for each key that occurs. */
  method Partition(ops: seq<KvOperation>) returns (parts: map<string, seq<KvOperation>>)
    ensures forall key :: key in parts ==> parts[key] == Sub(ops, key)
    ensures forall key :: key !in parts ==> Sub(ops, key) == []
  {
    parts := map[];
    for i := 0 to |ops|
      invariant forall key :: key in parts ==> parts[key] == Sub(ops[..i], key)
      invariant forall key :: key !in parts ==> Sub(ops[..i], key) == []
    {
      assert ops[..i + 1][..i] == ops[..i];
      var key := ops[i].input.key;
      parts := parts[key := (if key in parts then parts[key] else []) + [ops[i]]];
    }
    assert ops[..|ops|] == ops;
  }

  ghost predicate LinearizableOn(ops: seq<KvOperation>, keys: set<string>) {
    forall key :: key in keys ==> Linearizable(KvModel, Sub(ops, key))
  }

  lemma OneMoreKey(ops: seq<KvOperation>, keys: set<string>, key: string)
    ensures LinearizableOn(ops, keys + {key}) <==> LinearizableOn(ops, keys) && Linearizable(KvModel, Sub(ops, key))
  {
  }

  lemma OtherKeysAreEmpty(ops: seq<KvOperation>, keys: set<string>)
    requires forall key :: key !in keys ==> Sub(ops, key) == []
    ensures LinearizableOn(ops, keys) <==> LinearizableByKey(ops)
  {
    assert Linearization(KvModel, [], Below(0), "", []);
    assert Linearizable(KvModel, []);
  }

  /** Partition, and check each part: the answer is whether some order explains what every get has read. */
  method CheckHistory(ops: seq<KvOperation>) returns (ok: bool)
    requires Timed(ops)
    ensures ok <==> Linearizable(Store, ops)
    ensures ok <==> exists order :: Explains(ops, order)
  {
    var parts := Partition(ops);
    ok := true;
    var keys := parts.Keys;
    ghost var done: set<string> := {};
    while keys != {}
      invariant keys <= parts.Keys && done == parts.Keys - keys
      invariant ok <==> LinearizableOn(ops, done)
      decreases |keys|
    {
      var key :| key in keys;
      var single := CheckKey(ops, key, parts[key]);
      OneMoreKey(ops, done, key);
      ok, keys, done := ok && single, keys - {key}, done + {key};
    }
    OtherKeysAreEmpty(ops, done);
    Locality(ops);
    LinearizableIffExplained(ops);
  }

  method CheckKey(ghost ops: seq<KvOperation>, ghost key: string, part: seq<KvOperation>) returns (ok: bool)
    requires Timed(ops) && part == Sub(ops, key)
    ensures ok <==> Linearizable(KvModel, Sub(ops, key))
  {
    SubTimed(ops, key);
    ok := CheckPart(part);
  }

  method CheckPart(part: seq<KvOperation>) returns (ok: bool)
    requires Timed(part)
    ensures ok <==> Linearizable(KvModel, part)
  {
    var entries := MakeEntries(part);
    EntriesReady(KvModel, entries, part);
    ok := CheckSingle(KvModel, entries);
  }

  lemma EntriesReady<S, I, O>(m: Model<S, I, O>, h: seq<Entry<I, O>>, ops: seq<Operation<I, O>>)
    requires EntriesOf(h, ops) && Ordered(h) && Timed(ops)
    ensures WellFormed(h, |h| / 2)
    ensures Linearizable(m, OpsOf(h, |h| / 2)) <==> Linearizable(m, ops)
  {
    EntriesKeepLinearizability(m, h, ops);
    assert |h| / 2 == |ops|;
  }
}
