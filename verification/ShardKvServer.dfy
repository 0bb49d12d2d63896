/** The replica's own methods, each proved to compute what the group's state functions say. */
module ShardKvServer {
  import opened Sets
  import opened KvOps
  import opened ShardConfig
  import opened ShardKvGroup

  /** Any set of shards can be visited in some order. */
  lemma {:induction false} SomeOrder(keys: set<nat>) returns (order: seq<nat>)
    ensures Enumerates(order, keys)
    decreases |keys|
  {
    if keys == {} {
      order := [];
    } else {
      var s := Pick(keys);
      var rest := SomeOrder(keys - {s});
      order := [s] + rest;
    }
  }

  /** The shards visited so far, followed by those that are left. */
  lemma OrderExtends(visited: seq<nat>, tail: seq<nat>, left: set<nat>, keys: set<nat>)
    requires Distinct(visited) && left <= keys && forall s :: s in visited <==> s in keys && s !in left
    requires Enumerates(tail, left)
    ensures Enumerates(visited + tail, keys)
  {
    var order := visited + tail;
    forall i, j | 0 <= i < j < |order| ensures order[i] != order[j] {
      assert i < |visited| <= j ==> order[i] in visited && order[j] in tail;
    }
  }

  lemma InRange(order: seq<nat>, keys: set<nat>, n: nat)
    requires Enumerates(order, keys) && forall s :: s in keys ==> s < n
    ensures Shards(order, n) && forall i :: 0 <= i < |order| ==> order[i] in keys
  {
    forall i | 0 <= i < |order| ensures order[i] in keys && order[i] < n {
      assert order[i] in order;
    }
  }

  /** Visiting a first part whose shards all move in, and then the rest. */
  lemma {:induction false} AbsorbInTwo(shards: seq<Shard>, data: map<nat, Table>, first: seq<nat>, rest: seq<nat>)
    requires Shards(first, |shards|) && Shards(rest, |shards|) && Distinct(first)
    requires forall s :: s in first || s in rest ==> s in data
    requires forall i :: 0 <= i < |first| ==> shards[first[i]].status == MoveIn
    ensures Shards(first + rest, |shards|) && forall i :: 0 <= i < |first + rest| ==> (first + rest)[i] in data
    ensures |AbsorbAlong(shards, data, first)| == |shards|
    ensures AbsorbAlong(shards, data, first + rest) == AbsorbAlong(AbsorbAlong(shards, data, first), data, rest)
    decreases |first|
  {
    forall i | 0 <= i < |first + rest| ensures (first + rest)[i] in data {
      assert (first + rest)[i] in first || (first + rest)[i] in rest;
    }
    if first == [] {
      assert first + rest == rest;
    } else {
      var after := shards[first[0] := Shard(shards[first[0]].kv + data[first[0]], GC)];
      assert (first + rest)[1..] == first[1..] + rest;
      assert forall s :: s in first[1..] ==> s in first;
      AbsorbInTwo(after, data, first[1..], rest);
    }
  }

  /** The loop has taken in the shards visited so far. */
  ghost predicate Walked(was: seq<Shard>, now: seq<Shard>, data: map<nat, Table>, visited: seq<nat>, left: set<nat>) {
    && left <= data.Keys && |now| == |was| && (forall s :: s in data ==> s < |was|)
    && Distinct(visited) && Shards(visited, |was|) && (forall s :: s in visited <==> s in data && s !in left)
    && (forall i :: 0 <= i < |visited| ==> visited[i] in data && was[visited[i]].status == MoveIn)
    && (forall s: nat {:trigger s in visited} :: s < |was| && s !in visited ==> now[s] == was[s])
    && now == AbsorbAlong(was, data, visited)
  }

  lemma WalkStep(was: seq<Shard>, now: seq<Shard>, data: map<nat, Table>, visited: seq<nat>, left: set<nat>, s: nat)
    requires Walked(was, now, data, visited, left) && s in left && now[s].status == MoveIn
    ensures Walked(was, now[s := Shard(now[s].kv + data[s], GC)], data, visited + [s], left - {s})
  {
    assert s !in visited;
    AbsorbInTwo(was, data, visited, [s]);
    var more := visited + [s];
    forall t ensures t in more <==> t in data && t !in left - {s} {
      assert t in more <==> t in visited || t == s;
    }
  }

  /** The loop stops at shard s; the shards left come after it in the order. */
  lemma WalkStops(was: seq<Shard>, now: seq<Shard>, data: map<nat, Table>, visited: seq<nat>, left: set<nat>, s: nat)
    returns (order: seq<nat>)
    requires Walked(was, now, data, visited, left) && s in left && now[s].status != MoveIn
    ensures Enumerates(order, data.Keys) && Shards(order, |was|) && (forall i :: 0 <= i < |order| ==> order[i] in data)
    ensures now == AbsorbAlong(was, data, order)
  {
    var rest := SomeOrder(left - {s});
    var tail := [s] + rest;
    assert Enumerates(tail, left);
    OrderExtends(visited, tail, left, data.Keys);
    InRange(visited + tail, data.Keys, |was|);
    InRange(tail, left, |was|);
    AbsorbInTwo(was, data, visited, tail);
    order := visited + tail;
  }

  ghost predicate Grouped(v: Group, status: Status, k: nat, r: map<int, seq<nat>>, g: int)
    requires k <= |v.shards| == |v.prev.shards|
  {
    && (g in r <==> g != 0 && ByStatus(v, status, g, k) != [])
    && (g in r ==> r[g] == ByStatus(v, status, g, k))
  }

  method CopyData(kv: Table) returns (newKV: Table)
    ensures newKV == kv
  {
    newKV := map[];
    newKV := CopyInto(newKV, kv);
  }

  /** Writes every pair of `data` into `kv`, in whatever order the map yields them. */
  method CopyInto(kv: Table, data: Table) returns (r: Table)
    ensures r == kv + data
  {
    r := kv;
    var left := data.Keys;
    while left != {}
      invariant left <= data.Keys && r == kv + (data - left)
      decreases |left|
    {
      var k := Visit(left);
      r, left := r[k := data[k]], left - {k};
    }
    assert data - {} == data;
  }

  method MergeTables(own: DupTable, other: DupTable) returns (r: DupTable)
    ensures r == Merge(own, other)
  {
    r := own;
    var left := other.Keys;
    while left != {}
      invariant left <= other.Keys && r == Merge(own, other - left)
      decreases |left|
    {
      var c := Visit(left);
      ghost var was := r;
      if c !in r || r[c].seqId < other[c].seqId {
        r := r[c := other[c]];
      }
      MergeOne(own, other, left, c);
      left := left - {c};
    }
    assert other - {} == other;
  }

  lemma MergeOne(own: DupTable, other: DupTable, left: set<int>, c: int)
    requires c in left && left <= other.Keys
    ensures var was := Merge(own, other - left);
            Merge(own, other - (left - {c})) ==
              if c !in was || was[c].seqId < other[c].seqId then was[c := other[c]] else was
  {
  }

  class ShardKV {
    const gid: int
    var currentConfig: Config
    var prevConfig: Config
    var shards: seq<Shard>
    var duplicateTable: DupTable

    ghost function View(): Group
      reads this
    {
      Group(gid, currentConfig, prevConfig, shards, duplicateTable)
    }

    ghost predicate Ready()
      reads this
    {
      shards != [] && Shaped(View(), |shards|)
    }

    constructor (gid: int, n: nat)
      requires n > 0
      ensures Ready() && View() == Init(gid, n)
    {
      this.gid := gid;
      currentConfig, prevConfig := DefaultConfig(n), DefaultConfig(n);
      shards, duplicateTable := seq(n, i => Empty), map[];
    }

    method MatchGroup(key: string) returns (b: bool)
      requires Ready()
      ensures b == Serves(View(), ShardOf(key, |shards|))
    {
      var shard := ShardOf(key, |shards|);
      var status := shards[shard].status;
      return currentConfig.shards[shard] == gid && (status == Normal || status == GC);
    }

    method ApplyToStateMachine(op: Op, shard: nat) returns (reply: Reply)
      requires Ready() && shard < |shards|
      modifies this`shards
      ensures op.Get? ==> shards == old(shards)
      ensures !op.Get? ==> shards == old(shards)[shard := old(shards)[shard].(kv := Write(old(shards)[shard].kv, op))]
      ensures reply == if op.Get? then Lookup(old(shards)[shard].kv, op.key) else Reply("", OK)
    {
      var kv := shards[shard].kv;
      match op
      case Get(key) =>
        if key in kv {
          reply := Reply(kv[key], OK);
        } else {
          reply := Reply("", ErrNoKey);
        }
      case Put(key, value, _, _) =>
        shards := shards[shard := shards[shard].(kv := kv[key := value])];
        reply := Reply("", OK);
      case Append(key, value, _, _) =>
        var was := if key in kv then kv[key] else "";
        shards := shards[shard := shards[shard].(kv := kv[key := was + value])];
        reply := Reply("", OK);
    }

    method ApplyClientOperation(op: Op) returns (reply: Reply)
      requires Ready()
      modifies this
      ensures Ready() && (View(), reply) == ApplyClient(old(View()), op)
    {
      var ok := MatchGroup(op.key);
      if !ok {
        return Reply("", ErrWrongGroup);
      }
      if !op.Get? && op.client in duplicateTable && op.seqId <= duplicateTable[op.client].seqId {
        return duplicateTable[op.client].reply;
      }
      reply := ApplyToStateMachine(op, ShardOf(op.key, |shards|));
      if !op.Get? {
        duplicateTable := duplicateTable[op.client := Last(op.seqId, reply)];
      }
    }

    method ApplyNewConfig(newConfig: Config) returns (err: Err)
      requires Ready() && |newConfig.shards| == |shards|
      modifies this
      ensures Ready() && View() == ApplyConfig(old(View()), newConfig)
      ensures err == if old(currentConfig.num) + 1 == newConfig.num then OK else ErrWrongConfig
    {
      if currentConfig.num + 1 != newConfig.num {
        return ErrWrongConfig;
      }
      var i := 0;
      while i < |shards|
        invariant 0 <= i <= |shards| == |old(shards)| && currentConfig == old(currentConfig)
        invariant prevConfig == old(prevConfig) && duplicateTable == old(duplicateTable)
        invariant forall s :: i <= s < |shards| ==> shards[s] == old(shards)[s]
        invariant forall s :: 0 <= s < i ==> shards[s] == old(shards)[s].(status :=
                    NewStatus(gid, currentConfig.shards[s], newConfig.shards[s], old(shards)[s].status))
      {
        if currentConfig.shards[i] != gid && newConfig.shards[i] == gid {
          if currentConfig.shards[i] != 0 {
            shards := shards[i := shards[i].(status := MoveIn)];
          }
        }
        if currentConfig.shards[i] == gid && newConfig.shards[i] != gid {
          if newConfig.shards[i] != 0 {
            shards := shards[i := shards[i].(status := MoveOut)];
          }
        }
        i := i + 1;
      }
      prevConfig := currentConfig;
      currentConfig := newConfig;
      err := OK;
    }

    /** The shards are visited in the order `order`, up to the first that is not to move in. */
    method ApplyShardMigration(m: ShardData) returns (err: Err, ghost order: seq<nat>)
      requires Ready() && forall s :: s in m.data ==> s < |shards|
      modifies this
      ensures Ready() && Enumerates(order, m.data.Keys) && Shards(order, |old(shards)|)
      ensures View() == ApplyMigration(old(View()), m, order)
      ensures err == ErrWrongConfig
    {
      order := SomeOrder(m.data.Keys);
      InRange(order, m.data.Keys, |shards|);
      if m.num == currentConfig.num {
        order := AbsorbShards(m.data);
        duplicateTable := MergeTables(duplicateTable, m.dup);
      }
      return ErrWrongConfig, order;
    }

    method AbsorbShards(data: map<nat, Table>) returns (ghost order: seq<nat>)
      requires Ready() && forall s :: s in data ==> s < |shards|
      modifies this`shards
      ensures |shards| == |old(shards)| && Enumerates(order, data.Keys) && Shards(order, |shards|)
      ensures shards == AbsorbAlong(old(shards), data, order)
    {
      ghost var visited: seq<nat> := [];
      var left := data.Keys;
      while left != {}
        invariant Walked(old(shards), shards, data, visited, left)
        decreases |left|
      {
        var s := Visit(left);
        if shards[s].status != MoveIn {
          order := WalkStops(old(shards), shards, data, visited, left, s);
          return;
        }
        WalkStep(old(shards), shards, data, visited, left, s);
        var kv := CopyInto(shards[s].kv, data[s]);
        shards := shards[s := Shard(kv, GC)];
        visited, left := visited + [s], left - {s};
      }
      order := visited;
    }

    method ApplyShardGC(num: int, ids: seq<nat>) returns (err: Err)
      requires Ready() && Shards(ids, |shards|)
      modifies this`shards
      ensures Ready() && View() == ApplyGC(old(View()), num, ids) && err == OK
    {
      if num == currentConfig.num {
        var i := 0;
        while i < |ids|
          invariant 0 <= i <= |ids| && |shards| == |old(shards)|
          invariant ClearAlong(shards, ids[i..]) == ClearAlong(old(shards), ids)
        {
          var s := ids[i];
          assert ids[i..][0] == s && ids[i..][1..] == ids[i + 1..];
          if shards[s].status == GC {
            shards := shards[s := shards[s].(status := Normal)];
          } else if shards[s].status == MoveOut {
            shards := shards[s := Empty];
          } else {
            break;
          }
          i := i + 1;
        }
      }
      return OK;
    }

    /** No shard is on the move: the next configuration may be fetched. */
    method NeedFetch() returns (b: bool)
      ensures b == AllNormal(View())
    {
      for i := 0 to |shards|
        invariant forall s :: 0 <= s < i ==> shards[s].status == Normal
      {
        if shards[i].status != Normal {
          return false;
        }
      }
      return true;
    }

    method GetShardByStatus(status: Status) returns (gidToShards: map<int, seq<nat>>)
      requires Ready()
      ensures forall g :: g in gidToShards <==> g != 0 && ByStatus(View(), status, g, |shards|) != []
      ensures forall g :: g in gidToShards ==> gidToShards[g] == ByStatus(View(), status, g, |shards|)
    {
      gidToShards := map[];
      for i := 0 to |shards|
        invariant forall g {:trigger Grouped(View(), status, i, gidToShards, g)} ::
              Grouped(View(), status, i, gidToShards, g)
      {
        ghost var was := gidToShards;
        if shards[i].status == status {
          var gid := prevConfig.shards[i];
          if gid != 0 {
            if gid !in gidToShards {
              gidToShards := gidToShards[gid := []];
            }
            gidToShards := gidToShards[gid := gidToShards[gid] + [i]];
          }
        }
        ghost var k := i + 1;
        forall g ensures Grouped(View(), status, k, gidToShards, g) {
          assert Grouped(View(), status, i, was, g);
        }
      }
      ghost var n, v := |shards|, View();
      forall g
        ensures (g in gidToShards <==> g != 0 && ByStatus(v, status, g, n) != [])
        ensures g in gidToShards ==> gidToShards[g] == ByStatus(v, status, g, n)
      {
        assert Grouped(v, status, n, gidToShards, g);
      }
    }

    method AnswerPull(num: int, ids: seq<nat>) returns (answer: Answer)
      requires Ready() && Shards(ids, |shards|)
      ensures answer == GetShardsData(View(), num, ids)
    {
      if currentConfig.num < num {
        return NotReady;
      }
      var data: map<nat, Table> := map[];
      for i := 0 to |ids|
        invariant data == map s | s in ids[..i] :: shards[s].kv
      {
        var kv := CopyData(shards[ids[i]].kv);
        assert ids[..i + 1] == ids[..i] + [ids[i]];
        data := data[ids[i] := kv];
      }
      assert ids[..|ids|] == ids;
      return Data(ShardData(num, data, duplicateTable));
    }
  }
}
