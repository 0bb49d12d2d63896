/**
 One replica group of the sharded store, as the state that its log of commands produces.
 */
module ShardKvGroup {
  import opened KvOps
  import opened ShardConfig

  datatype Status = Normal | MoveIn | MoveOut | GC

  datatype Shard = Shard(kv: Table, status: Status)

  datatype Group = Group(gid: int, config: Config, prev: Config, shards: seq<Shard>, dup: DupTable)

  const Empty := Shard(map[], Normal)

  function Init(gid: int, n: nat): Group {
    Group(gid, DefaultConfig(n), DefaultConfig(n), seq(n, i => Empty), map[])
  }

  /** The shape every state has: three sequences of one length. */
  predicate Shaped(g: Group, n: nat) {
    |g.shards| == |g.config.shards| == |g.prev.shards| == n
  }

  // ---------- Client operations ----------

  function ShardOf(key: string, n: nat): (s: nat)
    requires n > 0
    ensures s < n
  {
    if key == "" then 0 else key[0] as int % n
  }

  /** Keys with the same first byte share a shard: the remainder of that byte, or 0 for the empty key. */
  lemma ShardByFirstByte(key: string, other: string, n: nat)
    requires n > 0
    ensures key == "" ==> ShardOf(key, n) == 0
    ensures key != "" ==> exists q: nat :: key[0] as int == q * n + ShardOf(key, n)
    ensures key != "" && other != "" && key[0] == other[0] ==> ShardOf(key, n) == ShardOf(other, n)
  {
    if key != "" {
      var q := key[0] as int / n;
      assert key[0] as int == q * n + ShardOf(key, n);
    }
  }

  predicate Serves(g: Group, s: nat)
    requires s < |g.shards| == |g.config.shards|
  {
    g.config.shards[s] == g.gid && (g.shards[s].status == Normal || g.shards[s].status == GC)
  }

  /** A write takes effect here: the group serves the key and has not seen the write. */
  predicate TakesEffect(g: Group, op: Op)
    requires Shaped(g, |g.shards|) && g.shards != []
  {
    Serves(g, ShardOf(op.key, |g.shards|)) && !op.Get? && !Duplicated(g.dup, op.client, op.seqId)
  }

  function ApplyClient(g: Group, op: Op): (Group, Reply)
    requires Shaped(g, |g.shards|) && g.shards != []
  {
    var s := ShardOf(op.key, |g.shards|);
    if !Serves(g, s) then (g, Reply("", ErrWrongGroup))
    else if op.Get? then (g, Lookup(g.shards[s].kv, op.key))
    else if Duplicated(g.dup, op.client, op.seqId) then (g, g.dup[op.client].reply)
    else
      (g.(shards := g.shards[s := g.shards[s].(kv := Write(g.shards[s].kv, op))],
          dup := g.dup[op.client := Last(op.seqId, Reply("", OK))]),
       Reply("", OK))
  }

  // ---------- Configurations ----------

  /** The status of a shard after the step from configuration `c` to `d`. */
  function NewStatus(gid: int, was: int, owner: int, status: Status): Status {
    if was != gid && owner == gid && was != 0 then MoveIn
    else if was == gid && owner != gid && owner != 0 then MoveOut
    else status
  }

  function ApplyConfig(g: Group, d: Config): Group
    requires Shaped(g, |d.shards|)
  {
    if g.config.num + 1 != d.num then g
    else
      g.(shards := seq(|g.shards|, s requires 0 <= s < |g.shards| =>
                    g.shards[s].(status := NewStatus(g.gid, g.config.shards[s], d.shards[s], g.shards[s].status))),
         prev := g.config,
         config := d)
  }

  predicate AllNormal(g: Group) {
    forall s :: 0 <= s < |g.shards| ==> g.shards[s].status == Normal
  }

  // ---------- Moving shards ----------

  /** The shards with this status that came from group `from`, in ascending order, among the first k. */
  function ByStatus(g: Group, status: Status, from: int, k: nat): (ids: seq<nat>)
    requires k <= |g.shards| == |g.prev.shards|
    ensures Shards(ids, k) && forall i, j :: 0 <= i < j < |ids| ==> ids[i] < ids[j]
    ensures forall s: nat :: s in ids <==> s < k && g.shards[s].status == status && g.prev.shards[s] == from
  {
    if k == 0 then []
    else if g.shards[k - 1].status == status
          && g.prev.shards[k - 1] == from then ByStatus(g, status, from, k - 1) + [k - 1]
    else ByStatus(g, status, from, k - 1)
  }

  predicate Shards(ids: seq<nat>, n: nat) {
    forall i :: 0 <= i < |ids| ==> ids[i] < n
  }

  predicate Distinct(ids: seq<nat>) {
    forall i, j :: 0 <= i < j < |ids| ==> ids[i] != ids[j]
  }

  /** The answer to a pull: the contents of the shards and the whole table of last writes. */
  datatype ShardData = ShardData(num: int, data: map<nat, Table>, dup: DupTable)

  datatype Answer = NotReady | Data(reply: ShardData)

  function GetShardsData(g: Group, num: int, ids: seq<nat>): Answer
    requires Shards(ids, |g.shards|)
  {
    if g.config.num < num then NotReady
    else Data(ShardData(num, map s | s in ids :: g.shards[s].kv, g.dup))
  }

  /** The shards named in `order` are filled one after another, up to the first that is not to move in. */
  function AbsorbAlong(shards: seq<Shard>, data: map<nat, Table>, order: seq<nat>): seq<Shard>
    requires Shards(order, |shards|) && forall i :: 0 <= i < |order| ==> order[i] in data
    decreases |order|
  {
    if order == [] || shards[order[0]].status != MoveIn then shards
    else AbsorbAlong(shards[order[0] := Shard(shards[order[0]].kv + data[order[0]], GC)], data, order[1..])
  }

  /** The newer of two entries wins; on a tie the group keeps its own. */
  function Merge(own: DupTable, other: DupTable): DupTable {
    map c | c in own.Keys + other.Keys ::
      if c in own && (c in other ==> own[c].seqId >= other[c].seqId) then own[c] else other[c]
  }

  ghost predicate Enumerates(order: seq<nat>, keys: set<nat>) {
    Distinct(order) && forall s :: s in order <==> s in keys
  }

  function ApplyMigration(g: Group, m: ShardData, order: seq<nat>): Group
    requires Shards(order, |g.shards|) && forall i :: 0 <= i < |order| ==> order[i] in m.data
  {
    if m.num != g.config.num then g
    else g.(shards := AbsorbAlong(g.shards, m.data, order), dup := Merge(g.dup, m.dup))
  }

  /** The shards named are settled one after another, up to the first that awaits nothing. */
  function ClearAlong(shards: seq<Shard>, ids: seq<nat>): seq<Shard>
    requires Shards(ids, |shards|)
    decreases |ids|
  {
    if ids == [] then shards
    else
      match shards[ids[0]].status
      case GC => ClearAlong(shards[ids[0] := shards[ids[0]].(status := Normal)], ids[1..])
      case MoveOut => ClearAlong(shards[ids[0] := Empty], ids[1..])
      case _ => shards
  }

  function ApplyGC(g: Group, num: int, ids: seq<nat>): Group
    requires Shards(ids, |g.shards|)
  {
    if num != g.config.num then g else g.(shards := ClearAlong(g.shards, ids))
  }

  // ---------- When the shards named share one status ----------

  predicate OneStatus(shards: seq<Shard>, ids: seq<nat>)
    requires Shards(ids, |shards|)
  {
    forall i :: 0 <= i < |ids| ==> shards[ids[i]].status == shards[ids[0]].status
  }

  /** All are filled if they are to move in; nothing happens if they are not. */
  lemma {:induction false} AbsorbTogether(shards: seq<Shard>, data: map<nat, Table>, order: seq<nat>, s: nat)
    requires Shards(order, |shards|) && forall i :: 0 <= i < |order| ==> order[i] in data
    requires Distinct(order)
    requires OneStatus(shards, order)
    requires s < |shards|
    ensures |AbsorbAlong(shards, data, order)| == |shards|
    ensures AbsorbAlong(shards, data, order)[s] ==
            if s in order && shards[s].status == MoveIn then Shard(shards[s].kv + data[s], GC) else shards[s]
    decreases |order|
  {
    if order != [] && shards[order[0]].status == MoveIn {
      var rest := order[1..];
      var after := shards[order[0] := Shard(shards[order[0]].kv + data[order[0]], GC)];
      assert forall i :: 0 <= i < |rest| ==> rest[i] == order[i + 1];
      assert forall i :: 0 <= i < |rest| ==> after[rest[i]] == shards[order[i + 1]];
      AbsorbTogether(after, data, rest, s);
      assert order == [order[0]] + rest;
    } else if s in order {
      var i :| 0 <= i < |order| && order[i] == s;
    }
  }

  /** All are settled if they await it; nothing happens if they do not. */
  function Settled(sh: Shard): Shard {
    match sh.status
    case GC => sh.(status := Normal)
    case MoveOut => Empty
    case _ => sh
  }

  lemma {:induction false} ClearTogether(shards: seq<Shard>, ids: seq<nat>, s: nat)
    requires Shards(ids, |shards|)
    requires Distinct(ids)
    requires OneStatus(shards, ids)
    requires s < |shards|
    ensures |ClearAlong(shards, ids)| == |shards|
    ensures ClearAlong(shards, ids)[s] == if s in ids then Settled(shards[s]) else shards[s]
    decreases |ids|
  {
    if ids != [] && (shards[ids[0]].status == GC || shards[ids[0]].status == MoveOut) {
      var rest := ids[1..];
      var after := shards[ids[0] := Settled(shards[ids[0]])];
      assert forall i :: 0 <= i < |rest| ==> rest[i] == ids[i + 1];
      assert forall i :: 0 <= i < |rest| ==> after[rest[i]] == shards[ids[i + 1]];
      ClearTogether(after, rest, s);
      assert ids == [ids[0]] + rest;
    } else if s in ids {
      var i :| 0 <= i < |ids| && ids[i] == s;
    }
  }
}
