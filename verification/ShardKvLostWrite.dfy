/** No run loses a write exactly if every shard that was owned passes to another group directly. */
module ShardKvLostWrite {
  import KeyValues
  import opened KvOps
  import opened ShardConfig
  import opened ShardKvGroup
  import opened ShardKvSystem
  import opened ShardKvInvariant
  import opened ShardKvSteps
  import opened ShardKvMoves
  import opened ShardKvTheorems
  import opened ShardKvStore
  import opened ShardKvProgress
  import opened ShardKvRest
  import opened ShardKvPatient

  // ---------- Where a key has not got to ----------

  ghost predicate Lacks(p: Group, s: nat, key: string) {
    s < |p.shards| ==> key !in p.shards[s].kv
  }

  ghost predicate CargoLacks(m: ShardData, s: nat, key: string) {
    s in m.data ==> key !in m.data[s]
  }

  /** No state of the group, and nothing on its way to it, holds the key. */
  ghost predicate Clean(x: Member, s: nat, key: string) {
    && x.now in x.past && (forall p {:trigger p in x.past} :: p in x.past ==> Lacks(p, s, key))
    && (forall m {:trigger Migration(m) in x.pool} :: Migration(m) in x.pool ==> CargoLacks(m, s, key))
  }

  /** Only the groups in `but` may hold it. */
  ghost predicate AllClean(y: System, s: nat, key: string, but: set<int>) {
    forall g {:trigger y.groups[g]} :: g in y.groups && g !in but ==> Clean(y.groups[g], s, key)
  }

  lemma StepClean(y: System, g: int, now: Group, s: nat, key: string, but: set<int>)
    requires AllClean(y, s, key, but) && g in y.groups && (g !in but ==> Lacks(now, s, key))
    ensures AllClean(Step(y, g, now), s, key, but)
  {
    var z := Step(y, g, now);
    forall h | h in z.groups && h !in but ensures Clean(z.groups[h], s, key) {
      assert Clean(y.groups[h], s, key);
    }
  }

  lemma ProposeClean(y: System, g: int, c: Proposal, s: nat, key: string, but: set<int>)
    requires AllClean(y, s, key, but) && g in y.groups && (g !in but && c.Migration? ==> CargoLacks(c.reply, s, key))
    ensures AllClean(Propose(y, g, c), s, key, but)
  {
    var z := Propose(y, g, c);
    forall h | h in z.groups && h !in but ensures Clean(z.groups[h], s, key) {
      assert Clean(y.groups[h], s, key);
    }
  }

  lemma {:induction false} AbsorbLacks(shards: seq<Shard>, data: map<nat, Table>, order: seq<nat>, s: nat, key: string)
    requires Shards(order, |shards|) && forall i :: 0 <= i < |order| ==> order[i] in data
    requires s < |shards| && key !in shards[s].kv && (s in data ==> key !in data[s])
    ensures |AbsorbAlong(shards, data, order)| == |shards| && key !in AbsorbAlong(shards, data, order)[s].kv
    decreases |order|
  {
    if order != [] && shards[order[0]].status == MoveIn {
      AbsorbLacks(shards[order[0] := Shard(shards[order[0]].kv + data[order[0]], GC)], data, order[1..], s, key);
    }
  }

  lemma {:induction false} AbsorbSize(shards: seq<Shard>, data: map<nat, Table>, order: seq<nat>)
    requires Shards(order, |shards|) && forall i :: 0 <= i < |order| ==> order[i] in data
    ensures |AbsorbAlong(shards, data, order)| == |shards|
    decreases |order|
  {
    if order != [] && shards[order[0]].status == MoveIn {
      AbsorbSize(shards[order[0] := Shard(shards[order[0]].kv + data[order[0]], GC)], data, order[1..]);
    }
  }

  lemma {:induction false} ClearLacks(shards: seq<Shard>, ids: seq<nat>, s: nat, key: string)
    requires Shards(ids, |shards|) && (s < |shards| ==> key !in shards[s].kv)
    ensures |ClearAlong(shards, ids)| == |shards| && (s < |shards| ==> key !in ClearAlong(shards, ids)[s].kv)
    decreases |ids|
  {
    if ids != [] {
      match shards[ids[0]].status
      case GC => ClearLacks(shards[ids[0] := shards[ids[0]].(status := Normal)], ids[1..], s, key);
      case MoveOut => ClearLacks(shards[ids[0] := Empty], ids[1..], s, key);
      case _ =>
    }
  }

  lemma MigrationLacks(p: Group, m: ShardData, order: seq<nat>, s: nat, key: string)
    requires Shards(order, |p.shards|) && forall i :: 0 <= i < |order| ==> order[i] in m.data
    requires Lacks(p, s, key) && CargoLacks(m, s, key)
    ensures Lacks(ApplyMigration(p, m, order), s, key)
  {
    AbsorbSize(p.shards, m.data, order);
    if s < |p.shards| {
      AbsorbLacks(p.shards, m.data, order, s, key);
    }
  }

  /** The group does not pull the shard from one that may hold the key. */
  ghost predicate PullsElsewhere(n: nat, e: Event, s: nat, but: set<int>) {
    e.Pull? && e.g in but && Shaped(e.seen, n) ==> s !in ByStatus(e.seen, MoveIn, e.g, n)
  }

  lemma CleanOnProposing(cfg: seq<Config>, n: nat, y: System, e: Event, s: nat, key: string, but: set<int>)
    requires AllClean(y, s, key, but) && Enabled(cfg, n, y, e) && PullsElsewhere(n, e, s, but)
    requires e.Fetch? || e.Pull? || e.AskDelete? || e.Finish?
    ensures AllClean(Apply(cfg, n, y, e), s, key, but)
  {
    match e
    case Fetch(g, seen) => ProposeClean(y, g, NewConfig(seen.config.num + 1), s, key, but);
    case Pull(h, seen, g, read) =>
      var answer := GetShardsData(read, seen.config.num, ByStatus(seen, MoveIn, g, n));
      assert g !in but ==> Clean(y.groups[g], s, key);
      if answer.Data? {
        ProposeClean(y, h, Migration(answer.reply), s, key, but);
      }
    case AskDelete(h, seen, g) => ProposeClean(y, g, Clear(seen.config.num, ByStatus(seen, GC, g, n)), s, key, but);
    case Finish(h, seen, g) => ProposeClean(y, h, Clear(seen.config.num, ByStatus(seen, GC, g, n)), s, key, but);
  }

  lemma CleanOnCommit(cfg: seq<Config>, n: nat, y: System, e: Event, s: nat, key: string, but: set<int>)
    requires AllClean(y, s, key, but) && Enabled(cfg, n, y, e)
          && (e.CommitConfig? || e.CommitMigration? || e.CommitClear?)
    ensures AllClean(Apply(cfg, n, y, e), s, key, but)
  {
    var was := y.groups[e.g].now;
    assert e.g !in but ==> Clean(y.groups[e.g], s, key) && Lacks(was, s, key);
    match e
    case CommitConfig(g, cmd) => StepClean(y, g, ApplyConfig(was, cfg[cmd.num]), s, key, but);
    case CommitMigration(g, cmd, order) =>
      if g !in but {
        assert Migration(cmd.reply) in y.groups[g].pool;
        MigrationLacks(was, cmd.reply, order, s, key);
      }
      StepClean(y, g, ApplyMigration(was, cmd.reply, order), s, key, but);
    case CommitClear(g, cmd) =>
      if g !in but {
        ClearLacks(was.shards, cmd.ids, s, key);
      }
      StepClean(y, g, ApplyGC(was, cmd.num, cmd.ids), s, key, but);
  }

  lemma {:induction false} CleanAlong(cfg: seq<Config>, n: nat, ys: seq<System>, es: seq<Event>, i: nat, j: nat,
                                      s: nat, key: string, but: set<int>)
    requires IsRun(cfg, n, ys, es) && i <= j < |ys| && AllClean(ys[i], s, key, but)
    requires forall k :: i <= k < j ==> !es[k].Client? && PullsElsewhere(n, es[k], s, but)
    ensures AllClean(ys[j], s, key, but)
    decreases j
  {
    if i < j {
      CleanAlong(cfg, n, ys, es, i, j - 1, s, key, but);
      var y, e := ys[j - 1], es[j - 1];
      if e.CommitConfig? || e.CommitMigration? || e.CommitClear? {
        CleanOnCommit(cfg, n, y, e, s, key, but);
      } else {
        CleanOnProposing(cfg, n, y, e, s, key, but);
      }
    }
  }

  // ---------- A lost write ----------

  /** The run ends with a group that serves the key and does not know what was written. */
  ghost predicate LosesWrite(cfg: seq<Config>, n: nat, ys: seq<System>, es: seq<Event>, h: int, key: string) {
    && IsRun(cfg, n, ys, es) && h in ys[|es|].groups && Shaped(ys[|es|].groups[h].now, n)
    && Serving(ys[|es|], h, ShardOf(key, n)) && KeyValues.Written(Edits(ys[|es|].effects), key)
    && ApplyClient(ys[|es|].groups[h].now, Get(key)).1 == Reply("", ErrNoKey)
  }

  /** A run that ends at rest, with the key written by group g and nowhere else. */
  ghost predicate WrittenAt(cfg: seq<Config>, n: nat, ys: seq<System>, es: seq<Event>, k: int, g: int, key: string) {
    && IsRun(cfg, n, ys, es) && AtRest(cfg, ys[|es|], k) && KeyValues.Written(Edits(ys[|es|].effects), key)
    && AllClean(ys[|es|], ShardOf(key, n), key, {g})
  }

  /** A write that the group has not seen. */
  function NewWrite(dup: DupTable, key: string): (op: Op)
    ensures op.Put? && op.key == key && !Duplicated(dup, op.client, op.seqId)
  {
    Put(key, "x", 0, if 0 in dup then dup[0].seqId + 1 else 0)
  }

  lemma WriteOnce(cfg: seq<Config>, n: nat, gids: set<int>, k: int, g: int, key: string)
    returns (ys: seq<System>, es: seq<Event>)
    requires Numbered(cfg, n) && 0 !in gids && 0 <= k < |cfg| && cfg[k].shards[ShardOf(key, n)] == g && g != 0
    requires forall j, s :: 0 <= j < |cfg| && 0 <= s < n ==> cfg[j].shards[s] == 0 || cfg[j].shards[s] in gids
    ensures WrittenAt(cfg, n, ys, es, k, g, key) && ys[|es|].groups.Keys == gids
  {
    var s := ShardOf(key, n);
    var xs, ds := RestAt(cfg, n, gids, k);
    var x := xs[|ds|];
    assert AllClean(xs[0], s, key, {});
    CleanAlong(cfg, n, xs, ds, 0, |ds|, s, key, {});
    BaseAlong(cfg, n, xs, ds, |ds|);
    StatusOk(cfg, n, x, g, s);
    var op := NewWrite(x.groups[g].now.dup, key);
    ys, es := RunGrows(cfg, n, xs, ds, Client(g, op));
    WriteRests(cfg, n, x, k, g, op);
    assert ys[|es|].effects[..|x.effects|] == x.effects;
    KeyValues.WrittenMore(Edits(x.effects), EditOf(op), key);
  }

  lemma WriteRests(cfg: seq<Config>, n: nat, x: System, k: int, g: int, op: Op)
    requires Numbered(cfg, n) && AtRest(cfg, x, k) && g in x.groups && Shaped(x.groups[g].now, n) && op.Put?
    requires AllClean(x, ShardOf(op.key, n), op.key, {})
    ensures AtRest(cfg, OnClient(x, g, op), k) && AllClean(OnClient(x, g, op), ShardOf(op.key, n), op.key, {g})
  {
    var z := OnClient(x, g, op);
    forall h | h in z.groups ensures z.groups[h].now.config == cfg[k] && AllNormal(z.groups[h].now) {
      assert x.groups[h].now.config == cfg[k] && AllNormal(x.groups[h].now);
    }
    forall h | h in z.groups && h != g ensures Clean(z.groups[h], ShardOf(op.key, n), op.key) {
      assert Clean(x.groups[h], ShardOf(op.key, n), op.key);
    }
  }

  lemma NumStep(cfg: seq<Config>, n: nat, y: System, e: Event, g: int)
    requires Base(cfg, n, y) && Enabled(cfg, n, y, e) && g in y.groups
    ensures g in Apply(cfg, n, y, e).groups && Num(y, g) <= Num(Apply(cfg, n, y, e), g)
  {
    ApplyBase(cfg, n, y, e);
    ApplyForward(cfg, n, y, e);
    assert Later(y.groups[g].now, Apply(cfg, n, y, e).groups[g].now);
  }

  lemma {:induction false} NumGrows(cfg: seq<Config>, n: nat, ys: seq<System>, es: seq<Event>, i: nat, j: nat, g: int)
    requires IsRun(cfg, n, ys, es) && i <= j < |ys| && g in ys[i].groups
    ensures g in ys[j].groups && Num(ys[i], g) <= Num(ys[j], g)
    decreases j
  {
    if i < j {
      NumGrows(cfg, n, ys, es, i, j - 1, g);
      BaseAlong(cfg, n, ys, es, j - 1);
      NumStep(cfg, n, ys[j - 1], es[j - 1], g);
    }
  }

  /** Between rest at k and rest at i every group is somewhere in between. */
  lemma NumBetween(cfg: seq<Config>, n: nat, ys: seq<System>, es: seq<Event>, a: nat, j: nat, b: nat, k: int, i: int,
                   h: int)
    requires IsRun(cfg, n, ys, es) && a <= j <= b < |ys| && AtRest(cfg, ys[a], k) && AtRest(cfg, ys[b], i)
          && h in ys[j].groups
    ensures k <= Num(ys[j], h) <= i
  {
    SameGroups(cfg, n, ys, es, a);
    SameGroups(cfg, n, ys, es, j);
    NumGrows(cfg, n, ys, es, a, j, h);
    NumGrows(cfg, n, ys, es, j, b, h);
    assert ys[a].groups[h].now.config == cfg[k] && ys[b].groups[h].now.config == cfg[i];
  }

  lemma PulledMoves(cfg: seq<Config>, n: nat, y: System, e: Event, s: nat)
    requires Base(cfg, n, y) && Enabled(cfg, n, y, e) && UpToDate(y, e) && e.Pull?
          && s in ByStatus(e.seen, MoveIn, e.g, n)
    ensures e.h in y.groups && Moves(cfg, n, Num(y, e.h), s, e.g, e.h)
  {
    StatusOk(cfg, n, y, e.h, s);
  }

  /** While the shard belongs to nobody, nobody pulls it from its last owner. */
  lemma NobodyPulls(cfg: seq<Config>, n: nat, zs: seq<System>, fs: seq<Event>, a: nat, k: int, i: int, g: int, s: nat,
                    j: nat)
    requires IsRun(cfg, n, zs, fs) && a <= j < |fs| && AtRest(cfg, zs[a], k) && AtRest(cfg, zs[|fs|], i)
          && UpToDate(zs[j], fs[j])
    requires s < n && g != 0 && k < i && cfg[k].shards[s] == g && cfg[i - 1].shards[s] == 0
    requires forall b :: k < b < i ==> cfg[b].shards[s] == 0
    ensures PullsElsewhere(n, fs[j], s, {g})
  {
    var e := fs[j];
    if e.Pull? && e.g == g && s in ByStatus(e.seen, MoveIn, g, n) {
      BaseAlong(cfg, n, zs, fs, j);
      PulledMoves(cfg, n, zs[j], e, s);
      NumBetween(cfg, n, zs, fs, a, j, |fs|, k, i, e.h);
    }
  }

  /** The configuration in which the keeper last owned the shard, after which nobody did. */
  lemma {:induction false} LastOwned(cfg: seq<Config>, n: nat, i: nat, s: nat) returns (k: nat)
    requires Numbered(cfg, n) && i < |cfg| && s < n && Keeper(cfg, i, s) != 0
    ensures k <= i && cfg[k].shards[s] == Keeper(cfg, i, s) && forall j :: k < j <= i ==> cfg[j].shards[s] == 0
    decreases i
  {
    k := i;
    if cfg[i].shards[s] == 0 {
      k := LastOwned(cfg, n, i - 1, s);
    }
  }

  /** Wherever a shard passes to another group by way of group 0, some run loses a write. */
  lemma IndirectLosesWrite(cfg: seq<Config>, n: nat, gids: set<int>, i: nat, key: string)
    returns (zs: seq<System>, fs: seq<Event>)
    requires Numbered(cfg, n) && 0 !in gids && 0 < i < |cfg|
    requires forall j, s :: 0 <= j < |cfg| && 0 <= s < n ==> cfg[j].shards[s] == 0 || cfg[j].shards[s] in gids
    requires Changes(cfg, i, ShardOf(key, n)) && cfg[i - 1].shards[ShardOf(key, n)] == 0
    ensures LosesWrite(cfg, n, zs, fs, cfg[i].shards[ShardOf(key, n)], key)
  {
    var s := ShardOf(key, n);
    var g, h := Keeper(cfg, i - 1, s), cfg[i].shards[s];
    var k := LastOwned(cfg, n, i - 1, s);
    var ys, es := WriteOnce(cfg, n, gids, k, g, key);
    assert AllUpTo(ys[|es|], i) && NoneAbandoned(ys[|es|]);
    zs, fs := Settle(cfg, n, ys, es, i);
    forall j | |es| <= j < |fs| ensures !fs[j].Client? && PullsElsewhere(n, fs[j], s, {g}) {
      NobodyPulls(cfg, n, zs, fs, |es|, k, i, g, s, j);
    }
    CleanAlong(cfg, n, zs, fs, |es|, |fs|, s, key, {g});
    OnwardWritesNothing(cfg, n, ys, es, zs, fs, |fs|);
    LostAtRest(cfg, n, zs, fs, i, g, h, key);
  }

  lemma LostAtRest(cfg: seq<Config>, n: nat, zs: seq<System>, fs: seq<Event>, i: nat, g: int, h: int, key: string)
    requires IsRun(cfg, n, zs, fs) && AtRest(cfg, zs[|fs|], i) && cfg[i].shards[ShardOf(key, n)] == h && h != 0
          && h != g
    requires AllClean(zs[|fs|], ShardOf(key, n), key, {g}) && KeyValues.Written(Edits(zs[|fs|].effects), key)
    ensures LosesWrite(cfg, n, zs, fs, h, key)
  {
    var z := zs[|fs|];
    SameGroups(cfg, n, zs, fs, |fs|);
    BaseAlong(cfg, n, zs, fs, |fs|);
    StatusOk(cfg, n, z, h, ShardOf(key, n));
    assert Clean(z.groups[h], ShardOf(key, n), key) && Lacks(z.groups[h].now, ShardOf(key, n), key);
    assert z.groups[h].now.config == cfg[i] && AllNormal(z.groups[h].now);
  }

  lemma NotHandedAt(cfg: seq<Config>, n: nat) returns (i: nat, s: nat)
    requires Numbered(cfg, n) && !Handed(cfg, n)
    ensures 0 < i < |cfg| && s < n && Changes(cfg, i, s) && cfg[i - 1].shards[s] == 0
  {
    i, s :| 0 < i < |cfg| && 0 <= s < n && Changes(cfg, i, s) && cfg[i - 1].shards[s] == 0;
  }

  lemma KeyFor(s: nat, n: nat) returns (key: string)
    requires s < n <= 256
    ensures ShardOf(key, n) == s
  {
    key := [s as char];
  }

  lemma HandedLosesNothing(cfg: seq<Config>, n: nat, ys: seq<System>, es: seq<Event>, h: int, key: string)
    requires Handed(cfg, n)
    ensures !LosesWrite(cfg, n, ys, es, h, key)
  {
    if LosesWrite(cfg, n, ys, es, h, key) {
      ServerHolds(cfg, n, ys, es, |es|, h, ShardOf(key, n));
      HolderIsCurrent(cfg, n, ys, es, |es|, h, ShardOf(key, n));
    }
  }

  /** No run loses a write exactly if the configurations hand shards over directly. */
  lemma HandedIffNothingLost(cfg: seq<Config>, n: nat, gids: set<int>)
    requires Numbered(cfg, n) && 0 !in gids && n <= 256
    requires forall i, s :: 0 <= i < |cfg| && 0 <= s < n ==> cfg[i].shards[s] == 0 || cfg[i].shards[s] in gids
    ensures Handed(cfg, n) <==> forall ys, es, h, key :: !LosesWrite(cfg, n, ys, es, h, key)
  {
    if Handed(cfg, n) {
      forall ys, es, h, key ensures !LosesWrite(cfg, n, ys, es, h, key) {
        HandedLosesNothing(cfg, n, ys, es, h, key);
      }
    } else {
      var i, s := NotHandedAt(cfg, n);
      var key := KeyFor(s, n);
      var ys, es := IndirectLosesWrite(cfg, n, gids, i, key);
    }
  }
}
