/** What every reachable state of the sharded store satisfies, and what follows from it. */
module ShardKvInvariant {
  import opened Sets
  import opened KvOps
  import opened ShardConfig
  import opened ShardKvGroup
  import opened ShardKvSystem

  // ---------- One group ----------

  /** Configuration i moves shard s from group g to group h. */
  ghost predicate Moves(cfg: seq<Config>, n: nat, i: int, s: nat, g: int, h: int)
    requires Numbered(cfg, n)
  {
    0 < i < |cfg| && s < n && cfg[i - 1].shards[s] == g && cfg[i].shards[s] == h && g != h && g != 0 && h != 0
  }

  /** Two shards have the same owners before and after configuration i. */
  ghost predicate SameMove(cfg: seq<Config>, n: nat, i: int, s: nat, t: nat)
    requires Numbered(cfg, n)
  {
    0 < i < |cfg| && s < n && t < n && cfg[i - 1].shards[s] == cfg[i - 1].shards[t]
          && cfg[i].shards[s] == cfg[i].shards[t]
  }

  /** A status other than Normal names a move; if shards are handed over directly, one kept elsewhere is empty. */
  ghost predicate ShardOk(cfg: seq<Config>, n: nat, g: int, i: int, sh: Shard, s: nat)
    requires Numbered(cfg, n) && 0 <= i < |cfg| && s < n
  {
    match sh.status
    case Normal => Handed(cfg, n) && Keeper(cfg, i, s) != g ==> sh.kv == map[]
    case MoveIn => i > 0 && Moves(cfg, n, i, s, cfg[i - 1].shards[s], g) && (Handed(cfg, n) ==> sh.kv == map[])
    case GC => i > 0 && Moves(cfg, n, i, s, cfg[i - 1].shards[s], g)
    case MoveOut => Moves(cfg, n, i, s, g, cfg[i].shards[s])
  }

  ghost predicate Sane(cfg: seq<Config>, n: nat, g: int, p: Group)
    requires Numbered(cfg, n)
  {
    var i := p.config.num;
    && p.gid == g && 0 <= i < |cfg| && p.config == cfg[i] && |p.shards| == n
    && p.prev == cfg[if i == 0 then 0 else i - 1]
    && (forall s :: 0 <= s < n ==> ShardOk(cfg, n, g, i, p.shards[s], s))
    && (forall s: nat, t: nat {:trigger SameMove(cfg, n, i, s, t)} :: SameMove(cfg, n, i, s, t) ==>
          p.shards[s].status == p.shards[t].status)
  }

  predicate Progress(a: Status, b: Status) {
    a == b || b == Normal || (a == MoveIn && b == GC)
  }

  /** A later state of the same group. */
  ghost predicate Later(p: Group, q: Group) {
    || p.config.num < q.config.num
    || (&& p.config.num == q.config.num && |p.shards| == |q.shards|
        && forall s :: 0 <= s < |p.shards| ==> Progress(p.shards[s].status, q.shards[s].status))
  }

  // ---------- Between groups ----------

  ghost function Num(y: System, g: int): int
    requires g in y.groups
  {
    y.groups[g].now.config.num
  }

  /** Group h has taken in the shard that configuration i gives it. */
  ghost predicate Absorbed(y: System, h: int, i: int, s: nat) {
    && h in y.groups && s < |y.groups[h].now.shards|
    && (Num(y, h) > i || (Num(y, h) == i && y.groups[h].now.shards[s].status != MoveIn))
  }

  /** Group g has let go of the shard that configuration i takes from it. */
  ghost predicate Released(y: System, g: int, i: int, s: nat) {
    && g in y.groups && s < |y.groups[g].now.shards|
    && (Num(y, g) > i || (Num(y, g) == i && y.groups[g].now.shards[s].status != MoveOut))
  }

  /** Lockstep: a shard is taken in only from a group that has stopped, and let go only once taken in. */
  ghost predicate LinkOk(cfg: seq<Config>, n: nat, y: System)
    requires Numbered(cfg, n)
  {
    forall i, s: nat, g, h {:trigger Moves(cfg, n, i, s, g, h)} :: Moves(cfg, n, i, s, g, h) ==>
      && g in y.groups && h in y.groups
      && (Absorbed(y, h, i, s) ==> Num(y, g) >= i)
      && (Released(y, g, i, s) ==> Absorbed(y, h, i, s))
  }

  ghost predicate MemberOk(cfg: seq<Config>, n: nat, g: int, x: Member)
    requires Numbered(cfg, n)
  {
    && x.now in x.past
    && forall p {:trigger p in x.past} :: p in x.past ==> Sane(cfg, n, g, p) && Later(p, x.now)
  }

  ghost predicate HistoryOk(cfg: seq<Config>, n: nat, y: System)
    requires Numbered(cfg, n)
  {
    0 !in y.groups && forall g {:trigger y.groups[g]} :: g in y.groups ==> MemberOk(cfg, n, g, y.groups[g])
  }

  /** The shards named are all those that one move concerns. */
  ghost predicate OneMove(cfg: seq<Config>, n: nat, i: int, ids: set<nat>)
    requires Numbered(cfg, n)
  {
    && (forall s :: s in ids ==> s < n)
    && (forall s: nat, t: nat {:trigger SameMove(cfg, n, i, s, t)} :: s in ids && t < n ==> (t in ids <==>
          SameMove(cfg, n, i, s, t)))
  }

  ghost predicate ProposalOk(cfg: seq<Config>, n: nat, y: System, g: int, c: Proposal)
    requires Numbered(cfg, n) && g in y.groups
  {
    match c
    case NewConfig(k) => 0 < k < |cfg| && (Num(y, g) >= k || (Num(y, g) == k - 1 && AllNormal(y.groups[g].now)))
    case Migration(m) =>
      && 0 < m.num <= Num(y, g) && m.num < |cfg| && OneMove(cfg, n, m.num, m.data.Keys)
      && forall s {:trigger s in m.data} :: s in m.data ==>
           && Moves(cfg, n, m.num, s, cfg[m.num - 1].shards[s], g)
           && cfg[m.num - 1].shards[s] in y.groups && Num(y, cfg[m.num - 1].shards[s]) >= m.num
    case Clear(i, ids) =>
      && 0 < i < |cfg| && Distinct(ids) && OneMove(cfg, n, i, Elements(ids))
      && forall s {:trigger s in ids} :: s in ids ==>
           && Moves(cfg, n, i, s, cfg[i - 1].shards[s], cfg[i].shards[s]) && Absorbed(y, cfg[i].shards[s], i, s)
           && (g == cfg[i - 1].shards[s] || g == cfg[i].shards[s])
  }

  ghost predicate PoolOk(cfg: seq<Config>, n: nat, y: System)
    requires Numbered(cfg, n)
  {
    forall g, c {:trigger c in y.groups[g].pool} :: g in y.groups && c in y.groups[g].pool ==>
          ProposalOk(cfg, n, y, g, c)
  }

  // ---------- Contents ----------

  predicate On(e: Effect, s: nat, n: nat)
    requires n > 0
  {
    !e.op.Get? && ShardOf(e.op.key, n) == s
  }

  /** What the writes to one shard leave behind. */
  function Contents(effects: seq<Effect>, s: nat, n: nat): Table
    requires n > 0
  {
    if effects == [] then map[]
    else
      var k := |effects| - 1;
      var rest := Contents(effects[..k], s, n);
      if On(effects[k], s, n) then Write(rest, effects[k].op) else rest
  }

  /** The table knows every write to the shard. */
  ghost predicate Dominates(dup: DupTable, effects: seq<Effect>, s: nat, n: nat)
    requires n > 0
  {
    forall i :: 0 <= i < |effects| && On(effects[i], s, n) ==>
          Duplicated(dup, effects[i].op.client, effects[i].op.seqId)
  }

  /** An up-to-date copy of shard s, with a table that knows every write to it. */
  ghost predicate Good(kv: Table, dup: DupTable, effects: seq<Effect>, s: nat, n: nat)
    requires n > 0
  {
    kv == Contents(effects, s, n) && Dominates(dup, effects, s, n)
  }

  /** The keeper of shard s at configuration i has got it. */
  ghost predicate Holds(cfg: seq<Config>, n: nat, y: System, i: int, s: nat)
    requires Numbered(cfg, n)
  {
    0 <= i < |cfg| && s < n && Keeper(cfg, i, s) != 0 && Absorbed(y, Keeper(cfg, i, s), i, s)
  }

  ghost predicate SameTag(a: Op, b: Op) {
    !a.Get? && !b.Get? && a.client == b.client && a.seqId == b.seqId
  }

  ghost predicate EffectsOk(cfg: seq<Config>, n: nat, y: System)
    requires Numbered(cfg, n)
  {
    && (forall i {:trigger y.effects[i]} :: 0 <= i < |y.effects| ==>
          !y.effects[i].op.Get? && Holds(cfg, n, y, y.effects[i].num, ShardOf(y.effects[i].op.key, n)))
    && (forall i, j {:trigger y.effects[i], y.effects[j]} ::
          0 <= i < j < |y.effects| && SameTag(y.effects[i].op, y.effects[j].op) ==>
            ShardOf(y.effects[i].op.key, n) != ShardOf(y.effects[j].op.key, n))
  }

  ghost predicate Serving(y: System, g: int, s: nat) {
    g in y.groups && s < |y.groups[g].now.shards| == |y.groups[g].now.config.shards| && Serves(y.groups[g].now, s)
  }

  /** Group g serves the shard, or would if the shard were assigned at all. */
  ghost predicate Keeping(cfg: seq<Config>, n: nat, y: System, g: int, s: nat)
    requires Numbered(cfg, n)
  {
    && g in y.groups && 0 <= Num(y, g) < |cfg| && s < n && Keeper(cfg, Num(y, g), s) == g
    && s < |y.groups[g].now.shards|
    && (y.groups[g].now.shards[s].status == Normal || y.groups[g].now.shards[s].status == GC)
  }

  ghost predicate KeepOk(cfg: seq<Config>, n: nat, y: System)
    requires Numbered(cfg, n)
  {
    forall g, s: nat {:trigger Keeping(cfg, n, y, g, s)} :: Keeping(cfg, n, y, g, s) ==>
      Good(y.groups[g].now.shards[s].kv, y.groups[g].now.dup, y.effects, s, n)
  }

  /** Group g has stopped serving the shard, and the next owner has not taken it in. */
  ghost predicate Frozen(y: System, g: int, s: nat) {
    && g in y.groups && s < |y.groups[g].now.shards| == |y.groups[g].now.config.shards|
    && y.groups[g].now.shards[s].status == MoveOut
    && !Absorbed(y, y.groups[g].now.config.shards[s], Num(y, g), s)
  }

  /** Whatever state the pulled group answers from, the copy is up to date. */
  ghost predicate FrozenOk(n: nat, y: System)
    requires n > 0
  {
    forall g, p, s: nat {:trigger Frozen(y, g, s), p in y.groups[g].past} ::
      Frozen(y, g, s) && p in y.groups[g].past && p.config.num == Num(y, g) && s < |p.shards| ==>
        Good(p.shards[s].kv, p.dup, y.effects, s, n)
  }

  /** The shard of a proposed migration that would be taken in. */
  ghost predicate Awaits(y: System, h: int, m: ShardData, s: nat) {
    && h in y.groups && Migration(m) in y.groups[h].pool && s in m.data && m.num == Num(y, h)
    && s < |y.groups[h].now.shards| && y.groups[h].now.shards[s].status == MoveIn
  }

  ghost predicate CargoOk(n: nat, y: System)
    requires n > 0
  {
    forall h, m, s: nat {:trigger Awaits(y, h, m, s)} :: Awaits(y, h, m, s) ==> Good(m.data[s], m.dup, y.effects, s, n)
  }

  /** What holds over all configurations: statuses, and what leaders propose. */
  ghost predicate Base(cfg: seq<Config>, n: nat, y: System) {
    Numbered(cfg, n) && HistoryOk(cfg, n, y) && LinkOk(cfg, n, y) && PoolOk(cfg, n, y)
  }

  /** What holds besides over configurations that hand shards over directly: contents. */
  ghost predicate Inv(cfg: seq<Config>, n: nat, y: System) {
    && Handed(cfg, n) && Base(cfg, n, y)
    && EffectsOk(cfg, n, y) && KeepOk(cfg, n, y) && FrozenOk(n, y) && CargoOk(n, y)
  }

  // ---------- One group at a time ----------

  /** Once a shard is held at configuration i, its earlier keepers have moved on. */
  lemma {:induction false} Behind(cfg: seq<Config>, n: nat, y: System, i: int, k: int, s: nat)
    requires Handed(cfg, n) && HistoryOk(cfg, n, y) && LinkOk(cfg, n, y)
    requires Holds(cfg, n, y, i, s) && 0 <= k < i && Keeper(cfg, k, s) != 0
    ensures Keeper(cfg, k, s) in y.groups && Num(y, Keeper(cfg, k, s)) > k
    decreases i
  {
    KeeperStays(cfg, n, k, i - 1, s);
    var h, g := Keeper(cfg, i, s), Keeper(cfg, i - 1, s);
    if g != h {
      assert Changes(cfg, i, s);
      assert Moves(cfg, n, i, s, g, h);
    }
    assert MemberOk(cfg, n, g, y.groups[g]);
    assert Sane(cfg, n, g, y.groups[g].now);
    if k < i - 1 {
      Behind(cfg, n, y, i - 1, k, s);
    }
  }

  /** A shard that was owned once has a keeper ever after. */
  lemma {:induction false} KeeperStays(cfg: seq<Config>, n: nat, k: nat, i: nat, s: nat)
    requires Numbered(cfg, n) && s < n && k <= i < |cfg| && Keeper(cfg, k, s) != 0
    ensures Keeper(cfg, i, s) != 0
    decreases i
  {
    if k < i {
      KeeperStays(cfg, n, k, i - 1, s);
    }
  }

  lemma ServerKeeps(cfg: seq<Config>, n: nat, y: System, g: int, s: nat)
    requires Numbered(cfg, n) && HistoryOk(cfg, n, y) && Serving(y, g, s)
    ensures Keeping(cfg, n, y, g, s)
  {
    assert MemberOk(cfg, n, g, y.groups[g]);
    assert Sane(cfg, n, g, y.groups[g].now);
  }

  lemma KeeperHolds(cfg: seq<Config>, n: nat, y: System, g: int, s: nat)
    requires Numbered(cfg, n) && HistoryOk(cfg, n, y) && Keeping(cfg, n, y, g, s)
    ensures Holds(cfg, n, y, Num(y, g), s)
  {
  }

  /** At most one group keeps a shard. */
  lemma OneKeeper(cfg: seq<Config>, n: nat, y: System, g: int, h: int, s: nat)
    requires Handed(cfg, n) && HistoryOk(cfg, n, y) && LinkOk(cfg, n, y)
    requires Keeping(cfg, n, y, g, s) && Keeping(cfg, n, y, h, s)
    ensures g == h
  {
    KeeperHolds(cfg, n, y, g, s);
    KeeperHolds(cfg, n, y, h, s);
    if Num(y, g) < Num(y, h) {
      Behind(cfg, n, y, Num(y, h), Num(y, g), s);
    } else if Num(y, h) < Num(y, g) {
      Behind(cfg, n, y, Num(y, g), Num(y, h), s);
    }
  }

  /** No group keeps a shard that is frozen somewhere. */
  lemma NoKeeperWhileFrozen(cfg: seq<Config>, n: nat, y: System, g: int, a: int, s: nat)
    requires Handed(cfg, n) && HistoryOk(cfg, n, y) && LinkOk(cfg, n, y)
    requires Frozen(y, a, s)
    ensures !Keeping(cfg, n, y, g, s)
  {
    if Keeping(cfg, n, y, g, s) {
      KeeperHolds(cfg, n, y, g, s);
      assert MemberOk(cfg, n, a, y.groups[a]);
      assert Sane(cfg, n, a, y.groups[a].now);
      var i, k := Num(y, a), Num(y, g);
      assert ShardOk(cfg, n, a, i, y.groups[a].now.shards[s], s);
      if k > i {
        Behind(cfg, n, y, k, i, s);
      } else if k < i - 1 {
        assert Holds(cfg, n, y, i - 1, s);
        Behind(cfg, n, y, i - 1, k, s);
      }
    }
  }

  /** A shard that awaits a proposed migration is frozen at the group it comes from. */
  lemma AwaitedIsFrozen(cfg: seq<Config>, n: nat, y: System, h: int, m: ShardData, s: nat) returns (g: int)
    requires Base(cfg, n, y) && Awaits(y, h, m, s)
    ensures Frozen(y, g, s) && Num(y, g) == m.num && Moves(cfg, n, m.num, s, g, h)
  {
    assert ProposalOk(cfg, n, y, h, Migration(m));
    g := cfg[m.num - 1].shards[s];
    assert Moves(cfg, n, m.num, s, g, h);
    assert MemberOk(cfg, n, g, y.groups[g]) && MemberOk(cfg, n, h, y.groups[h]);
    assert Sane(cfg, n, g, y.groups[g].now) && Sane(cfg, n, h, y.groups[h].now);
  }
}
