/** Every step of the sharded store keeps the invariant. */
module ShardKvSteps {
  import opened KvOps
  import opened ShardConfig
  import opened ShardKvGroup
  import opened ShardKvSystem
  import opened ShardKvInvariant

  // ---------- Progress ----------

  ghost predicate Forward(y: System, z: System) {
    && y.groups.Keys == z.groups.Keys
    && forall g {:trigger y.groups[g]} {:trigger z.groups[g]} :: g in y.groups ==>
         |y.groups[g].now.shards| == |z.groups[g].now.shards| && Later(y.groups[g].now, z.groups[g].now)
  }

  lemma AbsorbedStays(y: System, z: System, h: int, i: int, s: nat)
    requires Forward(y, z)
    ensures Absorbed(y, h, i, s) ==> Absorbed(z, h, i, s)
    ensures h in y.groups ==> h in z.groups && Num(y, h) <= Num(z, h)
  {
    if h in y.groups {
      assert Later(y.groups[h].now, z.groups[h].now);
    }
  }

  lemma LaterTrans(p: Group, q: Group, r: Group)
    requires Later(p, q) && Later(q, r) && |q.shards| == |r.shards|
    ensures Later(p, r)
  {
  }

  lemma ProposalStays(cfg: seq<Config>, n: nat, y: System, z: System, g: int, c: Proposal)
    requires Numbered(cfg, n) && Forward(y, z) && g in y.groups && ProposalOk(cfg, n, y, g, c)
    ensures ProposalOk(cfg, n, z, g, c)
  {
    AbsorbedStays(y, z, g, 0, 0);
    match c
    case NewConfig(k) =>
      assert Later(y.groups[g].now, z.groups[g].now);
    case Migration(m) =>
      forall s | s in m.data
        ensures cfg[m.num - 1].shards[s] in z.groups && Num(z, cfg[m.num - 1].shards[s]) >= m.num
      {
        AbsorbedStays(y, z, cfg[m.num - 1].shards[s], 0, 0);
      }
    case Clear(i, ids) =>
      forall s | s in ids ensures Absorbed(z, cfg[i].shards[s], i, s) {
        AbsorbedStays(y, z, cfg[i].shards[s], i, s);
      }
  }

  lemma HoldsStays(cfg: seq<Config>, n: nat, y: System, z: System, i: int, s: nat)
    requires Numbered(cfg, n) && Forward(y, z) && Holds(cfg, n, y, i, s)
    ensures Holds(cfg, n, z, i, s)
  {
    AbsorbedStays(y, z, Keeper(cfg, i, s), i, s);
  }

  // ---------- Copies ----------

  /** Whatever the first table knows, the second knows too. */
  ghost predicate Grows(dup: DupTable, more: DupTable) {
    forall c, q :: Duplicated(dup, c, q) ==> Duplicated(more, c, q)
  }

  lemma GoodGrows(kv: Table, dup: DupTable, more: DupTable, effects: seq<Effect>, s: nat, n: nat)
    requires n > 0 && Good(kv, dup, effects, s, n) && Grows(dup, more)
    ensures Good(kv, more, effects, s, n)
  {
  }

  /** A write to another shard changes nothing. */
  lemma GoodElsewhere(kv: Table, dup: DupTable, effects: seq<Effect>, e: Effect, s: nat, n: nat)
    requires n > 0 && Good(kv, dup, effects, s, n) && !On(e, s, n)
    ensures Good(kv, dup, effects + [e], s, n)
  {
    assert (effects + [e])[..|effects|] == effects;
  }

  lemma GoodHere(kv: Table, dup: DupTable, effects: seq<Effect>, e: Effect, s: nat, n: nat, reply: Reply)
    requires n > 0 && Good(kv, dup, effects, s, n) && On(e, s, n) && !Duplicated(dup, e.op.client, e.op.seqId)
    ensures Good(Write(kv, e.op), dup[e.op.client := Last(e.op.seqId, reply)], effects + [e], s, n)
  {
    assert (effects + [e])[..|effects|] == effects;
  }

  // ---------- A step of one group ----------

  /** The frame of a step: only group g changes, and only forwards. */
  lemma StepForward(cfg: seq<Config>, n: nat, y: System, g: int, now: Group)
    requires Numbered(cfg, n) && HistoryOk(cfg, n, y) && g in y.groups
    requires Sane(cfg, n, g, now) && Later(y.groups[g].now, now)
    ensures Forward(y, Step(y, g, now))
  {
    assert MemberOk(cfg, n, g, y.groups[g]);
    assert Sane(cfg, n, g, y.groups[g].now);
  }

  lemma StepHistory(cfg: seq<Config>, n: nat, y: System, g: int, now: Group)
    requires Numbered(cfg, n) && HistoryOk(cfg, n, y) && g in y.groups
    requires Sane(cfg, n, g, now) && Later(y.groups[g].now, now)
    ensures HistoryOk(cfg, n, Step(y, g, now))
  {
    var z := Step(y, g, now);
    var x, x' := y.groups[g], z.groups[g];
    assert MemberOk(cfg, n, g, x);
    assert Sane(cfg, n, g, x.now);
    forall p | p in x'.past ensures Sane(cfg, n, g, p) && Later(p, x'.now) {
      if p in x.past {
        LaterTrans(p, x.now, now);
      }
    }
    forall h | h in z.groups ensures MemberOk(cfg, n, h, z.groups[h]) {
      assert h != g ==> MemberOk(cfg, n, h, y.groups[h]);
    }
  }

  lemma StepPool(cfg: seq<Config>, n: nat, y: System, g: int, now: Group)
    requires Numbered(cfg, n) && HistoryOk(cfg, n, y) && PoolOk(cfg, n, y) && g in y.groups
    requires Sane(cfg, n, g, now) && Later(y.groups[g].now, now)
    ensures PoolOk(cfg, n, Step(y, g, now))
  {
    var z := Step(y, g, now);
    StepForward(cfg, n, y, g, now);
    forall h, c | h in z.groups && c in z.groups[h].pool ensures ProposalOk(cfg, n, z, h, c) {
      assert c in y.groups[h].pool;
      ProposalStays(cfg, n, y, z, h, c);
    }
  }

  /** If the step releases nothing too early and takes in nothing too early, the base invariant stays. */
  lemma StepBase(cfg: seq<Config>, n: nat, y: System, g: int, now: Group)
    requires Base(cfg, n, y) && g in y.groups && Sane(cfg, n, g, now) && Later(y.groups[g].now, now)
    requires LinkOk(cfg, n, Step(y, g, now))
    ensures Base(cfg, n, Step(y, g, now))
  {
    StepHistory(cfg, n, y, g, now);
    StepPool(cfg, n, y, g, now);
  }

  lemma StepEffects(cfg: seq<Config>, n: nat, y: System, g: int, now: Group)
    requires Base(cfg, n, y) && EffectsOk(cfg, n, y) && g in y.groups
    requires Sane(cfg, n, g, now) && Later(y.groups[g].now, now)
    ensures EffectsOk(cfg, n, Step(y, g, now))
  {
    var z := Step(y, g, now);
    StepForward(cfg, n, y, g, now);
    forall i | 0 <= i < |z.effects|
      ensures !z.effects[i].op.Get? && Holds(cfg, n, z, z.effects[i].num, ShardOf(z.effects[i].op.key, n))
    {
      HoldsStays(cfg, n, y, z, y.effects[i].num, ShardOf(y.effects[i].op.key, n));
    }
  }

  /** A step that takes in only what the source has stopped serving, and lets go only of what was taken in. */
  lemma StepLink(cfg: seq<Config>, n: nat, y: System, g: int, now: Group)
    requires Base(cfg, n, y) && g in y.groups && Sane(cfg, n, g, now) && Later(y.groups[g].now, now)
    requires forall i, s: nat, a {:trigger Moves(cfg, n, i, s, a, g)} :: Moves(cfg, n, i, s, a, g) ==>
               Absorbed(Step(y, g, now), g, i, s) ==> Absorbed(y, g, i, s) || Num(y, a) >= i
    requires forall i, s: nat, b {:trigger Moves(cfg, n, i, s, g, b)} :: Moves(cfg, n, i, s, g, b) ==>
               Released(Step(y, g, now), g, i, s) ==> Released(y, g, i, s) || Absorbed(y, b, i, s)
    ensures LinkOk(cfg, n, Step(y, g, now))
  {
    var z := Step(y, g, now);
    StepForward(cfg, n, y, g, now);
    forall i, s: nat, a, b | Moves(cfg, n, i, s, a, b)
      ensures a in z.groups && b in z.groups
      ensures Absorbed(z, b, i, s) ==> Num(z, a) >= i
      ensures Released(z, a, i, s) ==> Absorbed(z, b, i, s)
    {
      AbsorbedStays(y, z, b, i, s);
      AbsorbedStays(y, z, a, i, s);
      assert b != g ==> Absorbed(z, b, i, s) == Absorbed(y, b, i, s);
      assert a != g ==> Released(z, a, i, s) == Released(y, a, i, s);
    }
  }

  /** The copy of shard s in the new state of group g, if it may be served or handed on, is up to date. */
  ghost predicate CopyOk(cfg: seq<Config>, n: nat, y: System, g: int, now: Group, s: nat)
    requires Numbered(cfg, n) && Sane(cfg, n, g, now) && s < n
  {
    || (&& (now.shards[s].status == MoveOut ==> Absorbed(y, now.config.shards[s], now.config.num, s))
        && (now.shards[s].status == Normal || now.shards[s].status == GC ==> Keeper(cfg, now.config.num, s) != g))
    || Good(now.shards[s].kv, now.dup, y.effects, s, n)
  }

  lemma StepKeep(cfg: seq<Config>, n: nat, y: System, g: int, now: Group)
    requires Inv(cfg, n, y) && g in y.groups && Sane(cfg, n, g, now)
    requires forall s: nat {:trigger CopyOk(cfg, n, y, g, now, s)} :: s < n ==> CopyOk(cfg, n, y, g, now, s)
    ensures KeepOk(cfg, n, Step(y, g, now))
  {
    var z := Step(y, g, now);
    forall h, s: nat | Keeping(cfg, n, z, h, s)
      ensures Good(z.groups[h].now.shards[s].kv, z.groups[h].now.dup, z.effects, s, n) {
      assert h == g ==> CopyOk(cfg, n, y, g, now, s);
      assert h != g ==> Keeping(cfg, n, y, h, s);
    }
  }

  lemma StepFrozen(cfg: seq<Config>, n: nat, y: System, g: int, now: Group)
    requires Inv(cfg, n, y) && g in y.groups && Sane(cfg, n, g, now) && Later(y.groups[g].now, now)
    requires forall s: nat {:trigger CopyOk(cfg, n, y, g, now, s)} :: s < n ==> CopyOk(cfg, n, y, g, now, s)
    ensures FrozenOk(n, Step(y, g, now))
  {
    var z := Step(y, g, now);
    StepForward(cfg, n, y, g, now);
    forall a, p, s: nat | Frozen(z, a, s) && p in z.groups[a].past && p.config.num == Num(z, a) && s < |p.shards|
      ensures Good(p.shards[s].kv, p.dup, z.effects, s, n)
    {
      AbsorbedStays(y, z, z.groups[a].now.config.shards[s], Num(z, a), s);
      assert MemberOk(cfg, n, a, y.groups[a]);
      if a == g && p == now {
        assert CopyOk(cfg, n, y, g, now, s);
      } else {
        assert p in y.groups[a].past && Later(p, y.groups[a].now);
        assert Frozen(y, a, s);
      }
    }
  }

  lemma StepCargo(cfg: seq<Config>, n: nat, y: System, g: int, now: Group)
    requires Inv(cfg, n, y) && g in y.groups && Sane(cfg, n, g, now) && Later(y.groups[g].now, now)
    ensures CargoOk(n, Step(y, g, now))
  {
    var z := Step(y, g, now);
    StepForward(cfg, n, y, g, now);
    forall h, m, s: nat | Awaits(z, h, m, s) ensures Good(m.data[s], m.dup, z.effects, s, n) {
      assert ProposalOk(cfg, n, y, h, Migration(m));
      assert Later(y.groups[h].now, z.groups[h].now);
      assert Awaits(y, h, m, s);
    }
  }

  lemma StepInv(cfg: seq<Config>, n: nat, y: System, g: int, now: Group)
    requires Inv(cfg, n, y) && g in y.groups && Sane(cfg, n, g, now) && Later(y.groups[g].now, now)
    requires Base(cfg, n, Step(y, g, now))
    requires forall s: nat {:trigger CopyOk(cfg, n, y, g, now, s)} :: s < n ==> CopyOk(cfg, n, y, g, now, s)
    ensures Inv(cfg, n, Step(y, g, now))
  {
    StepEffects(cfg, n, y, g, now);
    StepKeep(cfg, n, y, g, now);
    StepFrozen(cfg, n, y, g, now);
    StepCargo(cfg, n, y, g, now);
  }

  // ---------- A client operation ----------

  /** Nothing but the contents of one shard and the table changes. */
  ghost predicate SameStatus(p: Group, q: Group) {
    && p.gid == q.gid && p.config == q.config && p.prev == q.prev && |p.shards| == |q.shards|
    && forall s :: 0 <= s < |p.shards| ==> p.shards[s].status == q.shards[s].status
  }

  lemma SameStatusLink(cfg: seq<Config>, n: nat, y: System, g: int, now: Group)
    requires Numbered(cfg, n) && LinkOk(cfg, n, y) && g in y.groups && SameStatus(y.groups[g].now, now)
    ensures LinkOk(cfg, n, Step(y, g, now))
  {
    var z := Step(y, g, now);
    forall i, s: nat, a, b | Moves(cfg, n, i, s, a, b)
      ensures a in z.groups && b in z.groups
      ensures Absorbed(z, b, i, s) ==> Num(z, a) >= i
      ensures Released(z, a, i, s) ==> Absorbed(z, b, i, s)
    {
      assert Absorbed(z, b, i, s) == Absorbed(y, b, i, s);
      assert Released(z, a, i, s) == Released(y, a, i, s);
    }
  }

  lemma WriteIsSane(cfg: seq<Config>, n: nat, y: System, g: int, op: Op)
    requires Numbered(cfg, n) && HistoryOk(cfg, n, y) && g in y.groups && Shaped(y.groups[g].now, n)
    requires TakesEffect(y.groups[g].now, op)
    ensures var now := ApplyClient(y.groups[g].now, op).0;
            Sane(cfg, n, g, now) && Later(y.groups[g].now, now) && SameStatus(y.groups[g].now, now)
  {
    var s := ShardOf(op.key, n);
    var was, now := y.groups[g].now, ApplyClient(y.groups[g].now, op).0;
    assert MemberOk(cfg, n, g, y.groups[g]);
    assert Sane(cfg, n, g, was);
    assert Serving(y, g, s);
    ServerKeeps(cfg, n, y, g, s);
    KeeperHolds(cfg, n, y, g, s);
    forall t | 0 <= t < n ensures ShardOk(cfg, n, g, now.config.num, now.shards[t], t) {
      assert ShardOk(cfg, n, g, was.config.num, was.shards[t], t);
    }
  }

  lemma ClientBase(cfg: seq<Config>, n: nat, y: System, g: int, op: Op)
    requires Base(cfg, n, y) && g in y.groups && Shaped(y.groups[g].now, n)
    ensures Base(cfg, n, OnClient(y, g, op))
  {
    if TakesEffect(y.groups[g].now, op) {
      var now := ApplyClient(y.groups[g].now, op).0;
      WriteIsSane(cfg, n, y, g, op);
      SameStatusLink(cfg, n, y, g, now);
      StepBase(cfg, n, y, g, now);
      BaseIgnoresEffects(cfg, n, Step(y, g, now), OnClient(y, g, op));
    } else {
      ClientIdle(cfg, n, y, g, op);
    }
  }

  /** An operation that does not take effect changes nothing. */
  lemma ClientIdle(cfg: seq<Config>, n: nat, y: System, g: int, op: Op)
    requires Numbered(cfg, n) && HistoryOk(cfg, n, y) && g in y.groups && Shaped(y.groups[g].now, n)
    requires !TakesEffect(y.groups[g].now, op)
    ensures OnClient(y, g, op) == y
  {
    assert MemberOk(cfg, n, g, y.groups[g]);
    assert y.groups[g].past + {y.groups[g].now} == y.groups[g].past;
  }

  lemma BaseIgnoresEffects(cfg: seq<Config>, n: nat, y: System, z: System)
    requires Base(cfg, n, y) && z.groups == y.groups
    ensures Base(cfg, n, z)
  {
    forall i, s: nat, a, b | Moves(cfg, n, i, s, a, b)
      ensures a in z.groups && b in z.groups
      ensures Absorbed(z, b, i, s) ==> Num(z, a) >= i
      ensures Released(z, a, i, s) ==> Absorbed(z, b, i, s)
    {
      assert Absorbed(z, b, i, s) == Absorbed(y, b, i, s);
      assert Released(z, a, i, s) == Released(y, a, i, s);
    }
    forall h, c | h in z.groups && c in z.groups[h].pool ensures ProposalOk(cfg, n, z, h, c) {
      assert c in y.groups[h].pool;
      assert Forward(y, z);
      ProposalStays(cfg, n, y, z, h, c);
    }
  }

  lemma ClientEffects(cfg: seq<Config>, n: nat, y: System, g: int, op: Op)
    requires Inv(cfg, n, y) && g in y.groups && Shaped(y.groups[g].now, n) && TakesEffect(y.groups[g].now, op)
    ensures EffectsOk(cfg, n, OnClient(y, g, op))
  {
    var was, now := y.groups[g].now, ApplyClient(y.groups[g].now, op).0;
    var z, s := OnClient(y, g, op), ShardOf(op.key, n);
    WriteIsSane(cfg, n, y, g, op);
    StepForward(cfg, n, y, g, now);
    assert Forward(y, z);
    assert Serving(y, g, s);
    ServerKeeps(cfg, n, y, g, s);
    KeeperHolds(cfg, n, y, g, s);
    forall i | 0 <= i < |z.effects|
      ensures !z.effects[i].op.Get? && Holds(cfg, n, z, z.effects[i].num, ShardOf(z.effects[i].op.key, n))
    {
      if i < |y.effects| {
        assert z.effects[i] == y.effects[i];
        HoldsStays(cfg, n, y, z, y.effects[i].num, ShardOf(y.effects[i].op.key, n));
      } else {
        HoldsStays(cfg, n, y, z, Num(y, g), s);
      }
    }
    forall i, j | 0 <= i < j < |z.effects| && SameTag(z.effects[i].op, z.effects[j].op)
      ensures ShardOf(z.effects[i].op.key, n) != ShardOf(z.effects[j].op.key, n)
    {
      assert z.effects[i] == y.effects[i];
      assert j < |y.effects| ==> z.effects[j] == y.effects[j];
      assert j == |y.effects| ==> !On(y.effects[i], s, n);
    }
  }

  lemma ClientKeep(cfg: seq<Config>, n: nat, y: System, g: int, op: Op)
    requires Inv(cfg, n, y) && g in y.groups && Shaped(y.groups[g].now, n) && TakesEffect(y.groups[g].now, op)
    ensures KeepOk(cfg, n, OnClient(y, g, op))
  {
    var was, now := y.groups[g].now, ApplyClient(y.groups[g].now, op).0;
    var z, t := OnClient(y, g, op), ShardOf(op.key, n);
    var e := Effect(op, was.config.num);
    assert Serving(y, g, t);
    ServerKeeps(cfg, n, y, g, t);
    forall h, s: nat | Keeping(cfg, n, z, h, s)
      ensures Good(z.groups[h].now.shards[s].kv, z.groups[h].now.dup, z.effects, s, n) {
      assert Keeping(cfg, n, y, h, s);
      if s == t {
        OneKeeper(cfg, n, y, g, h, s);
        GoodHere(was.shards[s].kv, was.dup, y.effects, e, s, n, Reply("", OK));
      } else {
        GoodElsewhere(y.groups[h].now.shards[s].kv, y.groups[h].now.dup, y.effects, e, s, n);
        if h == g {
          GoodGrows(was.shards[s].kv, was.dup, now.dup, z.effects, s, n);
        }
      }
    }
  }

  lemma ClientFrozen(cfg: seq<Config>, n: nat, y: System, g: int, op: Op)
    requires Inv(cfg, n, y) && g in y.groups && Shaped(y.groups[g].now, n) && TakesEffect(y.groups[g].now, op)
    ensures FrozenOk(n, OnClient(y, g, op))
  {
    var z := OnClient(y, g, op);
    assert Serving(y, g, ShardOf(op.key, n));
    ServerKeeps(cfg, n, y, g, ShardOf(op.key, n));
    forall a, p, s: nat | Frozen(z, a, s) && p in z.groups[a].past && p.config.num == Num(z, a) && s < |p.shards|
      ensures Good(p.shards[s].kv, p.dup, z.effects, s, n)
    {
      assert Absorbed(z, z.groups[a].now.config.shards[s], Num(z, a), s) == Absorbed(y,
            z.groups[a].now.config.shards[s], Num(y, a), s);
      assert Frozen(y, a, s);
      NoKeeperWhileFrozen(cfg, n, y, g, a, s);
      assert MemberOk(cfg, n, a, y.groups[a]);
      ClientCopy(n, y, g, op, a, p, s);
    }
  }

  /** A copy of another shard is as good after the write as before. */
  lemma ClientCopy(n: nat, y: System, g: int, op: Op, a: int, p: Group, s: nat)
    requires n > 0 && FrozenOk(n, y) && g in y.groups && Shaped(y.groups[g].now, n) && TakesEffect(y.groups[g].now, op)
    requires Frozen(y, a, s) && y.groups[a].now in y.groups[a].past && s != ShardOf(op.key, n)
    requires p in OnClient(y, g, op).groups[a].past && p.config.num == Num(y, a) && s < |p.shards|
    ensures Good(p.shards[s].kv, p.dup, y.effects + [Effect(op, y.groups[g].now.config.num)], s, n)
  {
    var was, e := y.groups[g].now, Effect(op, y.groups[g].now.config.num);
    if p in y.groups[a].past {
      GoodElsewhere(p.shards[s].kv, p.dup, y.effects, e, s, n);
    } else {
      GoodElsewhere(was.shards[s].kv, was.dup, y.effects, e, s, n);
      GoodGrows(was.shards[s].kv, was.dup, p.dup, y.effects + [e], s, n);
    }
  }

  lemma ClientCargo(cfg: seq<Config>, n: nat, y: System, g: int, op: Op)
    requires Inv(cfg, n, y) && g in y.groups && Shaped(y.groups[g].now, n) && TakesEffect(y.groups[g].now, op)
    ensures CargoOk(n, OnClient(y, g, op))
  {
    var z, t := OnClient(y, g, op), ShardOf(op.key, n);
    var e := Effect(op, y.groups[g].now.config.num);
    assert Serving(y, g, t);
    ServerKeeps(cfg, n, y, g, t);
    forall h, m, s: nat | Awaits(z, h, m, s) ensures Good(m.data[s], m.dup, z.effects, s, n) {
      assert Awaits(y, h, m, s);
      var a := AwaitedIsFrozen(cfg, n, y, h, m, s);
      NoKeeperWhileFrozen(cfg, n, y, g, a, s);
      GoodElsewhere(m.data[s], m.dup, y.effects, e, s, n);
    }
  }

  lemma ClientInv(cfg: seq<Config>, n: nat, y: System, g: int, op: Op)
    requires Inv(cfg, n, y) && g in y.groups && Shaped(y.groups[g].now, n) && n > 0
    ensures Inv(cfg, n, OnClient(y, g, op))
  {
    if TakesEffect(y.groups[g].now, op) {
      ClientBase(cfg, n, y, g, op);
      ClientEffects(cfg, n, y, g, op);
      ClientKeep(cfg, n, y, g, op);
      ClientFrozen(cfg, n, y, g, op);
      ClientCargo(cfg, n, y, g, op);
    } else {
      ClientIdle(cfg, n, y, g, op);
    }
  }
}
