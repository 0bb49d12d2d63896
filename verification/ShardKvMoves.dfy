/** The steps that move shards keep the invariant. */
module ShardKvMoves {
  import opened Sets
  import opened KvOps
  import opened ShardConfig
  import opened ShardKvGroup
  import opened ShardKvSystem
  import opened ShardKvInvariant
  import opened ShardKvSteps

  // ---------- Proposals ----------

  /** A proposal by itself changes no state. */
  lemma ProposeFrame(cfg: seq<Config>, n: nat, y: System, g: int, c: Proposal)
    requires Numbered(cfg, n) && g in y.groups
    ensures var z := Propose(y, g, c);
            && (EffectsOk(cfg, n, y) ==> EffectsOk(cfg, n, z))
            && (KeepOk(cfg, n, y) ==> KeepOk(cfg, n, z))
            && (FrozenOk(n, y) ==> FrozenOk(n, z))
  {
    var z := Propose(y, g, c);
    assert Forward(y, z);
    if EffectsOk(cfg, n, y) {
      forall i | 0 <= i < |z.effects|
        ensures !z.effects[i].op.Get? && Holds(cfg, n, z, z.effects[i].num, ShardOf(z.effects[i].op.key, n))
      {
        HoldsStays(cfg, n, y, z, y.effects[i].num, ShardOf(y.effects[i].op.key, n));
      }
    }
    assert forall h, s: nat :: Keeping(cfg, n, z, h, s) ==> Keeping(cfg, n, y, h, s);
    forall a, s: nat | Frozen(z, a, s) ensures Frozen(y, a, s) {
      AbsorbedStays(y, z, z.groups[a].now.config.shards[s], Num(z, a), s);
    }
  }

  lemma ProposeInv(cfg: seq<Config>, n: nat, y: System, g: int, c: Proposal)
    requires Inv(cfg, n, y) && g in y.groups && Base(cfg, n, Propose(y, g, c))
    requires c.Migration? ==> forall s: nat :: Awaits(Propose(y, g, c), g, c.reply, s) ==>
          Good(c.reply.data[s], c.reply.dup, y.effects, s, n)
    ensures Inv(cfg, n, Propose(y, g, c))
  {
    var z := Propose(y, g, c);
    ProposeFrame(cfg, n, y, g, c);
    forall h, m, s: nat | Awaits(z, h, m, s) ensures Good(m.data[s], m.dup, z.effects, s, n) {
      if !(h == g && c == Migration(m)) {
        assert Awaits(y, h, m, s);
      }
    }
  }

  lemma ProposeBase(cfg: seq<Config>, n: nat, y: System, g: int, c: Proposal)
    requires Base(cfg, n, y) && g in y.groups && ProposalOk(cfg, n, y, g, c)
    ensures Base(cfg, n, Propose(y, g, c))
  {
    var z := Propose(y, g, c);
    assert Forward(y, z);
    forall h | h in z.groups ensures MemberOk(cfg, n, h, z.groups[h]) {
      assert MemberOk(cfg, n, h, y.groups[h]);
    }
    forall i, s: nat, a, b | Moves(cfg, n, i, s, a, b)
      ensures a in z.groups && b in z.groups
      ensures Absorbed(z, b, i, s) ==> Num(z, a) >= i
      ensures Released(z, a, i, s) ==> Absorbed(z, b, i, s)
    {
      assert Absorbed(z, b, i, s) == Absorbed(y, b, i, s);
      assert Released(z, a, i, s) == Released(y, a, i, s);
    }
    forall h, d | h in z.groups && d in z.groups[h].pool ensures ProposalOk(cfg, n, z, h, d) {
      assert d in y.groups[h].pool || (h == g && d == c);
      ProposalStays(cfg, n, y, z, h, d);
    }
  }

  /** A leader fetches the next configuration only if its state has no shard on the move. */
  lemma FetchBase(cfg: seq<Config>, n: nat, y: System, g: int, seen: Group)
    requires Base(cfg, n, y) && g in y.groups && seen in y.groups[g].past && AllNormal(seen)
          && seen.config.num + 1 < |cfg|
    ensures Base(cfg, n, Propose(y, g, NewConfig(seen.config.num + 1)))
  {
    assert MemberOk(cfg, n, g, y.groups[g]);
    assert Sane(cfg, n, g, seen) && Later(seen, y.groups[g].now);
    ProposeBase(cfg, n, y, g, NewConfig(seen.config.num + 1));
  }

  /** The shards that share a status and a source are those of one move. */
  lemma ByStatusIsOneMove(cfg: seq<Config>, n: nat, h: int, seen: Group, status: Status, g: int)
    requires Numbered(cfg, n) && Sane(cfg, n, h, seen) && (status == MoveIn || status == GC)
    ensures OneMove(cfg, n, seen.config.num, Elements(ByStatus(seen, status, g, n)))
    ensures forall s :: s in ByStatus(seen, status, g, n) ==> Moves(cfg, n, seen.config.num, s, g, h)
  {
    var ids, i := ByStatus(seen, status, g, n), seen.config.num;
    forall s | s in ids ensures s < n && Moves(cfg, n, i, s, g, h) {
      assert ShardOk(cfg, n, h, i, seen.shards[s], s);
    }
    forall s: nat, t: nat | s in Elements(ids) && t < n ensures t in Elements(ids) <==> SameMove(cfg, n, i, s, t) {
      assert t in ids ==> Moves(cfg, n, i, t, g, h);
    }
  }

  lemma PullOk(cfg: seq<Config>, n: nat, y: System, h: int, seen: Group, g: int, read: Group)
    requires Numbered(cfg, n) && HistoryOk(cfg, n, y) && Enabled(cfg, n, y, Pull(h, seen, g, read))
          && read.config.num >= seen.config.num
    ensures ProposalOk(cfg, n, y, h, Migration(GetShardsData(read, seen.config.num, ByStatus(seen, MoveIn, g,
          n)).reply))
  {
    var ids := ByStatus(seen, MoveIn, g, n);
    assert MemberOk(cfg, n, h, y.groups[h]) && MemberOk(cfg, n, g, y.groups[g]);
    assert Sane(cfg, n, h, seen) && Later(seen, y.groups[h].now) && Later(read, y.groups[g].now);
    ByStatusIsOneMove(cfg, n, h, seen, MoveIn, g);
    PulledOk(cfg, n, y, h, g, seen.config.num, ids, GetShardsData(read, seen.config.num, ids).reply);
  }

  lemma PulledOk(cfg: seq<Config>, n: nat, y: System, h: int, g: int, i: int, ids: seq<nat>, m: ShardData)
    requires Numbered(cfg, n) && h in y.groups && g in y.groups && ids != [] && i <= Num(y, h) && i <= Num(y, g)
    requires OneMove(cfg, n, i, Elements(ids)) && (forall s :: s in ids ==> Moves(cfg, n, i, s, g, h))
    requires m.num == i && forall s :: s in m.data <==> s in ids
    ensures ProposalOk(cfg, n, y, h, Migration(m))
  {
    assert Moves(cfg, n, i, ids[0], g, h);
    assert m.data.Keys == Elements(ids);
  }

  lemma PullBase(cfg: seq<Config>, n: nat, y: System, h: int, seen: Group, g: int, read: Group)
    requires Base(cfg, n, y) && Enabled(cfg, n, y, Pull(h, seen, g, read))
    ensures Base(cfg, n, OnPull(y, h, seen, g, read))
  {
    if read.config.num >= seen.config.num {
      PullOk(cfg, n, y, h, seen, g, read);
      ProposeBase(cfg, n, y, h, Migration(GetShardsData(read, seen.config.num, ByStatus(seen, MoveIn, g, n)).reply));
    }
  }

  /** The answer to a pull is up to date as long as the puller still awaits it. */
  lemma PullInv(cfg: seq<Config>, n: nat, y: System, h: int, seen: Group, g: int, read: Group)
    requires Inv(cfg, n, y) && Enabled(cfg, n, y, Pull(h, seen, g, read))
    ensures Inv(cfg, n, OnPull(y, h, seen, g, read))
  {
    var ids, i := ByStatus(seen, MoveIn, g, n), seen.config.num;
    if read.config.num >= i {
      var m := GetShardsData(read, i, ids).reply;
      PullBase(cfg, n, y, h, seen, g, read);
      assert Sane(cfg, n, h, seen) by {
        assert MemberOk(cfg, n, h, y.groups[h]);
      }
      ByStatusIsOneMove(cfg, n, h, seen, MoveIn, g);
      forall s: nat | Awaits(Propose(y, h, Migration(m)), h, m, s) ensures Good(m.data[s], m.dup, y.effects, s, n) {
        assert s in ids;
        PulledIsGood(cfg, n, y, h, g, read, i, s);
      }
      ProposeInv(cfg, n, y, h, Migration(m));
    }
  }

  lemma PulledIsGood(cfg: seq<Config>, n: nat, y: System, h: int, g: int, read: Group, i: int, s: nat)
    requires Base(cfg, n, y) && FrozenOk(n, y) && Moves(cfg, n, i, s, g, h)
    requires g in y.groups && read in y.groups[g].past && read.config.num >= i && s < |read.shards|
    requires h in y.groups && Num(y, h) == i && s < |y.groups[h].now.shards|
          && y.groups[h].now.shards[s].status == MoveIn
    ensures Good(read.shards[s].kv, read.dup, y.effects, s, n)
  {
    assert MemberOk(cfg, n, g, y.groups[g]) && MemberOk(cfg, n, h, y.groups[h]);
    assert Sane(cfg, n, g, y.groups[g].now) && Sane(cfg, n, h, y.groups[h].now) && Later(read, y.groups[g].now);
    assert !Absorbed(y, h, i, s);
    assert Frozen(y, g, s);
  }

  lemma ClearOk(cfg: seq<Config>, n: nat, y: System, h: int, seen: Group, g: int, at: int)
    requires Numbered(cfg, n) && HistoryOk(cfg, n, y) && Enabled(cfg, n, y, Finish(h, seen, g)) && (at == g || at == h)
    ensures ProposalOk(cfg, n, y, at, Clear(seen.config.num, ByStatus(seen, GC, g, n)))
  {
    var ids, i := ByStatus(seen, GC, g, n), seen.config.num;
    assert MemberOk(cfg, n, h, y.groups[h]);
    assert Sane(cfg, n, h, seen) && Later(seen, y.groups[h].now) && Sane(cfg, n, h, y.groups[h].now);
    ByStatusIsOneMove(cfg, n, h, seen, GC, g);
    assert Moves(cfg, n, i, ids[0], g, h);
    forall s | s in ids ensures Moves(cfg, n, i, s, g, h) && Absorbed(y, h, i, s) {
      assert seen.shards[s].status == GC;
    }
  }

  /** Deletion is asked for, and the move finished, only for shards that have been taken in. */
  lemma ClearBase(cfg: seq<Config>, n: nat, y: System, h: int, seen: Group, g: int, at: int)
    requires Base(cfg, n, y) && Enabled(cfg, n, y, Finish(h, seen, g)) && (at == g || at == h)
    ensures Base(cfg, n, Propose(y, at, Clear(seen.config.num, ByStatus(seen, GC, g, n))))
  {
    ClearOk(cfg, n, y, h, seen, g, at);
    ProposeBase(cfg, n, y, at, Clear(seen.config.num, ByStatus(seen, GC, g, n)));
  }

  // ---------- A new configuration ----------

  /** The new state after configuration i, applied when every shard is normal. */
  lemma ConfigIsSane(cfg: seq<Config>, n: nat, g: int, p: Group)
    requires Numbered(cfg, n) && Sane(cfg, n, g, p) && AllNormal(p) && g != 0 && p.config.num + 1 < |cfg|
    ensures Sane(cfg, n, g, ApplyConfig(p, cfg[p.config.num + 1]))
  {
    var i := p.config.num + 1;
    var q := ApplyConfig(p, cfg[i]);
    forall s | 0 <= s < n ensures ShardOk(cfg, n, g, i, q.shards[s], s) {
      assert ShardOk(cfg, n, g, i - 1, p.shards[s], s);
      if Keeper(cfg, i - 1, s) == g && Keeper(cfg, i, s) != g {
        assert Changes(cfg, i, s);
      }
    }
  }

  /** The status after configuration i says whether the shard is on the move. */
  lemma ConfigStatus(cfg: seq<Config>, n: nat, g: int, p: Group, s: nat, a: int, b: int)
    requires Numbered(cfg, n) && Sane(cfg, n, g, p) && AllNormal(p) && p.config.num + 1 < |cfg|
    requires Moves(cfg, n, p.config.num + 1, s, a, b)
    ensures var q := ApplyConfig(p, cfg[p.config.num + 1]);
            (g == b ==> q.shards[s].status == MoveIn) && (g == a ==> q.shards[s].status == MoveOut)
  {
  }

  lemma ConfigLink(cfg: seq<Config>, n: nat, y: System, g: int)
    requires Base(cfg, n, y) && g in y.groups && AllNormal(y.groups[g].now) && Num(y, g) + 1 < |cfg|
    requires Sane(cfg, n, g, y.groups[g].now)
    ensures LinkOk(cfg, n, Step(y, g, ApplyConfig(y.groups[g].now, cfg[Num(y, g) + 1])))
  {
    var was := y.groups[g].now;
    var now := ApplyConfig(was, cfg[Num(y, g) + 1]);
    ConfigIsSane(cfg, n, g, was);
    forall i, s: nat, a, b | Moves(cfg, n, i, s, a, b) && (a == g || b == g) && i == was.config.num + 1
      ensures (g == b ==> now.shards[s].status == MoveIn) && (g == a ==> now.shards[s].status == MoveOut)
    {
      ConfigStatus(cfg, n, g, was, s, a, b);
    }
    StepLink(cfg, n, y, g, now);
  }

  /** A shard that had no keeper has seen no write. */
  lemma UnownedIsEmpty(cfg: seq<Config>, n: nat, y: System, g: int, i: int, s: nat, k: int)
    requires Handed(cfg, n) && Base(cfg, n, y) && EffectsOk(cfg, n, y) && g in y.groups && 0 < i < |cfg| && s < n
    requires Num(y, g) == i - 1 && Keeper(cfg, i - 1, s) == 0 && Keeper(cfg, i, s) == g
    requires 0 <= k < |y.effects|
    ensures !On(y.effects[k], s, n)
  {
    var e := y.effects[k];
    if On(e, s, n) {
      assert Holds(cfg, n, y, e.num, s);
      if e.num < i {
        KeeperStays(cfg, n, e.num, i - 1, s);
      } else if e.num > i {
        Behind(cfg, n, y, e.num, i, s);
      }
    }
  }

  lemma {:induction false} NoEffectNoContents(effects: seq<Effect>, s: nat, n: nat)
    requires n > 0 && forall i :: 0 <= i < |effects| ==> !On(effects[i], s, n)
    ensures Contents(effects, s, n) == map[]
  {
    if effects != [] {
      NoEffectNoContents(effects[..|effects| - 1], s, n);
    }
  }

  lemma ConfigCopy(cfg: seq<Config>, n: nat, y: System, g: int, s: nat)
    requires Inv(cfg, n, y) && g in y.groups && AllNormal(y.groups[g].now) && Num(y, g) + 1 < |cfg|
    requires Sane(cfg, n, g, y.groups[g].now) && s < n
    requires Sane(cfg, n, g, ApplyConfig(y.groups[g].now, cfg[Num(y, g) + 1]))
    ensures CopyOk(cfg, n, y, g, ApplyConfig(y.groups[g].now, cfg[Num(y, g) + 1]), s)
  {
    var was, i := y.groups[g].now, Num(y, g) + 1;
    var now := ApplyConfig(was, cfg[i]);
    if now.shards[s].status == MoveOut || (now.shards[s].status == Normal && Keeper(cfg, i, s) == g) {
      if Keeper(cfg, i - 1, s) == g {
        assert Keeping(cfg, n, y, g, s);
      } else if Keeper(cfg, i - 1, s) == 0 {
        assert ShardOk(cfg, n, g, i - 1, was.shards[s], s);
        forall k | 0 <= k < |y.effects| ensures !On(y.effects[k], s, n) {
          UnownedIsEmpty(cfg, n, y, g, i, s, k);
        }
        NoEffectNoContents(y.effects, s, n);
      } else {
        assert Changes(cfg, i, s);
      }
    }
  }

  lemma NextConfigBase(cfg: seq<Config>, n: nat, y: System, g: int)
    requires Base(cfg, n, y) && g in y.groups && AllNormal(y.groups[g].now) && Num(y, g) + 1 < |cfg|
    requires Sane(cfg, n, g, y.groups[g].now)
    ensures Base(cfg, n, Step(y, g, ApplyConfig(y.groups[g].now, cfg[Num(y, g) + 1])))
  {
    var now := ApplyConfig(y.groups[g].now, cfg[Num(y, g) + 1]);
    ConfigIsSane(cfg, n, g, y.groups[g].now);
    ConfigLink(cfg, n, y, g);
    StepBase(cfg, n, y, g, now);
  }

  lemma ConfigBase(cfg: seq<Config>, n: nat, y: System, g: int, k: int)
    requires Base(cfg, n, y) && g in y.groups && NewConfig(k) in y.groups[g].pool
    ensures 0 <= k < |cfg| && Shaped(y.groups[g].now, |cfg[k].shards|)
    ensures Base(cfg, n, Step(y, g, ApplyConfig(y.groups[g].now, cfg[k])))
  {
    var was := y.groups[g].now;
    assert MemberOk(cfg, n, g, y.groups[g]);
    assert Sane(cfg, n, g, was) && ProposalOk(cfg, n, y, g, NewConfig(k));
    if was.config.num + 1 == k {
      NextConfigBase(cfg, n, y, g);
    } else {
      StepNothing(cfg, n, y, g);
    }
  }

  lemma ConfigInv(cfg: seq<Config>, n: nat, y: System, g: int, k: int)
    requires Inv(cfg, n, y) && g in y.groups && NewConfig(k) in y.groups[g].pool
    ensures 0 <= k < |cfg| && Shaped(y.groups[g].now, |cfg[k].shards|)
    ensures Inv(cfg, n, Step(y, g, ApplyConfig(y.groups[g].now, cfg[k])))
  {
    var was := y.groups[g].now;
    ConfigBase(cfg, n, y, g, k);
    assert MemberOk(cfg, n, g, y.groups[g]);
    assert Sane(cfg, n, g, was) && ProposalOk(cfg, n, y, g, NewConfig(k));
    if was.config.num + 1 == k {
      var now := ApplyConfig(was, cfg[k]);
      ConfigIsSane(cfg, n, g, was);
      forall s: nat | s < n ensures CopyOk(cfg, n, y, g, now, s) {
        ConfigCopy(cfg, n, y, g, s);
      }
      StepInv(cfg, n, y, g, now);
    } else {
      StepNothing(cfg, n, y, g);
    }
  }

  lemma StepNothing(cfg: seq<Config>, n: nat, y: System, g: int)
    requires Numbered(cfg, n) && HistoryOk(cfg, n, y) && g in y.groups
    ensures Step(y, g, y.groups[g].now) == y
  {
    assert MemberOk(cfg, n, g, y.groups[g]);
    assert y.groups[g].past + {y.groups[g].now} == y.groups[g].past;
  }

  // ---------- Taking shards in ----------

  lemma MergeGrows(own: DupTable, other: DupTable)
    ensures Grows(own, Merge(own, other)) && Grows(other, Merge(own, other))
  {
  }

  /** The command is about to be applied, its shards visited in this order. */
  ghost predicate Migrating(n: nat, y: System, g: int, m: ShardData, order: seq<nat>) {
    && g in y.groups && |y.groups[g].now.shards| == n && Migration(m) in y.groups[g].pool && m.num == Num(y, g)
    && Enumerates(order, m.data.Keys) && Shards(order, n)
  }

  ghost predicate TakenIn(was: Group, now: Group, m: ShardData, s: nat) {
    && s < |was.shards| == |now.shards|
    && now.shards[s] == if s in m.data
          && was.shards[s].status == MoveIn then Shard(was.shards[s].kv + m.data[s], GC) else was.shards[s]
  }

  /** All shards of the migration are taken in, or none is. */
  lemma MigrationEffect(cfg: seq<Config>, n: nat, y: System, g: int, m: ShardData, order: seq<nat>, s: nat)
    requires Base(cfg, n, y) && Migrating(n, y, g, m, order) && s < n
    ensures TakenIn(y.groups[g].now, ApplyMigration(y.groups[g].now, m, order), m, s)
  {
    var was := y.groups[g].now;
    assert MemberOk(cfg, n, g, y.groups[g]);
    assert Sane(cfg, n, g, was) && ProposalOk(cfg, n, y, g, Migration(m));
    forall i | 0 <= i < |order| ensures was.shards[order[i]].status == was.shards[order[0]].status {
      assert order[i] in order && order[0] in order;
      assert SameMove(cfg, n, m.num, order[0], order[i]);
    }
    AbsorbTogether(was.shards, m.data, order, s);
  }

  lemma MigrationSane(cfg: seq<Config>, n: nat, y: System, g: int, m: ShardData, now: Group)
    requires Base(cfg, n, y) && g in y.groups && Migration(m) in y.groups[g].pool && m.num == Num(y, g)
    requires now == y.groups[g].now.(shards := now.shards, dup := now.dup) && |now.shards| == n
    requires forall s: nat {:trigger TakenIn(y.groups[g].now, now, m, s)} :: s < n ==>
          TakenIn(y.groups[g].now, now, m, s)
    ensures Sane(cfg, n, g, now) && Later(y.groups[g].now, now)
  {
    var was := y.groups[g].now;
    assert MemberOk(cfg, n, g, y.groups[g]);
    assert Sane(cfg, n, g, was) && ProposalOk(cfg, n, y, g, Migration(m));
    forall s | 0 <= s < n
      ensures ShardOk(cfg, n, g, m.num, now.shards[s], s) && Progress(was.shards[s].status, now.shards[s].status)
    {
      assert TakenIn(was, now, m, s);
      assert ShardOk(cfg, n, g, m.num, was.shards[s], s);
    }
    forall s: nat, t: nat | SameMove(cfg, n, m.num, s, t) ensures now.shards[s].status == now.shards[t].status {
      assert TakenIn(was, now, m, s) && TakenIn(was, now, m, t);
      assert SameMove(cfg, n, m.num, t, s);
      assert s in m.data <==> t in m.data;
    }
  }

  lemma MigrationLink(cfg: seq<Config>, n: nat, y: System, g: int, m: ShardData, now: Group)
    requires Base(cfg, n, y) && g in y.groups && Migration(m) in y.groups[g].pool && m.num == Num(y, g)
    requires now == y.groups[g].now.(shards := now.shards, dup := now.dup) && |now.shards| == n
    requires forall s: nat {:trigger TakenIn(y.groups[g].now, now, m, s)} :: s < n ==>
          TakenIn(y.groups[g].now, now, m, s)
    requires Sane(cfg, n, g, now) && Later(y.groups[g].now, now)
    ensures LinkOk(cfg, n, Step(y, g, now))
  {
    var was := y.groups[g].now;
    assert ProposalOk(cfg, n, y, g, Migration(m));
    forall i, s: nat, a | Moves(cfg, n, i, s, a, g) && Absorbed(Step(y, g, now), g, i, s) && !Absorbed(y, g, i, s)
      ensures a in y.groups && Num(y, a) >= i
    {
      assert TakenIn(was, now, m, s);
      assert s in m.data;
    }
    forall i, s: nat, b | Moves(cfg, n, i, s, g, b) && Released(Step(y, g, now), g, i, s)
      ensures Released(y, g, i, s)
    {
      assert TakenIn(was, now, m, s);
    }
    StepLink(cfg, n, y, g, now);
  }

  lemma MigrationCopy(cfg: seq<Config>, n: nat, y: System, g: int, m: ShardData, now: Group, s: nat)
    requires Inv(cfg, n, y) && g in y.groups && Migration(m) in y.groups[g].pool && m.num == Num(y, g)
    requires now == y.groups[g].now.(shards := now.shards, dup := Merge(y.groups[g].now.dup, m.dup))
    requires Sane(cfg, n, g, now) && TakenIn(y.groups[g].now, now, m, s) && s < n
    ensures CopyOk(cfg, n, y, g, now, s)
  {
    var was := y.groups[g].now;
    MergeGrows(was.dup, m.dup);
    if s in m.data && was.shards[s].status == MoveIn {
      assert Awaits(y, g, m, s);
      AwaitsEmpty(cfg, n, y, g, m, s);
      GoodGrows(m.data[s], m.dup, now.dup, y.effects, s, n);
    } else if Keeping(cfg, n, y, g, s) {
      GoodGrows(was.shards[s].kv, was.dup, now.dup, y.effects, s, n);
    } else if Frozen(y, g, s) {
      assert MemberOk(cfg, n, g, y.groups[g]);
      GoodGrows(was.shards[s].kv, was.dup, now.dup, y.effects, s, n);
    }
  }

  /** What is to move in is empty before. */
  lemma AwaitsEmpty(cfg: seq<Config>, n: nat, y: System, g: int, m: ShardData, s: nat)
    requires Handed(cfg, n) && Base(cfg, n, y) && Awaits(y, g, m, s)
    ensures y.groups[g].now.shards[s].kv + m.data[s] == m.data[s]
  {
    assert MemberOk(cfg, n, g, y.groups[g]);
    assert Sane(cfg, n, g, y.groups[g].now);
    assert ShardOk(cfg, n, g, m.num, y.groups[g].now.shards[s], s);
  }

  lemma MigrationBase(cfg: seq<Config>, n: nat, y: System, g: int, m: ShardData, order: seq<nat>)
    requires Base(cfg, n, y) && Migrating(n, y, g, m, order)
    ensures var now := ApplyMigration(y.groups[g].now, m, order);
            && Base(cfg, n, Step(y, g, now)) && Sane(cfg, n, g, now) && Later(y.groups[g].now, now)
            && forall s: nat {:trigger TakenIn(y.groups[g].now, now, m, s)} :: s < n ==>
                  TakenIn(y.groups[g].now, now, m, s)
  {
    var was, now := y.groups[g].now, ApplyMigration(y.groups[g].now, m, order);
    forall s: nat | s < n ensures TakenIn(was, now, m, s) {
      MigrationEffect(cfg, n, y, g, m, order, s);
    }
    assert TakenIn(was, now, m, 0);
    MigrationSane(cfg, n, y, g, m, now);
    MigrationLink(cfg, n, y, g, m, now);
    StepBase(cfg, n, y, g, now);
  }

  lemma MigrationInv(cfg: seq<Config>, n: nat, y: System, g: int, m: ShardData, order: seq<nat>)
    requires Inv(cfg, n, y) && Migrating(n, y, g, m, order)
    ensures Inv(cfg, n, Step(y, g, ApplyMigration(y.groups[g].now, m, order)))
  {
    var was, now := y.groups[g].now, ApplyMigration(y.groups[g].now, m, order);
    MigrationBase(cfg, n, y, g, m, order);
    forall s: nat | s < n ensures CopyOk(cfg, n, y, g, now, s) {
      assert TakenIn(was, now, m, s);
      MigrationCopy(cfg, n, y, g, m, now, s);
    }
    StepInv(cfg, n, y, g, now);
  }

  // ---------- Letting shards go ----------

  ghost predicate Clearing(n: nat, y: System, g: int, i: int, ids: seq<nat>) {
    && g in y.groups && |y.groups[g].now.shards| == n && Clear(i, ids) in y.groups[g].pool && i == Num(y, g)
    && Shards(ids, n)
  }

  ghost predicate Cleared(was: Group, now: Group, ids: seq<nat>, s: nat) {
    && s < |was.shards| == |now.shards|
    && now.shards[s] == if s in ids then Settled(was.shards[s]) else was.shards[s]
  }

  /** All shards named are settled, or none is. */
  lemma ClearEffect(cfg: seq<Config>, n: nat, y: System, g: int, i: int, ids: seq<nat>, s: nat)
    requires Base(cfg, n, y) && Clearing(n, y, g, i, ids) && s < n
    ensures Cleared(y.groups[g].now, ApplyGC(y.groups[g].now, i, ids), ids, s)
  {
    var was := y.groups[g].now;
    assert MemberOk(cfg, n, g, y.groups[g]);
    assert Sane(cfg, n, g, was) && ProposalOk(cfg, n, y, g, Clear(i, ids));
    forall k | 0 <= k < |ids| ensures was.shards[ids[k]].status == was.shards[ids[0]].status {
      assert ids[k] in Elements(ids) && ids[0] in Elements(ids);
      assert SameMove(cfg, n, i, ids[0], ids[k]);
    }
    ClearTogether(was.shards, ids, s);
  }

  lemma ClearSane(cfg: seq<Config>, n: nat, y: System, g: int, i: int, ids: seq<nat>, now: Group)
    requires Base(cfg, n, y) && Clearing(n, y, g, i, ids)
    requires now == y.groups[g].now.(shards := now.shards) && |now.shards| == n
    requires forall s: nat {:trigger Cleared(y.groups[g].now, now, ids, s)} :: s < n ==>
          Cleared(y.groups[g].now, now, ids, s)
    ensures Sane(cfg, n, g, now) && Later(y.groups[g].now, now)
  {
    var was := y.groups[g].now;
    assert MemberOk(cfg, n, g, y.groups[g]);
    assert Sane(cfg, n, g, was) && ProposalOk(cfg, n, y, g, Clear(i, ids));
    forall s | 0 <= s < n
      ensures ShardOk(cfg, n, g, i, now.shards[s], s) && Progress(was.shards[s].status, now.shards[s].status)
    {
      assert Cleared(was, now, ids, s);
      assert ShardOk(cfg, n, g, i, was.shards[s], s);
    }
    forall s: nat, t: nat | SameMove(cfg, n, i, s, t) ensures now.shards[s].status == now.shards[t].status {
      assert Cleared(was, now, ids, s) && Cleared(was, now, ids, t);
      assert SameMove(cfg, n, i, t, s);
      assert s in Elements(ids) <==> t in Elements(ids);
    }
  }

  lemma ClearLink(cfg: seq<Config>, n: nat, y: System, g: int, i: int, ids: seq<nat>, now: Group)
    requires Base(cfg, n, y) && Clearing(n, y, g, i, ids)
    requires now == y.groups[g].now.(shards := now.shards) && |now.shards| == n
    requires forall s: nat {:trigger Cleared(y.groups[g].now, now, ids, s)} :: s < n ==>
          Cleared(y.groups[g].now, now, ids, s)
    requires Sane(cfg, n, g, now) && Later(y.groups[g].now, now)
    ensures LinkOk(cfg, n, Step(y, g, now))
  {
    var was := y.groups[g].now;
    assert ProposalOk(cfg, n, y, g, Clear(i, ids));
    forall k, s: nat, a | Moves(cfg, n, k, s, a, g) && Absorbed(Step(y, g, now), g, k, s)
      ensures Absorbed(y, g, k, s)
    {
      assert Cleared(was, now, ids, s);
    }
    forall k, s: nat, b | Moves(cfg, n, k, s, g, b) && Released(Step(y, g, now), g, k, s) && !Released(y, g, k, s)
      ensures Absorbed(y, b, k, s)
    {
      assert Cleared(was, now, ids, s);
      assert s in ids;
    }
    StepLink(cfg, n, y, g, now);
  }

  lemma ClearCopy(cfg: seq<Config>, n: nat, y: System, g: int, ids: seq<nat>, now: Group, s: nat)
    requires Inv(cfg, n, y) && g in y.groups && now == y.groups[g].now.(shards := now.shards)
    requires Sane(cfg, n, g, now) && Sane(cfg, n, g, y.groups[g].now) && Cleared(y.groups[g].now, now, ids, s) && s < n
    ensures CopyOk(cfg, n, y, g, now, s)
  {
    var was := y.groups[g].now;
    assert ShardOk(cfg, n, g, Num(y, g), was.shards[s], s);
    if Frozen(y, g, s) {
      assert MemberOk(cfg, n, g, y.groups[g]);
    }
    assert Keeping(cfg, n, y, g, s) ==> Good(was.shards[s].kv, was.dup, y.effects, s, n);
  }

  lemma ClearCommitBase(cfg: seq<Config>, n: nat, y: System, g: int, i: int, ids: seq<nat>)
    requires Base(cfg, n, y) && Clearing(n, y, g, i, ids)
    ensures var now := ApplyGC(y.groups[g].now, i, ids);
            && Base(cfg, n, Step(y, g, now)) && Sane(cfg, n, g, now) && Later(y.groups[g].now, now)
            && forall s: nat {:trigger Cleared(y.groups[g].now, now, ids, s)} :: s < n ==>
                  Cleared(y.groups[g].now, now, ids, s)
  {
    var was, now := y.groups[g].now, ApplyGC(y.groups[g].now, i, ids);
    forall s: nat | s < n ensures Cleared(was, now, ids, s) {
      ClearEffect(cfg, n, y, g, i, ids, s);
    }
    assert Cleared(was, now, ids, 0);
    ClearSane(cfg, n, y, g, i, ids, now);
    ClearLink(cfg, n, y, g, i, ids, now);
    StepBase(cfg, n, y, g, now);
  }

  lemma ClearCommitInv(cfg: seq<Config>, n: nat, y: System, g: int, i: int, ids: seq<nat>)
    requires Inv(cfg, n, y) && Clearing(n, y, g, i, ids)
    ensures Inv(cfg, n, Step(y, g, ApplyGC(y.groups[g].now, i, ids)))
  {
    var was, now := y.groups[g].now, ApplyGC(y.groups[g].now, i, ids);
    ClearCommitBase(cfg, n, y, g, i, ids);
    assert MemberOk(cfg, n, g, y.groups[g]);
    forall s: nat | s < n ensures CopyOk(cfg, n, y, g, now, s) {
      assert Cleared(was, now, ids, s);
      ClearCopy(cfg, n, y, g, ids, now, s);
    }
    StepInv(cfg, n, y, g, now);
  }
}
