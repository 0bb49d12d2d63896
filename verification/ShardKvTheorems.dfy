/** What holds along every run of the sharded store. */
module ShardKvTheorems {
  import opened KvOps
  import opened ShardConfig
  import opened ShardKvGroup
  import opened ShardKvSystem
  import opened ShardKvInvariant
  import opened ShardKvSteps
  import opened ShardKvMoves

  // ---------- The invariant along a run ----------

  lemma InitialInv(cfg: seq<Config>, n: nat, ys: seq<System>, es: seq<Event>)
    requires IsRun(cfg, n, ys, es)
    ensures Base(cfg, n, ys[0]) && (Handed(cfg, n) ==> Inv(cfg, n, ys[0]))
  {
    var y := ys[0];
    forall g | g in y.groups ensures MemberOk(cfg, n, g, y.groups[g]) {
      assert forall s :: 0 <= s < n ==> ShardOk(cfg, n, g, 0, Empty, s);
    }
    assert forall i, s: nat, g, h :: Moves(cfg, n, i, s, g, h) ==> cfg[i - 1].shards[s] == g && cfg[i].shards[s] == h;
  }

  lemma ProposingBase(cfg: seq<Config>, n: nat, y: System, e: Event)
    requires Base(cfg, n, y) && Enabled(cfg, n, y, e) && (e.Fetch? || e.Pull? || e.AskDelete? || e.Finish?)
    ensures Base(cfg, n, Apply(cfg, n, y, e))
  {
    match e
    case Fetch(g, seen) => FetchBase(cfg, n, y, g, seen);
    case Pull(h, seen, g, read) => PullBase(cfg, n, y, h, seen, g, read);
    case AskDelete(h, seen, g) =>
      assert Enabled(cfg, n, y, Finish(h, seen, g));
      ClearBase(cfg, n, y, h, seen, g, g);
    case Finish(h, seen, g) => ClearBase(cfg, n, y, h, seen, g, h);
  }

  lemma CommittingBase(cfg: seq<Config>, n: nat, y: System, e: Event)
    requires Base(cfg, n, y) && Enabled(cfg, n, y, e)
          && (e.Client? || e.CommitConfig? || e.CommitMigration? || e.CommitClear?)
    ensures Base(cfg, n, Apply(cfg, n, y, e))
  {
    SizeOfNow(cfg, n, y, e.g);
    match e
    case Client(g, op) => ClientBase(cfg, n, y, g, op);
    case CommitConfig(g, cmd) => ConfigBase(cfg, n, y, g, cmd.num);
    case CommitMigration(g, cmd, order) =>
      if cmd.reply.num == Num(y, g) {
        MigrationBase(cfg, n, y, g, cmd.reply, order);
      } else {
        StepNothing(cfg, n, y, g);
      }
    case CommitClear(g, cmd) =>
      if cmd.num == Num(y, g) {
        ClearCommitBase(cfg, n, y, g, cmd.num, cmd.ids);
      } else {
        StepNothing(cfg, n, y, g);
      }
  }

  lemma ApplyBase(cfg: seq<Config>, n: nat, y: System, e: Event)
    requires Base(cfg, n, y) && Enabled(cfg, n, y, e)
    ensures Base(cfg, n, Apply(cfg, n, y, e))
  {
    if e.Fetch? || e.Pull? || e.AskDelete? || e.Finish? {
      ProposingBase(cfg, n, y, e);
    } else {
      CommittingBase(cfg, n, y, e);
    }
  }

  /** A proposal that carries no contents. */
  lemma QuietInv(cfg: seq<Config>, n: nat, y: System, g: int, c: Proposal)
    requires Inv(cfg, n, y) && g in y.groups && Base(cfg, n, Propose(y, g, c)) && !c.Migration?
    ensures Inv(cfg, n, Propose(y, g, c))
  {
    ProposeInv(cfg, n, y, g, c);
  }

  lemma FetchingInv(cfg: seq<Config>, n: nat, y: System, e: Event)
    requires Inv(cfg, n, y) && Enabled(cfg, n, y, e) && e.Fetch? && Base(cfg, n, Apply(cfg, n, y, e))
    ensures Inv(cfg, n, Apply(cfg, n, y, e))
  {
    QuietInv(cfg, n, y, e.g, NewConfig(e.seen.config.num + 1));
  }

  lemma FinishingInv(cfg: seq<Config>, n: nat, y: System, e: Event)
    requires Inv(cfg, n, y) && Enabled(cfg, n, y, e) && (e.AskDelete? || e.Finish?) && Base(cfg, n, Apply(cfg, n, y, e))
    ensures Inv(cfg, n, Apply(cfg, n, y, e))
  {
    QuietInv(cfg, n, y, if e.AskDelete? then e.g else e.h, Clear(e.seen.config.num, ByStatus(e.seen, GC, e.g, n)));
  }

  lemma PullingInv(cfg: seq<Config>, n: nat, y: System, e: Event)
    requires Inv(cfg, n, y) && Enabled(cfg, n, y, e) && e.Pull?
    ensures Inv(cfg, n, Apply(cfg, n, y, e))
  {
    PullInv(cfg, n, y, e.h, e.seen, e.g, e.read);
  }

  lemma CommittingInv(cfg: seq<Config>, n: nat, y: System, e: Event)
    requires Inv(cfg, n, y) && Enabled(cfg, n, y, e)
          && (e.Client? || e.CommitConfig? || e.CommitMigration? || e.CommitClear?)
    ensures Inv(cfg, n, Apply(cfg, n, y, e))
  {
    match e
    case Client(g, op) => ClientInv(cfg, n, y, g, op);
    case CommitConfig(g, cmd) => ConfigInv(cfg, n, y, g, cmd.num);
    case CommitMigration(g, cmd, order) => CommitMigrationInv(cfg, n, y, g, cmd.reply, order);
    case CommitClear(g, cmd) => CommitClearInv(cfg, n, y, g, cmd.num, cmd.ids);
  }

  lemma ApplyInv(cfg: seq<Config>, n: nat, y: System, e: Event)
    requires Inv(cfg, n, y) && Enabled(cfg, n, y, e)
    ensures Inv(cfg, n, Apply(cfg, n, y, e))
  {
    ApplyBase(cfg, n, y, e);
    if e.Pull? {
      PullingInv(cfg, n, y, e);
    } else if e.Fetch? {
      FetchingInv(cfg, n, y, e);
    } else if e.AskDelete? || e.Finish? {
      FinishingInv(cfg, n, y, e);
    } else {
      CommittingInv(cfg, n, y, e);
    }
  }

  lemma CommitMigrationInv(cfg: seq<Config>, n: nat, y: System, g: int, m: ShardData, order: seq<nat>)
    requires Inv(cfg, n, y) && g in y.groups && Migration(m) in y.groups[g].pool
    requires Enumerates(order, m.data.Keys) && Shards(order, |y.groups[g].now.shards|)
    ensures Inv(cfg, n, Step(y, g, ApplyMigration(y.groups[g].now, m, order)))
  {
    SizeOfNow(cfg, n, y, g);
    if m.num == Num(y, g) {
      MigrationInv(cfg, n, y, g, m, order);
    } else {
      StepNothing(cfg, n, y, g);
    }
  }

  lemma CommitClearInv(cfg: seq<Config>, n: nat, y: System, g: int, i: int, ids: seq<nat>)
    requires Inv(cfg, n, y) && g in y.groups && Clear(i, ids) in y.groups[g].pool
          && Shards(ids, |y.groups[g].now.shards|)
    ensures Inv(cfg, n, Step(y, g, ApplyGC(y.groups[g].now, i, ids)))
  {
    SizeOfNow(cfg, n, y, g);
    if i == Num(y, g) {
      ClearCommitInv(cfg, n, y, g, i, ids);
    } else {
      StepNothing(cfg, n, y, g);
    }
  }

  lemma SizeOfNow(cfg: seq<Config>, n: nat, y: System, g: int)
    requires Numbered(cfg, n) && HistoryOk(cfg, n, y) && g in y.groups
    ensures Sane(cfg, n, g, y.groups[g].now) && Shaped(y.groups[g].now, n)
  {
    assert MemberOk(cfg, n, g, y.groups[g]);
  }

  lemma {:induction false} BaseAlong(cfg: seq<Config>, n: nat, ys: seq<System>, es: seq<Event>, k: nat)
    requires IsRun(cfg, n, ys, es) && k < |ys|
    ensures Base(cfg, n, ys[k])
  {
    if k == 0 {
      InitialInv(cfg, n, ys, es);
    } else {
      BaseAlong(cfg, n, ys, es, k - 1);
      ApplyBase(cfg, n, ys[k - 1], es[k - 1]);
    }
  }

  lemma {:induction false} InvAlong(cfg: seq<Config>, n: nat, ys: seq<System>, es: seq<Event>, k: nat)
    requires IsRun(cfg, n, ys, es) && Handed(cfg, n) && k < |ys|
    ensures Inv(cfg, n, ys[k])
  {
    if k == 0 {
      InitialInv(cfg, n, ys, es);
    } else {
      InvAlong(cfg, n, ys, es, k - 1);
      ApplyInv(cfg, n, ys[k - 1], es[k - 1]);
    }
  }

  // ---------- Theorems ----------

  /** At no time do two groups serve a shard. */
  lemma OneServer(cfg: seq<Config>, n: nat, ys: seq<System>, es: seq<Event>, k: nat, g: int, h: int, s: nat)
    requires IsRun(cfg, n, ys, es) && Handed(cfg, n) && k < |ys|
    requires Serving(ys[k], g, s) && Serving(ys[k], h, s)
    ensures g == h
  {
    InvAlong(cfg, n, ys, es, k);
    ServerKeeps(cfg, n, ys[k], g, s);
    ServerKeeps(cfg, n, ys[k], h, s);
    OneKeeper(cfg, n, ys[k], g, h, s);
  }

  /** A group serves the shards that its configuration assigns to it, but for those that it still waits for. */
  lemma ServesUnlessWaiting(cfg: seq<Config>, n: nat, ys: seq<System>, es: seq<Event>, k: nat, g: int, s: nat)
    requires IsRun(cfg, n, ys, es) && k < |ys| && g in ys[k].groups && s < n
    ensures 0 <= Num(ys[k], g) < |cfg| && s < |ys[k].groups[g].now.shards|
    ensures Serving(ys[k], g, s) <==>
              cfg[Num(ys[k], g)].shards[s] == g && ys[k].groups[g].now.shards[s].status != MoveIn
  {
    BaseAlong(cfg, n, ys, es, k);
    SizeOfNow(cfg, n, ys[k], g);
    assert ShardOk(cfg, n, g, Num(ys[k], g), ys[k].groups[g].now.shards[s], s);
  }

  /** A shard that a group takes in has, at that moment, the contents frozen at the group it comes from. */
  lemma TakenInIsFrozen(cfg: seq<Config>, n: nat, ys: seq<System>, es: seq<Event>, k: nat, s: nat)
    requires IsRun(cfg, n, ys, es) && Handed(cfg, n) && k < |es| && es[k].CommitMigration?
    requires var h := es[k].g; s < |ys[k].groups[h].now.shards| && ys[k].groups[h].now.shards[s].status == MoveIn
    requires s in es[k].cmd.reply.data && es[k].cmd.reply.num == Num(ys[k], es[k].g)
    ensures var h, i := es[k].g, Num(ys[k], es[k].g);
            && 0 < i < |cfg| && s < n && cfg[i - 1].shards[s] in ys[k].groups
            && var frozen := ys[k].groups[cfg[i - 1].shards[s]].now;
               && frozen.config.num == i && s < |frozen.shards| && frozen.shards[s].status == MoveOut
               && h in ys[k + 1].groups && s < |ys[k + 1].groups[h].now.shards|
               && ys[k + 1].groups[h].now.shards[s] == Shard(frozen.shards[s].kv, GC) && Serving(ys[k + 1], h, s)
  {
    var y, h, m := ys[k], es[k].g, es[k].cmd.reply;
    InvAlong(cfg, n, ys, es, k);
    SizeOfNow(cfg, n, y, h);
    assert Awaits(y, h, m, s);
    var g := AwaitedIsFrozen(cfg, n, y, h, m, s);
    SizeOfNow(cfg, n, y, g);
    assert y.groups[g].now in y.groups[g].past by {
      assert MemberOk(cfg, n, g, y.groups[g]);
    }
    assert Good(y.groups[g].now.shards[s].kv, y.groups[g].now.dup, y.effects, s, n);
    MigrationEffect(cfg, n, y, h, m, es[k].order, s);
    assert TakenIn(y.groups[h].now, ys[k + 1].groups[h].now, m, s);
    AwaitsEmpty(cfg, n, y, h, m, s);
  }

  /** One shard's contents agree with the whole store. */
  lemma {:induction false} ContentsOfReplay(effects: seq<Effect>, n: nat, s: nat, key: string)
    requires n > 0
    ensures key in Contents(effects, s, n) <==> key in Replay(effects) && ShardOf(key, n) == s
    ensures key in Contents(effects, s, n) ==> Contents(effects, s, n)[key] == Replay(effects)[key]
  {
    if effects != [] {
      ContentsOfReplay(effects[..|effects| - 1], n, s, key);
    }
  }

  /** A group moves to the next configuration only when none of its shards is on the move. */
  lemma ConfigOnlyWhenNormal(cfg: seq<Config>, n: nat, ys: seq<System>, es: seq<Event>, k: nat, g: int)
    requires IsRun(cfg, n, ys, es) && k < |es| && g in ys[k].groups
    ensures g in ys[k + 1].groups
    ensures ys[k + 1].groups[g].now.config != ys[k].groups[g].now.config ==>
              && AllNormal(ys[k].groups[g].now) && Num(ys[k], g) + 1 < |cfg|
              && ys[k + 1].groups[g].now.config == cfg[Num(ys[k], g) + 1]
  {
    ConfigStays(cfg, n, ys[k], es[k], g);
    if es[k].CommitConfig? && es[k].g == g {
      BaseAlong(cfg, n, ys, es, k);
      SizeOfNow(cfg, n, ys[k], g);
      assert ProposalOk(cfg, n, ys[k], g, es[k].cmd);
    }
  }

  lemma ConfigStays(cfg: seq<Config>, n: nat, y: System, e: Event, g: int)
    requires Enabled(cfg, n, y, e) && g in y.groups
    ensures var z := Apply(cfg, n, y, e);
            g in z.groups && (!(e.CommitConfig? && e.g == g) ==> z.groups[g].now.config == y.groups[g].now.config)
  {
  }

  /**
   A group lets go of a shard only after the next owner has taken it in, and that only after the group has stopped.
   */
  lemma Lockstep(cfg: seq<Config>, n: nat, ys: seq<System>, es: seq<Event>, k: nat, i: int, s: nat, g: int, h: int)
    requires IsRun(cfg, n, ys, es) && k < |ys| && Moves(cfg, n, i, s, g, h)
    ensures Released(ys[k], g, i, s) ==> Absorbed(ys[k], h, i, s)
    ensures Absorbed(ys[k], h, i, s) ==> g in ys[k].groups && Num(ys[k], g) >= i
    ensures g in ys[k].groups && Num(ys[k], g) > i ==> Absorbed(ys[k], h, i, s)
  {
    BaseAlong(cfg, n, ys, es, k);
    if g in ys[k].groups {
      SizeOfNow(cfg, n, ys[k], g);
    }
  }

  /** The order in which a replica visits the shards of a migration does not matter. */
  lemma OrderDoesNotMatter(cfg: seq<Config>, n: nat, ys: seq<System>, es: seq<Event>, k: nat,
                           g: int, m: ShardData, order: seq<nat>, other: seq<nat>)
    requires IsRun(cfg, n, ys, es) && k < |ys| && g in ys[k].groups && Migration(m) in ys[k].groups[g].pool
    requires Enumerates(order, m.data.Keys) && Shards(order, |ys[k].groups[g].now.shards|)
    requires Enumerates(other, m.data.Keys) && Shards(other, |ys[k].groups[g].now.shards|)
    ensures ApplyMigration(ys[k].groups[g].now, m, order) == ApplyMigration(ys[k].groups[g].now, m, other)
  {
    var y := ys[k];
    BaseAlong(cfg, n, ys, es, k);
    SizeOfNow(cfg, n, y, g);
    if m.num == Num(y, g) {
      var was, a, b := y.groups[g].now, ApplyMigration(y.groups[g].now, m, order), ApplyMigration(y.groups[g].now, m,
            other);
      MigrationEffect(cfg, n, y, g, m, order, 0);
      MigrationEffect(cfg, n, y, g, m, other, 0);
      forall s: nat | s < n ensures a.shards[s] == b.shards[s] {
        MigrationEffect(cfg, n, y, g, m, order, s);
        MigrationEffect(cfg, n, y, g, m, other, s);
      }
      assert a.shards == b.shards;
    }
  }

  /** The shards that one command names share one status whenever the command applies. */
  lemma NamedShareStatus(cfg: seq<Config>, n: nat, ys: seq<System>, es: seq<Event>, k: nat, g: int, c: Proposal,
                         s: nat, t: nat)
    requires IsRun(cfg, n, ys, es) && k < |ys| && g in ys[k].groups && c in ys[k].groups[g].pool
    requires (c.Migration? && c.reply.num == Num(ys[k], g) && s in c.reply.data && t in c.reply.data)
             || (c.Clear? && c.num == Num(ys[k], g) && s in c.ids && t in c.ids)
    ensures s < |ys[k].groups[g].now.shards| && t < |ys[k].groups[g].now.shards|
    ensures ys[k].groups[g].now.shards[s].status == ys[k].groups[g].now.shards[t].status
  {
    BaseAlong(cfg, n, ys, es, k);
    SizeOfNow(cfg, n, ys[k], g);
    assert ProposalOk(cfg, n, ys[k], g, c);
    assert SameMove(cfg, n, Num(ys[k], g), s, t);
  }

  // ---------- Where the configurations come from ----------

  /** The controller hands shards over directly as long as it never runs out of groups. */
  lemma ControllerHandsOver(configs: seq<Config>, ops: seq<Command>)
    requires IsHistory(configs, ops)
    requires forall i, j :: 0 <= i < j < |configs| && configs[i].groups != map[] ==> configs[j].groups != map[]
    ensures Handed(configs, |configs[0].shards|)
  {
    var n := |configs[0].shards|;
    forall i | 0 <= i < |configs| ensures Valid(configs[i]) && configs[i].num == i && |configs[i].shards| == n {
      HistoryValid(configs, ops, i);
    }
    forall i, s | 0 < i < |configs| && 0 <= s < n && Changes(configs, i, s) ensures configs[i - 1].shards[s] != 0 {
      KeptHasGroups(configs, n, i - 1, s);
    }
  }

  lemma {:induction false} KeptHasGroups(configs: seq<Config>, n: nat, i: nat, s: nat)
    requires Numbered(configs, n) && i < |configs| && s < n && Keeper(configs, i, s) != 0
    requires forall j :: 0 <= j < |configs| ==> Valid(configs[j])
    requires forall j, k :: 0 <= j < k < |configs| && configs[j].groups != map[] ==> configs[k].groups != map[]
    ensures configs[i].groups != map[] && configs[i].shards[s] != 0
  {
    if configs[i].shards[s] == 0 && i > 0 {
      KeptHasGroups(configs, n, i - 1, s);
    }
  }
}
