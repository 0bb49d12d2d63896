/**
 When the groups can come to rest.  With leaders that act on the present state they can exactly if no group has been
 left behind; with leaders that lag they always can.
 */
module ShardKvRest {
  import opened Sets
  import opened KvOps
  import opened ShardConfig
  import opened ShardKvGroup
  import opened ShardKvSystem
  import opened ShardKvInvariant
  import opened ShardKvSteps
  import opened ShardKvMoves
  import opened ShardKvTheorems
  import opened ShardKvProgress

  // ---------- Left behind for good ----------

  /** A proposal that does not ask for the shard leaves it where it is. */
  lemma StaysOnPropose(y: System, at: int, c: Proposal, g: int, s: nat)
    requires Abandoned(y, g, s) && at in y.groups
    requires at == g && c.Clear? && c.num == Num(y, g) ==> s !in c.ids
    ensures Abandoned(Propose(y, at, c), g, s)
  {
    assert !Asked(Propose(y, at, c), g, Num(y, g), s);
  }

  /** Leaders that are up to date do not ask for it. */
  lemma NobodyAsks(cfg: seq<Config>, n: nat, y: System, h: int, a: int, at: int, g: int, s: nat)
    requires Base(cfg, n, y) && Abandoned(y, g, s) && h in y.groups && a in y.groups && (at == h || at == a) && a != 0
    requires Shaped(y.groups[h].now, n) && ByStatus(y.groups[h].now, GC, a, n) != []
    ensures Abandoned(Propose(y, at, Clear(Num(y, h), ByStatus(y.groups[h].now, GC, a, n))), g, s)
  {
    var ids := ByStatus(y.groups[h].now, GC, a, n);
    SizeOfNow(cfg, n, y, g);
    StatusOk(cfg, n, y, g, s);
    StatusOk(cfg, n, y, h, s);
    StaysOnPropose(y, at, Clear(Num(y, h), ids), g, s);
  }

  lemma StaysOnProposing(cfg: seq<Config>, n: nat, y: System, e: Event, g: int, s: nat)
    requires Base(cfg, n, y) && Enabled(cfg, n, y, e) && UpToDate(y, e) && Abandoned(y, g, s)
    requires e.Fetch? || e.Pull? || e.AskDelete? || e.Finish?
    ensures Abandoned(Apply(cfg, n, y, e), g, s)
  {
    match e
    case Fetch(a, seen) => StaysOnPropose(y, a, NewConfig(seen.config.num + 1), g, s);
    case Pull(h, seen, a, read) =>
      var answer := GetShardsData(read, seen.config.num, ByStatus(seen, MoveIn, a, n));
      if answer.Data? {
        StaysOnPropose(y, h, Migration(answer.reply), g, s);
      }
    case AskDelete(h, seen, a) => NobodyAsks(cfg, n, y, h, a, a, g, s);
    case Finish(h, seen, a) => NobodyAsks(cfg, n, y, h, a, h, g, s);
  }

  /** A step of group a that is not the deletion that group g waits for. */
  lemma StaysOnStep(cfg: seq<Config>, n: nat, y: System, z: System, a: int, g: int, s: nat)
    requires Base(cfg, n, y) && Base(cfg, n, z) && Abandoned(y, g, s) && a in y.groups
    requires a in z.groups && z.groups == Step(y, a, z.groups[a].now).groups
    requires a == g ==> z.groups[a].now.config == y.groups[a].now.config && HasStatus(z, g, s, MoveOut)
    requires HasStatus(z, a, s, GC) && Num(z, a) == Num(y, g) == Num(y, a) ==> HasStatus(y, a, s, GC)
    ensures Abandoned(z, g, s)
  {
    SizeOfNow(cfg, n, y, g);
    StatusOk(cfg, n, y, g, s);
    var k, h := Num(y, g), y.groups[g].now.config.shards[s];
    assert h != g && !Asked(z, g, k, s);
    SizeOfNow(cfg, n, y, h);
    SizeOfNow(cfg, n, z, h);
    assert Later(y.groups[h].now, z.groups[h].now) by {
      assert MemberOk(cfg, n, h, y.groups[h]) && MemberOk(cfg, n, h, z.groups[h]);
    }
  }

  lemma StaysOnConfig(cfg: seq<Config>, n: nat, y: System, a: int, k: int, g: int, s: nat)
    requires Base(cfg, n, y) && Abandoned(y, g, s) && a in y.groups && NewConfig(k) in y.groups[a].pool
    requires 0 <= k < |cfg| && Shaped(y.groups[a].now, n)
          && Base(cfg, n, Step(y, a, ApplyConfig(y.groups[a].now, cfg[k])))
    ensures Abandoned(Step(y, a, ApplyConfig(y.groups[a].now, cfg[k])), g, s)
  {
    assert ProposalOk(cfg, n, y, a, NewConfig(k));
    StaysOnStep(cfg, n, y, Step(y, a, ApplyConfig(y.groups[a].now, cfg[k])), a, g, s);
  }

  lemma StaysOnMigration(cfg: seq<Config>, n: nat, y: System, a: int, m: ShardData, now: Group, g: int, s: nat)
    requires Base(cfg, n, y) && Abandoned(y, g, s) && a in y.groups && Base(cfg, n, Step(y, a, now))
    requires now.config == y.groups[a].now.config && TakenIn(y.groups[a].now, now, m, s)
    ensures Abandoned(Step(y, a, now), g, s)
  {
    SizeOfNow(cfg, n, y, g);
    StatusOk(cfg, n, y, g, s);
    StatusOk(cfg, n, y, a, s);
    StaysOnStep(cfg, n, y, Step(y, a, now), a, g, s);
  }

  lemma StaysOnClear(cfg: seq<Config>, n: nat, y: System, a: int, ids: seq<nat>, now: Group, g: int, s: nat)
    requires Base(cfg, n, y) && Abandoned(y, g, s) && a in y.groups && Base(cfg, n, Step(y, a, now))
    requires Clear(Num(y, a), ids) in y.groups[a].pool
    requires now.config == y.groups[a].now.config && Cleared(y.groups[a].now, now, ids, s)
    ensures Abandoned(Step(y, a, now), g, s)
  {
    StaysOnStep(cfg, n, y, Step(y, a, now), a, g, s);
  }

  lemma StaysOnTaking(cfg: seq<Config>, n: nat, y: System, a: int, m: ShardData, order: seq<nat>, g: int, s: nat)
    requires Base(cfg, n, y) && Abandoned(y, g, s) && Migrating(n, y, a, m, order)
    requires Base(cfg, n, Step(y, a, ApplyMigration(y.groups[a].now, m, order)))
    ensures Abandoned(Step(y, a, ApplyMigration(y.groups[a].now, m, order)), g, s)
  {
    SizeOfNow(cfg, n, y, g);
    MigrationEffect(cfg, n, y, a, m, order, s);
    StaysOnMigration(cfg, n, y, a, m, ApplyMigration(y.groups[a].now, m, order), g, s);
  }

  lemma StaysOnSettling(cfg: seq<Config>, n: nat, y: System, e: Event, g: int, s: nat)
    requires Base(cfg, n, y) && Enabled(cfg, n, y, e) && Abandoned(y, g, s) && Base(cfg, n, Apply(cfg, n, y, e))
          && e.CommitClear?
    ensures Abandoned(Apply(cfg, n, y, e), g, s)
  {
    var a := e.g;
    SizeOfNow(cfg, n, y, a);
    SizeOfNow(cfg, n, y, g);
    if e.cmd.num == Num(y, a) {
      ClearEffect(cfg, n, y, a, e.cmd.num, e.cmd.ids, s);
      StaysOnClear(cfg, n, y, a, e.cmd.ids, ApplyGC(y.groups[a].now, e.cmd.num, e.cmd.ids), g, s);
    } else {
      StepNothing(cfg, n, y, a);
    }
  }

  lemma StaysOnClient(cfg: seq<Config>, n: nat, y: System, e: Event, g: int, s: nat)
    requires Base(cfg, n, y) && Enabled(cfg, n, y, e) && Abandoned(y, g, s) && Base(cfg, n, Apply(cfg, n, y, e))
          && e.Client?
    ensures Abandoned(Apply(cfg, n, y, e), g, s)
  {
    if TakesEffect(y.groups[e.g].now, e.op) {
      WriteIsSane(cfg, n, y, e.g, e.op);
      StaysOnStep(cfg, n, y, Apply(cfg, n, y, e), e.g, g, s);
    } else {
      ClientIdle(cfg, n, y, e.g, e.op);
    }
  }

  lemma StaysOnCommit(cfg: seq<Config>, n: nat, y: System, e: Event, g: int, s: nat)
    requires Base(cfg, n, y) && Enabled(cfg, n, y, e) && Abandoned(y, g, s) && Base(cfg, n, Apply(cfg, n, y, e))
    requires e.CommitConfig? || e.CommitMigration?
    ensures Abandoned(Apply(cfg, n, y, e), g, s)
  {
    SizeOfNow(cfg, n, y, e.g);
    match e
    case CommitConfig(a, cmd) => StaysOnConfig(cfg, n, y, a, cmd.num, g, s);
    case CommitMigration(a, cmd, order) =>
      if cmd.reply.num == Num(y, a) {
        StaysOnTaking(cfg, n, y, a, cmd.reply, order, g, s);
      } else {
        StepNothing(cfg, n, y, a);
      }
  }

  lemma StaysOnEvent(cfg: seq<Config>, n: nat, y: System, e: Event, g: int, s: nat)
    requires Base(cfg, n, y) && Enabled(cfg, n, y, e) && UpToDate(y, e) && Abandoned(y, g, s)
    ensures Abandoned(Apply(cfg, n, y, e), g, s)
  {
    ApplyBase(cfg, n, y, e);
    if e.Client? {
      StaysOnClient(cfg, n, y, e, g, s);
    } else if e.CommitConfig? || e.CommitMigration? {
      StaysOnCommit(cfg, n, y, e, g, s);
    } else if e.CommitClear? {
      StaysOnSettling(cfg, n, y, e, g, s);
    } else {
      StaysOnProposing(cfg, n, y, e, g, s);
    }
  }

  /** A shard that is left behind stays so as long as leaders are up to date. */
  lemma {:induction false} StaysAbandoned(cfg: seq<Config>, n: nat, ys: seq<System>, es: seq<Event>, zs: seq<System>,
                                          fs: seq<Event>,
                                          j: nat, g: int, s: nat)
    requires Promptly(cfg, n, ys, es, zs, fs) && Abandoned(ys[|es|], g, s) && |es| <= j <= |fs|
    ensures Abandoned(zs[j], g, s)
    decreases j
  {
    if j > |es| {
      StaysAbandoned(cfg, n, ys, es, zs, fs, j - 1, g, s);
      BaseAlong(cfg, n, zs, fs, j - 1);
      StaysOnEvent(cfg, n, zs[j - 1], fs[j - 1], g, s);
    }
  }

  // ---------- The theorem ----------

  /** With up-to-date leaders the groups can come to rest. */
  ghost predicate CanRest(cfg: seq<Config>, n: nat, ys: seq<System>, es: seq<Event>, i: int) {
    exists zs, fs :: Promptly(cfg, n, ys, es, zs, fs) && AtRest(cfg, zs[|fs|], i)
  }

  /** They can, at every configuration that no group has passed, exactly if no shard is left behind. */
  lemma CanRestIff(cfg: seq<Config>, n: nat, ys: seq<System>, es: seq<Event>, i: int)
    requires IsRun(cfg, n, ys, es) && 0 <= i < |cfg| && AllUpTo(ys[|es|], i)
    ensures CanRest(cfg, n, ys, es, i) <==> NoneAbandoned(ys[|es|])
  {
    if NoneAbandoned(ys[|es|]) {
      var zs, fs := Settle(cfg, n, ys, es, i);
    } else {
      var g, s: nat :| Abandoned(ys[|es|], g, s);
      forall zs, fs | Promptly(cfg, n, ys, es, zs, fs) ensures !AtRest(cfg, zs[|fs|], i) {
        StaysAbandoned(cfg, n, ys, es, zs, fs, |fs|, g, s);
      }
    }
  }

  // ---------- Leaders that lag ----------

  ghost predicate SawGc(y: System, h: int, k: int, s: nat) {
    h in y.groups && exists p {:trigger p in y.groups[h].past} ::
      p in y.groups[h].past && p.config.num == k && s < |p.shards| && p.shards[s].status == GC
  }

  /** A group that has taken a shard in has been in the state in which it asks for deletion. */
  ghost predicate GcSeen(cfg: seq<Config>, n: nat, y: System)
    requires Numbered(cfg, n)
  {
    forall k, s: nat, g, h {:trigger Moves(cfg, n, k, s, g, h)} :: Moves(cfg, n, k, s, g, h) && Absorbed(y, h, k, s) ==>
      SawGc(y, h, k, s)
  }

  /** Only group a acts, and the past stays. */
  ghost predicate Remembers(y: System, z: System, a: int) {
    && a in y.groups && y.groups.Keys == z.groups.Keys && z.groups[a].now in z.groups[a].past
    && forall h {:trigger y.groups[h]} {:trigger z.groups[h]} :: h in y.groups ==>
         y.groups[h].past <= z.groups[h].past && (h != a ==> z.groups[h].now == y.groups[h].now)
  }

  /** Whatever group a newly counts as taken in is in state GC. */
  lemma GcStep(cfg: seq<Config>, n: nat, y: System, z: System, a: int)
    requires Numbered(cfg, n) && GcSeen(cfg, n, y) && Remembers(y, z, a)
    requires forall k, s: nat, g {:trigger Moves(cfg, n, k, s, g, a)} ::
               Moves(cfg, n, k, s, g, a) && Absorbed(z, a, k, s) && !Absorbed(y, a, k, s) ==>
                     HasStatus(z, a, s, GC) && Num(z, a) == k
    ensures GcSeen(cfg, n, z)
  {
    forall k, s: nat, g, h | Moves(cfg, n, k, s, g, h) && Absorbed(z, h, k, s) ensures SawGc(z, h, k, s) {
      if Absorbed(y, h, k, s) {
        assert SawGc(y, h, k, s);
        var p :| p in y.groups[h].past && p.config.num == k && s < |p.shards| && p.shards[s].status == GC;
        assert p in z.groups[h].past;
      } else {
        assert h == a;
        assert z.groups[h].now in z.groups[h].past;
      }
    }
  }

  lemma GcOnConfig(cfg: seq<Config>, n: nat, y: System, a: int, k: int)
    requires Base(cfg, n, y) && GcSeen(cfg, n, y) && a in y.groups && NewConfig(k) in y.groups[a].pool
    requires 0 <= k < |cfg| && Shaped(y.groups[a].now, n)
    ensures GcSeen(cfg, n, Step(y, a, ApplyConfig(y.groups[a].now, cfg[k])))
  {
    var was := y.groups[a].now;
    var z := Step(y, a, ApplyConfig(was, cfg[k]));
    SizeOfNow(cfg, n, y, a);
    assert ProposalOk(cfg, n, y, a, NewConfig(k));
    forall j, s: nat, g | Moves(cfg, n, j, s, g, a) && Absorbed(z, a, j, s) ensures Absorbed(y, a, j, s) {
      if j == k == Num(y, a) + 1 {
        ConfigStatus(cfg, n, a, was, s, g, a);
      }
    }
    GcStep(cfg, n, y, z, a);
  }

  lemma GcOnMigration(cfg: seq<Config>, n: nat, y: System, a: int, m: ShardData, order: seq<nat>)
    requires Base(cfg, n, y) && GcSeen(cfg, n, y) && Migrating(n, y, a, m, order)
    ensures GcSeen(cfg, n, Step(y, a, ApplyMigration(y.groups[a].now, m, order)))
  {
    var now := ApplyMigration(y.groups[a].now, m, order);
    var z := Step(y, a, now);
    forall k, s: nat, g | Moves(cfg, n, k, s, g, a) && Absorbed(z, a, k, s) && !Absorbed(y, a, k, s)
      ensures HasStatus(z, a, s, GC) && Num(z, a) == k
    {
      MigrationEffect(cfg, n, y, a, m, order, s);
      assert TakenIn(y.groups[a].now, now, m, s);
    }
    GcStep(cfg, n, y, z, a);
  }

  lemma GcOnClear(cfg: seq<Config>, n: nat, y: System, a: int, i: int, ids: seq<nat>)
    requires Base(cfg, n, y) && GcSeen(cfg, n, y) && Clearing(n, y, a, i, ids)
    ensures GcSeen(cfg, n, Step(y, a, ApplyGC(y.groups[a].now, i, ids)))
  {
    var now := ApplyGC(y.groups[a].now, i, ids);
    var z := Step(y, a, now);
    forall k, s: nat, g | Moves(cfg, n, k, s, g, a) && Absorbed(z, a, k, s) ensures Absorbed(y, a, k, s) {
      ClearEffect(cfg, n, y, a, i, ids, s);
      assert Cleared(y.groups[a].now, now, ids, s);
    }
    GcStep(cfg, n, y, z, a);
  }

  /** A step that changes no status. */
  lemma GcOnQuiet(cfg: seq<Config>, n: nat, y: System, z: System, a: int)
    requires Base(cfg, n, y) && GcSeen(cfg, n, y) && Remembers(y, z, a) && SameStatus(y.groups[a].now, z.groups[a].now)
    ensures GcSeen(cfg, n, z)
  {
    GcStep(cfg, n, y, z, a);
  }

  lemma GcOnPropose(cfg: seq<Config>, n: nat, y: System, at: int, c: Proposal)
    requires Numbered(cfg, n) && GcSeen(cfg, n, y) && at in y.groups && y.groups[at].now in y.groups[at].past
    ensures GcSeen(cfg, n, Propose(y, at, c))
  {
    GcStep(cfg, n, y, Propose(y, at, c), at);
  }

  lemma GcOnPull(cfg: seq<Config>, n: nat, y: System, h: int, seen: Group, g: int, read: Group)
    requires Numbered(cfg, n) && GcSeen(cfg, n, y) && Enabled(cfg, n, y, Pull(h, seen, g, read))
    requires y.groups[h].now in y.groups[h].past
    ensures GcSeen(cfg, n, OnPull(y, h, seen, g, read))
  {
    var answer := GetShardsData(read, seen.config.num, ByStatus(seen, MoveIn, g, n));
    if answer.Data? {
      GcOnPropose(cfg, n, y, h, Migration(answer.reply));
    }
  }

  lemma GcOnProposing(cfg: seq<Config>, n: nat, y: System, e: Event)
    requires Base(cfg, n, y) && GcSeen(cfg, n, y) && Enabled(cfg, n, y, e)
    requires e.Fetch? || e.Pull? || e.AskDelete? || e.Finish?
    ensures GcSeen(cfg, n, Apply(cfg, n, y, e))
  {
    StatusOk(cfg, n, y, e.g, 0);
    if e.Fetch? {
      GcOnPropose(cfg, n, y, e.g, NewConfig(e.seen.config.num + 1));
    } else {
      StatusOk(cfg, n, y, e.h, 0);
      if e.Pull? {
        GcOnPull(cfg, n, y, e.h, e.seen, e.g, e.read);
      } else {
        var c := Clear(e.seen.config.num, ByStatus(e.seen, GC, e.g, n));
        GcOnPropose(cfg, n, y, if e.AskDelete? then e.g else e.h, c);
      }
    }
  }

  lemma GcOnClient(cfg: seq<Config>, n: nat, y: System, g: int, op: Op)
    requires Base(cfg, n, y) && GcSeen(cfg, n, y) && g in y.groups && Shaped(y.groups[g].now, n)
    ensures GcSeen(cfg, n, OnClient(y, g, op))
  {
    if TakesEffect(y.groups[g].now, op) {
      WriteIsSane(cfg, n, y, g, op);
      GcOnQuiet(cfg, n, y, OnClient(y, g, op), g);
    } else {
      ClientIdle(cfg, n, y, g, op);
    }
  }

  lemma GcOnCommit(cfg: seq<Config>, n: nat, y: System, e: Event)
    requires Base(cfg, n, y) && GcSeen(cfg, n, y) && Enabled(cfg, n, y, e)
    requires e.CommitConfig? || e.CommitMigration? || e.CommitClear?
    ensures GcSeen(cfg, n, Apply(cfg, n, y, e))
  {
    var a := e.g;
    SizeOfNow(cfg, n, y, a);
    match e
    case CommitConfig(_, cmd) => GcOnConfig(cfg, n, y, a, cmd.num);
    case CommitMigration(_, cmd, order) =>
      if cmd.reply.num == Num(y, a) {
        GcOnMigration(cfg, n, y, a, cmd.reply, order);
      } else {
        StepNothing(cfg, n, y, a);
      }
    case CommitClear(_, cmd) =>
      if cmd.num == Num(y, a) {
        GcOnClear(cfg, n, y, a, cmd.num, cmd.ids);
      } else {
        StepNothing(cfg, n, y, a);
      }
  }

  lemma {:induction false} GcSeenAlong(cfg: seq<Config>, n: nat, ys: seq<System>, es: seq<Event>, k: nat)
    requires IsRun(cfg, n, ys, es) && k < |ys|
    ensures GcSeen(cfg, n, ys[k])
  {
    if k > 0 {
      var y, e := ys[k - 1], es[k - 1];
      BaseAlong(cfg, n, ys, es, k - 1);
      GcSeenAlong(cfg, n, ys, es, k - 1);
      if e.Client? {
        GcOnClient(cfg, n, y, e.g, e.op);
      } else if e.CommitConfig? || e.CommitMigration? || e.CommitClear? {
        GcOnCommit(cfg, n, y, e);
      } else {
        GcOnProposing(cfg, n, y, e);
      }
    }
  }

  ghost function LeftBehind(y: System, n: nat): set<(int, nat)> {
    set g, s: nat | g in y.groups && s < n && Abandoned(y, g, s) :: (g, s)
  }

  /** A past state of the next owner in which it would ask for the deletion. */
  lemma LateState(cfg: seq<Config>, n: nat, y: System, g: int, s: nat) returns (h: int, p: Group)
    requires Base(cfg, n, y) && GcSeen(cfg, n, y) && Abandoned(y, g, s)
    ensures s < n && p.config.num == Num(y, g) && Enabled(cfg, n, y, AskDelete(h, p, g)) && s in ByStatus(p, GC, g, n)
  {
    SizeOfNow(cfg, n, y, g);
    StatusOk(cfg, n, y, g, s);
    var k := Num(y, g);
    h := y.groups[g].now.config.shards[s];
    assert Moves(cfg, n, k, s, g, h);
    assert SawGc(y, h, k, s);
    p :| p in y.groups[h].past && p.config.num == k && s < |p.shards| && p.shards[s].status == GC;
    assert MemberOk(cfg, n, h, y.groups[h]) && Sane(cfg, n, h, p);
    assert s in ByStatus(p, GC, g, n);
  }

  /** A leader that has not seen its group finish asks for the deletion after all. */
  lemma AskLate(cfg: seq<Config>, n: nat, ys: seq<System>, es: seq<Event>, g: int, s: nat)
    returns (zs: seq<System>, fs: seq<Event>)
    requires IsRun(cfg, n, ys, es) && Abandoned(ys[|es|], g, s)
    ensures Continues(cfg, n, ys, es, zs, fs) && LeftBehind(zs[|fs|], n) < LeftBehind(ys[|es|], n)
    ensures zs[|fs|].effects == ys[|es|].effects && zs[|fs|].groups.Keys == ys[|es|].groups.Keys
    ensures forall h :: h in ys[|es|].groups ==> zs[|fs|].groups[h].now == ys[|es|].groups[h].now
  {
    var y := ys[|es|];
    BaseAlong(cfg, n, ys, es, |es|);
    GcSeenAlong(cfg, n, ys, es, |es|);
    var h, p := LateState(cfg, n, y, g, s);
    FewerLeftBehind(y, n, g, Num(y, g), ByStatus(p, GC, g, n), s);
    zs, fs := RunGrows(cfg, n, ys, es, AskDelete(h, p, g));
    assert zs[|fs|] == Propose(y, g, Clear(Num(y, g), ByStatus(p, GC, g, n)));
  }

  lemma FewerLeftBehind(y: System, n: nat, g: int, k: int, ids: seq<nat>, s: nat)
    requires g in y.groups && Abandoned(y, g, s) && k == Num(y, g) && s in ids && s < n
    ensures LeftBehind(Propose(y, g, Clear(k, ids)), n) < LeftBehind(y, n)
  {
    var z := Propose(y, g, Clear(k, ids));
    assert Clear(k, ids) in z.groups[g].pool;
    assert Asked(z, g, k, s);
    forall pair | pair in LeftBehind(z, n) ensures pair in LeftBehind(y, n) {
      var a, t := pair.0, pair.1;
      assert !Asked(z, a, Num(z, a), t);
      assert !Asked(y, a, Num(y, a), t);
    }
    assert (g, s) in LeftBehind(y, n) && (g, s) !in LeftBehind(z, n);
  }

  lemma {:induction false} AskAll(cfg: seq<Config>, n: nat, ys: seq<System>, es: seq<Event>)
    returns (zs: seq<System>, fs: seq<Event>)
    requires IsRun(cfg, n, ys, es)
    ensures Continues(cfg, n, ys, es, zs, fs) && NoneAbandoned(zs[|fs|])
    ensures zs[|fs|].effects == ys[|es|].effects && zs[|fs|].groups.Keys == ys[|es|].groups.Keys
    ensures forall h :: h in ys[|es|].groups ==> zs[|fs|].groups[h].now == ys[|es|].groups[h].now
    decreases |LeftBehind(ys[|es|], n)|
  {
    zs, fs := ys, es;
    if g, s: nat :| Abandoned(ys[|es|], g, s) {
      zs, fs := AskLate(cfg, n, ys, es, g, s);
      ProperSubsetSize(LeftBehind(zs[|fs|], n), LeftBehind(ys[|es|], n));
      zs, fs := AskAll(cfg, n, zs, fs);
    }
  }

  lemma {:induction false} OnwardWritesNothing(cfg: seq<Config>, n: nat, ys: seq<System>, es: seq<Event>,
                                               zs: seq<System>, fs: seq<Event>, j: nat)
    requires Onward(cfg, n, ys, es, zs, fs) && |es| <= j <= |fs|
    ensures zs[j].effects == ys[|es|].effects
    decreases j
  {
    if j > |es| {
      OnwardWritesNothing(cfg, n, ys, es, zs, fs, j - 1);
      assert !fs[j - 1].Client? && zs[j] == Apply(cfg, n, zs[j - 1], fs[j - 1]);
    }
  }

  /**
   Whatever has happened, the groups can still come to rest at any configuration that no group has passed, without a
   write.
   */
  lemma NeverStuck(cfg: seq<Config>, n: nat, ys: seq<System>, es: seq<Event>, i: int)
    returns (zs: seq<System>, fs: seq<Event>)
    requires IsRun(cfg, n, ys, es) && 0 <= i < |cfg| && AllUpTo(ys[|es|], i)
    ensures Continues(cfg, n, ys, es, zs, fs) && AtRest(cfg, zs[|fs|], i) && zs[|fs|].effects == ys[|es|].effects
  {
    var xs, ds := AskAll(cfg, n, ys, es);
    assert AllUpTo(xs[|ds|], i);
    zs, fs := Settle(cfg, n, xs, ds, i);
    OnwardWritesNothing(cfg, n, xs, ds, zs, fs, |fs|);
  }
}
