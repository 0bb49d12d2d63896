/**
 When a shard is left behind.  A group is to finish a move only after the source has answered that it let go of the
 shard.  As long as that is so nothing is ever left behind; if a group finishes early, something can be.
 */
module ShardKvPatient {
  import opened Sets
  import opened KvOps
  import opened ShardConfig
  import opened ShardKvGroup
  import opened ShardKvSystem
  import opened ShardKvInvariant
  import opened ShardKvSteps
  import opened ShardKvMoves
  import opened ShardKvTheorems
  import opened ShardKvProgress

  /** The source has let go of every shard whose move is to be finished. */
  ghost predicate LetGo(n: nat, y: System, e: Event) {
    e.Finish? && Shaped(e.seen, n) ==>
      forall s :: s in ByStatus(e.seen, GC, e.g, n) ==> Released(y, e.g, e.seen.config.num, s)
  }

  ghost predicate Patient(n: nat, ys: seq<System>, es: seq<Event>) {
    |es| <= |ys| && forall j {:trigger es[j]} :: 0 <= j < |es| ==> LetGo(n, ys[j], es[j])
  }

  // ---------- The invariant ----------

  /** A group that is to finish a move, or has, was let go first. */
  ghost predicate FinishOk(cfg: seq<Config>, n: nat, y: System, k: int, s: nat, g: int, h: int)
    requires Numbered(cfg, n) && Moves(cfg, n, k, s, g, h)
  {
    Asked(y, h, k, s) || Finished(y, h, k, s) ==> Released(y, g, k, s)
  }

  ghost predicate AllFinishOk(cfg: seq<Config>, n: nat, y: System)
    requires Numbered(cfg, n)
  {
    forall k, s: nat, g, h {:trigger Moves(cfg, n, k, s, g, h)} :: Moves(cfg, n, k, s, g, h) ==>
          FinishOk(cfg, n, y, k, s, g, h)
  }

  lemma ReleasedStays(y: System, z: System, g: int, k: int, s: nat)
    requires Forward(y, z) && Released(y, g, k, s)
    ensures Released(z, g, k, s)
  {
    assert Later(y.groups[g].now, z.groups[g].now);
  }

  lemma ApplyForward(cfg: seq<Config>, n: nat, y: System, e: Event)
    requires Base(cfg, n, y) && Enabled(cfg, n, y, e) && Base(cfg, n, Apply(cfg, n, y, e))
    ensures Forward(y, Apply(cfg, n, y, e))
  {
    var z := Apply(cfg, n, y, e);
    forall g | g in y.groups
      ensures g in z.groups && |y.groups[g].now.shards| == |z.groups[g].now.shards|
            && Later(y.groups[g].now, z.groups[g].now)
    {
      PastStays(cfg, n, y, e, g);
      SizeOfNow(cfg, n, y, g);
      SizeOfNow(cfg, n, z, g);
      assert MemberOk(cfg, n, g, y.groups[g]) && MemberOk(cfg, n, g, z.groups[g]);
    }
  }

  lemma PastStays(cfg: seq<Config>, n: nat, y: System, e: Event, g: int)
    requires Enabled(cfg, n, y, e) && g in y.groups
    ensures var z := Apply(cfg, n, y, e); z.groups.Keys == y.groups.Keys && y.groups[g].past <= z.groups[g].past
  {
  }

  /** It is enough to look at what is newly asked and newly finished. */
  lemma FinishOnStep(cfg: seq<Config>, n: nat, y: System, z: System)
    requires Numbered(cfg, n) && AllFinishOk(cfg, n, y) && Forward(y, z)
    requires forall k, s: nat, g, h {:trigger Moves(cfg, n, k, s, g, h)} :: Moves(cfg, n, k, s, g, h) ==>
               (Asked(z, h, k, s) || Finished(z, h, k, s) ==>
                     Asked(y, h, k, s) || Finished(y, h, k, s) || Released(y, g, k, s))
    ensures AllFinishOk(cfg, n, z)
  {
    forall k, s: nat, g, h | Moves(cfg, n, k, s, g, h) ensures FinishOk(cfg, n, z, k, s, g, h) {
      assert FinishOk(cfg, n, y, k, s, g, h);
      if Released(y, g, k, s) {
        ReleasedStays(y, z, g, k, s);
      }
    }
  }

  /** No status changes, and nobody is asked to finish. */
  lemma FinishOnQuiet(cfg: seq<Config>, n: nat, y: System, z: System)
    requires Numbered(cfg, n) && AllFinishOk(cfg, n, y) && Forward(y, z)
    requires forall g {:trigger z.groups[g]} {:trigger y.groups[g]} :: g in y.groups ==>
          SameStatus(y.groups[g].now, z.groups[g].now)
    requires forall k, s: nat, g, h {:trigger Moves(cfg, n, k, s, g, h)} :: Moves(cfg, n, k, s, g, h) ==>
               (Asked(z, h, k, s) ==> Asked(y, h, k, s) || Released(y, g, k, s))
    ensures AllFinishOk(cfg, n, z)
  {
    forall k, s: nat, g, h | Moves(cfg, n, k, s, g, h) && Finished(z, h, k, s) ensures Finished(y, h, k, s) {
      assert SameStatus(y.groups[h].now, z.groups[h].now);
    }
    FinishOnStep(cfg, n, y, z);
  }

  /** A proposal: what it newly asks of a group that it finish has been let go. */
  lemma FinishOnPropose(cfg: seq<Config>, n: nat, y: System, at: int, c: Proposal)
    requires Numbered(cfg, n) && AllFinishOk(cfg, n, y) && at in y.groups && Forward(y, Propose(y, at, c))
    requires c.Clear? ==> forall s: nat, g {:trigger Moves(cfg, n, c.num, s, g, at)} ::
                            s in c.ids && Moves(cfg, n, c.num, s, g, at) ==> Released(y, g, c.num, s)
    ensures AllFinishOk(cfg, n, Propose(y, at, c))
  {
    var z := Propose(y, at, c);
    forall k, s: nat, g, h | Moves(cfg, n, k, s, g, h) && Asked(z, h, k, s)
      ensures Asked(y, h, k, s) || Released(y, g, k, s) {
      var ids :| Clear(k, ids) in z.groups[h].pool && s in ids;
      assert Clear(k, ids) in y.groups[h].pool || (h == at && c == Clear(k, ids));
    }
    FinishOnQuiet(cfg, n, y, z);
  }

  lemma FinishOnClearing(cfg: seq<Config>, n: nat, y: System, e: Event)
    requires Base(cfg, n, y) && AllFinishOk(cfg, n, y) && Enabled(cfg, n, y, e) && (e.AskDelete? || e.Finish?)
    requires Forward(y, Apply(cfg, n, y, e)) && LetGo(n, y, e)
    ensures AllFinishOk(cfg, n, Apply(cfg, n, y, e))
  {
    assert MemberOk(cfg, n, e.h, y.groups[e.h]) && Sane(cfg, n, e.h, e.seen);
    ByStatusIsOneMove(cfg, n, e.h, e.seen, GC, e.g);
    FinishOnPropose(cfg, n, y, if e.AskDelete? then e.g else e.h, Clear(e.seen.config.num, ByStatus(e.seen, GC, e.g,
          n)));
  }

  lemma FinishOnPull(cfg: seq<Config>, n: nat, y: System, h: int, seen: Group, g: int, read: Group)
    requires Numbered(cfg, n) && AllFinishOk(cfg, n, y) && Enabled(cfg, n, y, Pull(h, seen, g, read))
    requires Forward(y, OnPull(y, h, seen, g, read))
    ensures AllFinishOk(cfg, n, OnPull(y, h, seen, g, read))
  {
    var answer := GetShardsData(read, seen.config.num, ByStatus(seen, MoveIn, g, n));
    if answer.Data? {
      FinishOnPropose(cfg, n, y, h, Migration(answer.reply));
    }
  }

  lemma FinishOnClient(cfg: seq<Config>, n: nat, y: System, g: int, op: Op)
    requires Base(cfg, n, y) && AllFinishOk(cfg, n, y) && g in y.groups && Shaped(y.groups[g].now, n)
          && Forward(y, OnClient(y, g, op))
    ensures AllFinishOk(cfg, n, OnClient(y, g, op))
  {
    if TakesEffect(y.groups[g].now, op) {
      WriteIsSane(cfg, n, y, g, op);
      FinishOnQuiet(cfg, n, y, OnClient(y, g, op));
    } else {
      ClientIdle(cfg, n, y, g, op);
    }
  }

  lemma FinishOnConfig(cfg: seq<Config>, n: nat, y: System, a: int, k: int)
    requires Base(cfg, n, y) && AllFinishOk(cfg, n, y) && a in y.groups && NewConfig(k) in y.groups[a].pool
    requires 0 <= k < |cfg| && Shaped(y.groups[a].now, n)
          && Forward(y, Step(y, a, ApplyConfig(y.groups[a].now, cfg[k])))
    ensures AllFinishOk(cfg, n, Step(y, a, ApplyConfig(y.groups[a].now, cfg[k])))
  {
    var was := y.groups[a].now;
    var z := Step(y, a, ApplyConfig(was, cfg[k]));
    SizeOfNow(cfg, n, y, a);
    assert ProposalOk(cfg, n, y, a, NewConfig(k));
    forall j, s: nat, g, h | Moves(cfg, n, j, s, g, h) && Finished(z, h, j, s) ensures Finished(y, h, j, s) {
      if h == a && j == k == Num(y, a) + 1 {
        ConfigStatus(cfg, n, a, was, s, g, a);
      }
    }
    FinishOnStep(cfg, n, y, z);
  }

  lemma FinishOnMigration(cfg: seq<Config>, n: nat, y: System, a: int, m: ShardData, order: seq<nat>)
    requires Base(cfg, n, y) && AllFinishOk(cfg, n, y) && Migrating(n, y, a, m, order)
    requires Forward(y, Step(y, a, ApplyMigration(y.groups[a].now, m, order)))
    ensures AllFinishOk(cfg, n, Step(y, a, ApplyMigration(y.groups[a].now, m, order)))
  {
    var now := ApplyMigration(y.groups[a].now, m, order);
    var z := Step(y, a, now);
    forall k, s: nat, g, h | Moves(cfg, n, k, s, g, h) && Finished(z, h, k, s) ensures Finished(y, h, k, s) {
      if h == a {
        MigrationEffect(cfg, n, y, a, m, order, s);
        assert TakenIn(y.groups[a].now, now, m, s);
      }
    }
    FinishOnStep(cfg, n, y, z);
  }

  lemma FinishOnClear(cfg: seq<Config>, n: nat, y: System, a: int, i: int, ids: seq<nat>)
    requires Base(cfg, n, y) && AllFinishOk(cfg, n, y) && Clearing(n, y, a, i, ids)
    requires Forward(y, Step(y, a, ApplyGC(y.groups[a].now, i, ids)))
    ensures AllFinishOk(cfg, n, Step(y, a, ApplyGC(y.groups[a].now, i, ids)))
  {
    var now := ApplyGC(y.groups[a].now, i, ids);
    var z := Step(y, a, now);
    forall k, s: nat, g, h | Moves(cfg, n, k, s, g, h) && Finished(z, h, k, s)
      ensures Finished(y, h, k, s) || Asked(y, h, k, s) {
      if h == a {
        ClearEffect(cfg, n, y, a, i, ids, s);
        assert Cleared(y.groups[a].now, now, ids, s);
      }
    }
    FinishOnStep(cfg, n, y, z);
  }

  lemma FinishOnCommit(cfg: seq<Config>, n: nat, y: System, e: Event)
    requires Base(cfg, n, y) && AllFinishOk(cfg, n, y) && Enabled(cfg, n, y, e) && Forward(y, Apply(cfg, n, y, e))
    requires e.CommitConfig? || e.CommitMigration? || e.CommitClear?
    ensures AllFinishOk(cfg, n, Apply(cfg, n, y, e))
  {
    var a := e.g;
    SizeOfNow(cfg, n, y, a);
    match e
    case CommitConfig(_, cmd) => FinishOnConfig(cfg, n, y, a, cmd.num);
    case CommitMigration(_, cmd, order) =>
      if cmd.reply.num == Num(y, a) {
        FinishOnMigration(cfg, n, y, a, cmd.reply, order);
      } else {
        StepNothing(cfg, n, y, a);
      }
    case CommitClear(_, cmd) =>
      if cmd.num == Num(y, a) {
        FinishOnClear(cfg, n, y, a, cmd.num, cmd.ids);
      } else {
        StepNothing(cfg, n, y, a);
      }
  }

  lemma FinishOnEvent(cfg: seq<Config>, n: nat, y: System, e: Event)
    requires Base(cfg, n, y) && AllFinishOk(cfg, n, y) && Enabled(cfg, n, y, e) && LetGo(n, y, e)
    ensures AllFinishOk(cfg, n, Apply(cfg, n, y, e))
  {
    ApplyBase(cfg, n, y, e);
    ApplyForward(cfg, n, y, e);
    if e.Client? {
      FinishOnClient(cfg, n, y, e.g, e.op);
    } else if e.AskDelete? || e.Finish? {
      FinishOnClearing(cfg, n, y, e);
    } else if e.Fetch? {
      FinishOnPropose(cfg, n, y, e.g, NewConfig(e.seen.config.num + 1));
    } else if e.Pull? {
      FinishOnPull(cfg, n, y, e.h, e.seen, e.g, e.read);
    } else {
      FinishOnCommit(cfg, n, y, e);
    }
  }

  lemma FinishAtStart(cfg: seq<Config>, n: nat, ys: seq<System>, es: seq<Event>)
    requires IsRun(cfg, n, ys, es)
    ensures AllFinishOk(cfg, n, ys[0])
  {
    var y := ys[0];
    forall j, s: nat, g, h | Moves(cfg, n, j, s, g, h) ensures FinishOk(cfg, n, y, j, s, g, h) {
      assert h in y.groups ==> Num(y, h) == 0 < j && y.groups[h].pool == {};
    }
  }

  lemma FinishNext(cfg: seq<Config>, n: nat, ys: seq<System>, es: seq<Event>, k: nat)
    requires IsRun(cfg, n, ys, es) && Patient(n, ys, es) && k < |es| && AllFinishOk(cfg, n, ys[k])
    ensures AllFinishOk(cfg, n, ys[k + 1])
  {
    BaseAlong(cfg, n, ys, es, k);
    FinishOnEvent(cfg, n, ys[k], es[k]);
  }

  lemma {:induction false} FinishAlong(cfg: seq<Config>, n: nat, ys: seq<System>, es: seq<Event>, k: nat)
    requires IsRun(cfg, n, ys, es) && Patient(n, ys, es) && k < |ys|
    ensures AllFinishOk(cfg, n, ys[k])
  {
    if k == 0 {
      FinishAtStart(cfg, n, ys, es);
    } else {
      FinishAlong(cfg, n, ys, es, k - 1);
      FinishNext(cfg, n, ys, es, k - 1);
    }
  }

  /** If groups finish a move only after the source has let go, no shard is ever left behind. */
  lemma PatientLeavesNone(cfg: seq<Config>, n: nat, ys: seq<System>, es: seq<Event>, k: nat)
    requires IsRun(cfg, n, ys, es) && Patient(n, ys, es) && k < |ys|
    ensures NoneAbandoned(ys[k])
  {
    var y := ys[k];
    BaseAlong(cfg, n, ys, es, k);
    FinishAlong(cfg, n, ys, es, k);
    forall g, s: nat | g in y.groups ensures !Abandoned(y, g, s) {
      if Abandoned(y, g, s) {
        SizeOfNow(cfg, n, y, g);
        StatusOk(cfg, n, y, g, s);
      }
    }
  }

  // ---------- Finishing early ----------

  /** A run in which all groups come to rest at configuration i without a write. */
  lemma RestAt(cfg: seq<Config>, n: nat, gids: set<int>, i: int) returns (ys: seq<System>, es: seq<Event>)
    requires Numbered(cfg, n) && 0 !in gids && 0 <= i < |cfg|
    requires forall j, s :: 0 <= j < |cfg| && 0 <= s < n ==> cfg[j].shards[s] == 0 || cfg[j].shards[s] in gids
    ensures IsRun(cfg, n, ys, es) && AtRest(cfg, ys[|es|], i) && ys[|es|].groups.Keys == gids
    ensures forall j :: 0 <= j < |es| ==> !es[j].Client?
  {
    var y := Initial(gids, n);
    assert y.groups.Keys == gids;
    assert IsRun(cfg, n, [y], []) && AllUpTo(y, i) && NoneAbandoned(y);
    ys, es := Settle(cfg, n, [y], [], i);
    BaseAlong(cfg, n, ys, es, |es|);
    SameGroups(cfg, n, ys, es, |es|);
  }

  lemma {:induction false} SameGroups(cfg: seq<Config>, n: nat, ys: seq<System>, es: seq<Event>, k: nat)
    requires IsRun(cfg, n, ys, es) && k < |ys|
    ensures ys[k].groups.Keys == ys[0].groups.Keys
  {
    if k > 0 {
      SameGroups(cfg, n, ys, es, k - 1);
      assert ys[k] == Apply(cfg, n, ys[k - 1], es[k - 1]);
    }
  }

  /** Both ends of a move have applied its configuration and nothing has been taken in. */
  ghost predicate AtStart(cfg: seq<Config>, n: nat, ys: seq<System>, es: seq<Event>, k: int, s: nat, g: int, h: int) {
    && IsRun(cfg, n, ys, es) && Moves(cfg, n, k, s, g, h)
    && HasStatus(ys[|es|], g, s, MoveOut) && Num(ys[|es|], g) == k
    && HasStatus(ys[|es|], h, s, MoveIn) && Num(ys[|es|], h) == k
  }

  lemma BothStart(cfg: seq<Config>, n: nat, ys: seq<System>, es: seq<Event>, k: int, s: nat, g: int, h: int)
    returns (zs: seq<System>, fs: seq<Event>)
    requires IsRun(cfg, n, ys, es) && Moves(cfg, n, k, s, g, h) && AtRest(cfg, ys[|es|], k - 1)
    requires g in ys[|es|].groups && h in ys[|es|].groups
    ensures AtStart(cfg, n, zs, fs, k, s, g, h)
  {
    var y := ys[|es|];
    BaseAlong(cfg, n, ys, es, |es|);
    StatusOk(cfg, n, y, g, s);
    StatusOk(cfg, n, y, h, s);
    ConfigStatus(cfg, n, g, y.groups[g].now, s, g, h);
    ConfigStatus(cfg, n, h, y.groups[h].now, s, g, h);
    var xs, ds := MovesOn(cfg, n, ys, es, g);
    assert xs[|ds|].groups[h] == y.groups[h];
    zs, fs := MovesOn(cfg, n, xs, ds, h);
    assert zs[|fs|].groups[g] == xs[|ds|].groups[g];
  }

  /** Group h takes the shard in; group g has not been asked to delete it. */
  lemma TakenInUnasked(cfg: seq<Config>, n: nat, ys: seq<System>, es: seq<Event>, k: int, s: nat, g: int, h: int)
    returns (zs: seq<System>, fs: seq<Event>)
    requires AtStart(cfg, n, ys, es, k, s, g, h)
    ensures IsRun(cfg, n, zs, fs) && !Asked(zs[|fs|], g, k, s)
    ensures HasStatus(zs[|fs|], g, s, MoveOut) && Num(zs[|fs|], g) == k
    ensures HasStatus(zs[|fs|], h, s, GC) && Num(zs[|fs|], h) == k
  {
    var y := ys[|es|];
    BaseAlong(cfg, n, ys, es, |es|);
    StatusOk(cfg, n, y, g, s);
    StatusOk(cfg, n, y, h, s);
    assert !Asked(y, g, k, s);
    var was, read := y.groups[h].now, y.groups[g].now;
    var ids := ByStatus(was, MoveIn, g, n);
    assert s in ids;
    var m := GetShardsData(read, k, ids).reply;
    var xs, ds := RunGrows(cfg, n, ys, es, Pull(h, was, g, read));
    BaseAlong(cfg, n, xs, ds, |ds|);
    assert Migrating(n, xs[|ds|], h, m, ids);
    MigrationEffect(cfg, n, xs[|ds|], h, m, ids, s);
    zs, fs := RunGrows(cfg, n, xs, ds, CommitMigration(h, Migration(m), ids));
    assert TakenIn(was, zs[|fs|].groups[h].now, m, s) && zs[|fs|].groups[g] == y.groups[g];
  }

  /** Group h finishes although group g has not let go. */
  lemma FinishedEarly(cfg: seq<Config>, n: nat, ys: seq<System>, es: seq<Event>, k: int, s: nat, g: int, h: int)
    returns (zs: seq<System>, fs: seq<Event>)
    requires IsRun(cfg, n, ys, es) && !Asked(ys[|es|], g, k, s) && Moves(cfg, n, k, s, g, h)
    requires HasStatus(ys[|es|], g, s, MoveOut) && Num(ys[|es|], g) == k
    requires HasStatus(ys[|es|], h, s, GC) && Num(ys[|es|], h) == k
    ensures IsRun(cfg, n, zs, fs) && Abandoned(zs[|fs|], g, s)
  {
    var y := ys[|es|];
    BaseAlong(cfg, n, ys, es, |es|);
    StatusOk(cfg, n, y, g, s);
    StatusOk(cfg, n, y, h, s);
    var was := y.groups[h].now;
    var ids := ByStatus(was, GC, g, n);
    assert s in ids;
    var xs, ds := RunGrows(cfg, n, ys, es, Finish(h, was, g));
    BaseAlong(cfg, n, xs, ds, |ds|);
    ClearingOk(cfg, n, xs[|ds|], h, ids);
    ClearEffect(cfg, n, xs[|ds|], h, k, ids, s);
    zs, fs := RunGrows(cfg, n, xs, ds, CommitClear(h, Clear(k, ids)));
    assert Cleared(was, zs[|fs|].groups[h].now, ids, s) && zs[|fs|].groups[g] == y.groups[g];
    assert Asked(zs[|fs|], g, k, s) == Asked(y, g, k, s);
  }

  /** Wherever a configuration moves a shard, some run leaves it behind. */
  lemma EarlyFinishAbandons(cfg: seq<Config>, n: nat, gids: set<int>, k: int, s: nat, g: int, h: int)
    returns (ys: seq<System>, es: seq<Event>)
    requires Numbered(cfg, n) && 0 !in gids && Moves(cfg, n, k, s, g, h)
    requires forall j, t :: 0 <= j < |cfg| && 0 <= t < n ==> cfg[j].shards[t] == 0 || cfg[j].shards[t] in gids
    ensures IsRun(cfg, n, ys, es) && Abandoned(ys[|es|], g, s)
  {
    ys, es := RestAt(cfg, n, gids, k - 1);
    ys, es := BothStart(cfg, n, ys, es, k, s, g, h);
    ys, es := TakenInUnasked(cfg, n, ys, es, k, s, g, h);
    ys, es := FinishedEarly(cfg, n, ys, es, k, s, g, h);
  }
}
