/**
 How the groups get from any state to rest at a later configuration: as long as no group has been left behind
 with a shard that nobody will ask it to delete, some group can always act.
 */
module ShardKvProgress {
  import opened Sets
  import opened ShardConfig
  import opened ShardKvGroup
  import opened ShardKvSystem
  import opened ShardKvInvariant
  import opened ShardKvSteps
  import opened ShardKvMoves
  import opened ShardKvTheorems

  // ---------- Continuations ----------

  /** Leaders act on the present state of their group, and are answered from the present state. */
  ghost predicate UpToDate(y: System, e: Event) {
    match e
    case Fetch(g, seen) => g in y.groups && seen == y.groups[g].now
    case Pull(h, seen, g, read) => h in y.groups && g in y.groups && seen == y.groups[h].now && read == y.groups[g].now
    case AskDelete(h, seen, g) => h in y.groups && seen == y.groups[h].now
    case Finish(h, seen, g) => h in y.groups && seen == y.groups[h].now
    case _ => true
  }

  ghost predicate Continues(cfg: seq<Config>, n: nat, ys: seq<System>, es: seq<Event>, zs: seq<System>,
                            fs: seq<Event>) {
    IsRun(cfg, n, ys, es) && IsRun(cfg, n, zs, fs) && ys <= zs && es <= fs
  }

  /** A continuation in which leaders are up to date. */
  ghost predicate Promptly(cfg: seq<Config>, n: nat, ys: seq<System>, es: seq<Event>, zs: seq<System>, fs: seq<Event>) {
    Continues(cfg, n, ys, es, zs, fs) && forall j {:trigger fs[j]} :: |es| <= j < |fs| ==> UpToDate(zs[j], fs[j])
  }

  /** One in which, besides, no client takes part. */
  ghost predicate Onward(cfg: seq<Config>, n: nat, ys: seq<System>, es: seq<Event>, zs: seq<System>, fs: seq<Event>) {
    Promptly(cfg, n, ys, es, zs, fs) && forall j {:trigger fs[j]} :: |es| <= j < |fs| ==> !fs[j].Client?
  }

  lemma OnwardOn(cfg: seq<Config>, n: nat, ys: seq<System>, es: seq<Event>, zs: seq<System>, fs: seq<Event>,
                 ws: seq<System>, gs: seq<Event>)
    requires Onward(cfg, n, ys, es, zs, fs) && Onward(cfg, n, zs, fs, ws, gs)
    ensures Onward(cfg, n, ys, es, ws, gs)
  {
    forall j | |es| <= j < |gs| ensures UpToDate(ws[j], gs[j]) && !gs[j].Client? {
      if j < |fs| {
        assert ws[j] == zs[j] && gs[j] == fs[j];
      }
    }
  }

  lemma RunGrows(cfg: seq<Config>, n: nat, ys: seq<System>, es: seq<Event>, e: Event)
    returns (zs: seq<System>, fs: seq<Event>)
    requires IsRun(cfg, n, ys, es) && Enabled(cfg, n, ys[|es|], e)
    ensures Continues(cfg, n, ys, es, zs, fs) && fs == es + [e] && zs[|fs|] == Apply(cfg, n, ys[|es|], e)
  {
    zs, fs := ys + [Apply(cfg, n, ys[|es|], e)], es + [e];
    forall i | 0 <= i < |fs| ensures Enabled(cfg, n, zs[i], fs[i]) && zs[i + 1] == Apply(cfg, n, zs[i], fs[i]) {
      assert i < |es| ==> fs[i] == es[i] && zs[i] == ys[i] && zs[i + 1] == ys[i + 1];
    }
  }

  lemma OneMore(cfg: seq<Config>, n: nat, ys: seq<System>, es: seq<Event>, e: Event)
    returns (zs: seq<System>, fs: seq<Event>)
    requires IsRun(cfg, n, ys, es) && Enabled(cfg, n, ys[|es|], e) && UpToDate(ys[|es|], e) && !e.Client?
    ensures Onward(cfg, n, ys, es, zs, fs) && zs[|fs|] == Apply(cfg, n, ys[|es|], e)
  {
    zs, fs := RunGrows(cfg, n, ys, es, e);
    forall j | |es| <= j < |fs| ensures UpToDate(zs[j], fs[j]) && !fs[j].Client? {
      assert fs[j] == e && zs[j] == ys[|es|];
    }
  }

  /** A group that has no shard on the move fetches the next configuration and applies it. */
  lemma MovesOn(cfg: seq<Config>, n: nat, ys: seq<System>, es: seq<Event>, g: int)
    returns (zs: seq<System>, fs: seq<Event>)
    requires IsRun(cfg, n, ys, es) && g in ys[|es|].groups
    requires var x := ys[|es|].groups[g];
             x.now in x.past && AllNormal(x.now) && Shaped(x.now, n) && 0 <= x.now.config.num + 1 < |cfg|
    ensures Continues(cfg, n, ys, es, zs, fs) && zs[|fs|].effects == ys[|es|].effects
    ensures zs[|fs|].groups.Keys == ys[|es|].groups.Keys
    ensures forall h :: h in ys[|es|].groups && h != g ==> zs[|fs|].groups[h] == ys[|es|].groups[h]
    ensures var now := ys[|es|].groups[g].now;
            var x := zs[|fs|].groups[g];
            x.now == ApplyConfig(now, cfg[now.config.num + 1]) && x.now in x.past
  {
    var now := ys[|es|].groups[g].now;
    var k := now.config.num + 1;
    zs, fs := RunGrows(cfg, n, ys, es, Fetch(g, now));
    zs, fs := RunGrows(cfg, n, zs, fs, CommitConfig(g, NewConfig(k)));
  }

  // ---------- Shards that are left behind ----------

  ghost predicate HasStatus(y: System, g: int, s: nat, status: Status) {
    g in y.groups && s < |y.groups[g].now.shards| && y.groups[g].now.shards[s].status == status
  }

  /** Group g has been asked to delete, or finish, shard s of configuration i. */
  ghost predicate Asked(y: System, g: int, i: int, s: nat) {
    g in y.groups && exists ids {:trigger Clear(i, ids)} :: Clear(i, ids) in y.groups[g].pool && s in ids
  }

  /** Group h has taken the shard in at configuration i and has nothing more to do for it. */
  ghost predicate Finished(y: System, h: int, i: int, s: nat) {
    Absorbed(y, h, i, s) && !(Num(y, h) == i && HasStatus(y, h, s, GC))
  }

  /** Group g waits for shard s to be deleted, but the next owner has finished and has not asked for it. */
  ghost predicate Abandoned(y: System, g: int, s: nat) {
    && HasStatus(y, g, s, MoveOut) && s < |y.groups[g].now.config.shards|
    && Finished(y, y.groups[g].now.config.shards[s], Num(y, g), s)
    && !Asked(y, g, Num(y, g), s)
  }

  ghost predicate NoneAbandoned(y: System) {
    forall g, s: nat {:trigger Abandoned(y, g, s)} :: !Abandoned(y, g, s)
  }

  /** What a group's state says of one of its shards. */
  lemma StatusOk(cfg: seq<Config>, n: nat, y: System, g: int, s: nat)
    requires Numbered(cfg, n) && HistoryOk(cfg, n, y) && g in y.groups && s < n
    ensures Sane(cfg, n, g, y.groups[g].now) && Shaped(y.groups[g].now, n) && y.groups[g].now in y.groups[g].past
    ensures var k := Num(y, g);
            && 0 <= k < |cfg|
            && (HasStatus(y, g, s, MoveOut) ==> Moves(cfg, n, k, s, g, cfg[k].shards[s]))
            && (HasStatus(y, g, s, MoveIn) || HasStatus(y, g, s, GC) ==>
                  k > 0 && Moves(cfg, n, k, s, cfg[k - 1].shards[s], g))
  {
    assert MemberOk(cfg, n, g, y.groups[g]);
    assert ShardOk(cfg, n, g, Num(y, g), y.groups[g].now.shards[s], s);
  }

  // ---------- Steps of one group that leave nothing behind ----------

  /** Only group g acts, and what was proposed stays so. */
  ghost predicate Acts(y: System, z: System, g: int) {
    && g in y.groups && y.groups.Keys == z.groups.Keys && y.effects == z.effects
    && (forall h {:trigger y.groups[h]} {:trigger z.groups[h]} :: h in y.groups ==>
          y.groups[h].pool <= z.groups[h].pool && (h != g ==> z.groups[h].now == y.groups[h].now))
    && |y.groups[g].now.shards| == |z.groups[g].now.shards| && Later(y.groups[g].now, z.groups[g].now)
  }

  lemma StepActs(y: System, g: int, now: Group)
    requires g in y.groups && |y.groups[g].now.shards| == |now.shards| && Later(y.groups[g].now, now)
    ensures Acts(y, Step(y, g, now), g)
  {
  }

  lemma ActsForward(y: System, z: System, g: int)
    requires Acts(y, z, g)
    ensures Forward(y, z)
  {
  }

  /** A shard's status advances; a move is finished only if the source has let go. */
  ghost predicate Advances(cfg: seq<Config>, n: nat, y: System, z: System, g: int, s: nat)
    requires Numbered(cfg, n) && g in y.groups && g in z.groups && 0 <= Num(y, g) < |cfg| && s < n
  {
    var k := Num(y, g);
    && Num(z, g) == k && s < |y.groups[g].now.shards| && s < |z.groups[g].now.shards|
    && (|| z.groups[g].now.shards[s].status == y.groups[g].now.shards[s].status
        || (HasStatus(y, g, s, MoveIn) && HasStatus(z, g, s, GC))
        || (HasStatus(y, g, s, MoveOut) && HasStatus(z, g, s, Normal))
        || (&& HasStatus(y, g, s, GC) && HasStatus(z, g, s, Normal) && k > 0
            && !(HasStatus(y, cfg[k - 1].shards[s], s, MoveOut) && Num(y, cfg[k - 1].shards[s]) == k)))
  }

  /** What is moving out and finished after the step was so before. */
  lemma AdvanceFinishes(cfg: seq<Config>, n: nat, y: System, z: System, g: int, a: int, s: nat)
    requires Base(cfg, n, y) && Base(cfg, n, z) && Acts(y, z, g) && 0 <= Num(y, g) < |cfg| && s < n
    requires Advances(cfg, n, y, z, g, s) && HasStatus(z, a, s, MoveOut)
    ensures a in y.groups && 0 <= Num(z, a) < |cfg| && Num(y, a) == Num(z, a) && HasStatus(y, a, s, MoveOut)
    ensures Finished(z, cfg[Num(z, a)].shards[s], Num(z, a), s) ==> Finished(y, cfg[Num(z, a)].shards[s], Num(z, a), s)
  {
    StatusOk(cfg, n, z, a, s);
    SizeOfNow(cfg, n, y, a);
  }

  /** If group g's statuses advance, no shard is newly left behind. */
  lemma AdvanceKeepsNone(cfg: seq<Config>, n: nat, y: System, z: System, g: int)
    requires Base(cfg, n, y) && Base(cfg, n, z) && NoneAbandoned(y) && Acts(y, z, g) && 0 <= Num(y, g) < |cfg|
    requires forall s: nat {:trigger Advances(cfg, n, y, z, g, s)} :: s < n ==> Advances(cfg, n, y, z, g, s)
    ensures NoneAbandoned(z)
  {
    forall a, s: nat | a in z.groups ensures !Abandoned(z, a, s) {
      SizeOfNow(cfg, n, y, a);
      SizeOfNow(cfg, n, z, a);
      assert !Abandoned(y, a, s);
      if HasStatus(z, a, s, MoveOut) {
        assert Advances(cfg, n, y, z, g, s);
        AdvanceFinishes(cfg, n, y, z, g, a, s);
        assert Asked(y, a, Num(y, a), s) ==> Asked(z, a, Num(z, a), s);
      }
    }
  }

  /** After a new configuration: what moves out of group g is not finished, what was finished stays so. */
  lemma ConfigFinishes(cfg: seq<Config>, n: nat, y: System, z: System, g: int, a: int, s: nat)
    requires Base(cfg, n, y) && Base(cfg, n, z) && Acts(y, z, g) && AllNormal(y.groups[g].now) && s < n
    requires 0 <= Num(y, g) && Num(y, g) + 1 < |cfg| && Shaped(y.groups[g].now, n)
    requires z.groups[g].now == ApplyConfig(y.groups[g].now, cfg[Num(y, g) + 1]) && HasStatus(z, a, s, MoveOut)
    ensures 0 <= Num(z, a) < |cfg|
    ensures var h := cfg[Num(z, a)].shards[s];
            Finished(z, h, Num(z, a), s) ==> a != g && Finished(y, h, Num(z, a), s)
  {
    StatusOk(cfg, n, z, a, s);
    SizeOfNow(cfg, n, y, g);
    var k, h := Num(z, a), cfg[Num(z, a)].shards[s];
    assert Moves(cfg, n, k, s, a, h);
    if h == g && k == Num(y, g) + 1 {
      ConfigStatus(cfg, n, g, y.groups[g].now, s, a, h);
    }
  }

  /** Nor if it moves on to the next configuration. */
  lemma ConfigKeepsNone(cfg: seq<Config>, n: nat, y: System, z: System, g: int)
    requires Base(cfg, n, y) && Base(cfg, n, z) && NoneAbandoned(y) && Acts(y, z, g) && AllNormal(y.groups[g].now)
    requires 0 <= Num(y, g) && Num(y, g) + 1 < |cfg| && Shaped(y.groups[g].now, n)
    requires z.groups[g].now == ApplyConfig(y.groups[g].now, cfg[Num(y, g) + 1])
    ensures NoneAbandoned(z)
  {
    forall a, s: nat | a in z.groups ensures !Abandoned(z, a, s) {
      SizeOfNow(cfg, n, z, a);
      assert !Abandoned(y, a, s);
      if HasStatus(z, a, s, MoveOut) {
        ConfigFinishes(cfg, n, y, z, g, a, s);
        assert a != g && Asked(y, a, Num(y, a), s) ==> Asked(z, a, Num(z, a), s);
      }
    }
  }

  // ---------- What the groups can do next ----------

  /** Group g has got on, with its configuration or with shard s. */
  ghost predicate GotOn(y: System, z: System, g: int, s: nat) {
    && Forward(y, z) && NoneAbandoned(z) && g in y.groups && s < |y.groups[g].now.shards|
    && (Num(z, g) == Num(y, g) ==> z.groups[g].now.shards[s].status != y.groups[g].now.shards[s].status)
    && (forall h {:trigger y.groups[h]} {:trigger z.groups[h]} :: h in y.groups ==>
          Num(z, h) == Num(y, h) || (h == g && Num(z, g) == Num(y, g) + 1 && AllNormal(y.groups[g].now)))
  }

  ghost predicate Gains(cfg: seq<Config>, n: nat, ys: seq<System>, es: seq<Event>, zs: seq<System>, fs: seq<Event>,
                        g: int, s: nat) {
    Onward(cfg, n, ys, es, zs, fs) && GotOn(ys[|es|], zs[|fs|], g, s)
  }

  lemma ProposeLeavesNone(cfg: seq<Config>, n: nat, y: System, g: int, c: Proposal)
    requires Base(cfg, n, y) && g in y.groups && Base(cfg, n, Propose(y, g, c)) && NoneAbandoned(y)
    ensures NoneAbandoned(Propose(y, g, c)) && Acts(y, Propose(y, g, c), g)
  {
    var z := Propose(y, g, c);
    SizeOfNow(cfg, n, y, g);
    assert Acts(y, z, g);
    AdvanceKeepsNone(cfg, n, y, z, g);
  }

  /** A proposal by itself leaves nothing behind. */
  lemma Proposes(cfg: seq<Config>, n: nat, ys: seq<System>, es: seq<Event>, e: Event, g: int, c: Proposal)
    returns (zs: seq<System>, fs: seq<Event>)
    requires IsRun(cfg, n, ys, es) && NoneAbandoned(ys[|es|]) && g in ys[|es|].groups
    requires Enabled(cfg, n, ys[|es|], e) && UpToDate(ys[|es|], e) && !e.Client?
    requires Apply(cfg, n, ys[|es|], e) == Propose(ys[|es|], g, c)
    ensures Onward(cfg, n, ys, es, zs, fs) && NoneAbandoned(zs[|fs|]) && zs[|fs|] == Propose(ys[|es|], g, c)
  {
    zs, fs := OneMore(cfg, n, ys, es, e);
    BaseAlong(cfg, n, ys, es, |es|);
    BaseAlong(cfg, n, zs, fs, |fs|);
    ProposeLeavesNone(cfg, n, ys[|es|], g, c);
  }

  /** What is got on from the state after a proposal is got on from the state before it. */
  lemma GainsAfter(cfg: seq<Config>, n: nat, ys: seq<System>, es: seq<Event>, xs: seq<System>, ds: seq<Event>,
                   zs: seq<System>, fs: seq<Event>, at: int, c: Proposal, g: int, s: nat)
    requires Onward(cfg, n, ys, es, xs, ds) && at in ys[|es|].groups && xs[|ds|] == Propose(ys[|es|], at, c)
    requires Gains(cfg, n, xs, ds, zs, fs, g, s)
    ensures Gains(cfg, n, ys, es, zs, fs, g, s)
  {
    OnwardOn(cfg, n, ys, es, xs, ds, zs, fs);
    var y, x, z := ys[|es|], xs[|ds|], zs[|fs|];
    forall h | h in y.groups
      ensures x.groups[h].now == y.groups[h].now && Later(y.groups[h].now, z.groups[h].now)
    {
      assert Later(x.groups[h].now, z.groups[h].now);
    }
  }

  // ---------- Moving on ----------

  lemma ConfigGains(cfg: seq<Config>, n: nat, y: System, g: int, k: int)
    requires Base(cfg, n, y) && NoneAbandoned(y) && g in y.groups && NewConfig(k) in y.groups[g].pool
    requires AllNormal(y.groups[g].now) && k == Num(y, g) + 1 < |cfg| && Shaped(y.groups[g].now, n) && k > 0
    requires Base(cfg, n, Step(y, g, ApplyConfig(y.groups[g].now, cfg[k])))
    ensures GotOn(y, Step(y, g, ApplyConfig(y.groups[g].now, cfg[k])), g, 0)
  {
    var z := Step(y, g, ApplyConfig(y.groups[g].now, cfg[k]));
    assert Acts(y, z, g);
    ConfigKeepsNone(cfg, n, y, z, g);
  }

  /** A group with all shards normal moves on. */
  lemma MoveOn(cfg: seq<Config>, n: nat, ys: seq<System>, es: seq<Event>, g: int)
    returns (zs: seq<System>, fs: seq<Event>)
    requires IsRun(cfg, n, ys, es) && NoneAbandoned(ys[|es|]) && g in ys[|es|].groups
    requires AllNormal(ys[|es|].groups[g].now) && Num(ys[|es|], g) + 1 < |cfg|
    ensures Gains(cfg, n, ys, es, zs, fs, g, 0)
  {
    var y := ys[|es|];
    BaseAlong(cfg, n, ys, es, |es|);
    StatusOk(cfg, n, y, g, 0);
    var k := Num(y, g) + 1;
    var xs, ds := Proposes(cfg, n, ys, es, Fetch(g, y.groups[g].now), g, NewConfig(k));
    zs, fs := OneMore(cfg, n, xs, ds, CommitConfig(g, NewConfig(k)));
    BaseAlong(cfg, n, xs, ds, |ds|);
    BaseAlong(cfg, n, zs, fs, |fs|);
    ConfigGains(cfg, n, xs[|ds|], g, k);
    GainsAfter(cfg, n, ys, es, xs, ds, zs, fs, g, NewConfig(k), g, 0);
  }

  // ---------- Taking in ----------

  lemma TakeGains(cfg: seq<Config>, n: nat, y: System, h: int, m: ShardData, order: seq<nat>, s: nat)
    requires Base(cfg, n, y) && NoneAbandoned(y) && Migrating(n, y, h, m, order)
    requires s < n && s in m.data && HasStatus(y, h, s, MoveIn)
    ensures GotOn(y, Step(y, h, ApplyMigration(y.groups[h].now, m, order)), h, s)
  {
    var now := ApplyMigration(y.groups[h].now, m, order);
    var z := Step(y, h, now);
    MigrationBase(cfg, n, y, h, m, order);
    SizeOfNow(cfg, n, y, h);
    StepActs(y, h, now);
    forall t: nat | t < n ensures Advances(cfg, n, y, z, h, t) {
      assert TakenIn(y.groups[h].now, now, m, t);
    }
    assert TakenIn(y.groups[h].now, now, m, s);
    AdvanceKeepsNone(cfg, n, y, z, h);
    ActsForward(y, z, h);
  }

  /** The shards of a proposed migration are taken in. */
  lemma TakeStep(cfg: seq<Config>, n: nat, ys: seq<System>, es: seq<Event>, h: int, m: ShardData, order: seq<nat>,
                 s: nat)
    returns (zs: seq<System>, fs: seq<Event>)
    requires IsRun(cfg, n, ys, es) && NoneAbandoned(ys[|es|]) && Migrating(n, ys[|es|], h, m, order)
    requires s < n && s in m.data && HasStatus(ys[|es|], h, s, MoveIn)
    ensures Gains(cfg, n, ys, es, zs, fs, h, s)
  {
    zs, fs := OneMore(cfg, n, ys, es, CommitMigration(h, Migration(m), order));
    BaseAlong(cfg, n, ys, es, |es|);
    TakeGains(cfg, n, ys[|es|], h, m, order, s);
  }

  // ---------- Settling ----------

  /** Group h has taken the shard in, and the source has let go of it. */
  ghost predicate Ripe(cfg: seq<Config>, n: nat, y: System, h: int, s: nat)
    requires Numbered(cfg, n)
  {
    && HasStatus(y, h, s, GC) && 0 < Num(y, h) < |cfg| && s < n
    && var a := cfg[Num(y, h) - 1].shards[s];
       !(HasStatus(y, a, s, MoveOut) && Num(y, a) == Num(y, h))
  }

  lemma ClearGains(cfg: seq<Config>, n: nat, y: System, g: int, ids: seq<nat>, s: nat)
    requires Base(cfg, n, y) && NoneAbandoned(y) && g in y.groups && Clearing(n, y, g, Num(y, g), ids)
    requires s in ids && s < n && (HasStatus(y, g, s, MoveOut) || Ripe(cfg, n, y, g, s))
    ensures GotOn(y, Step(y, g, ApplyGC(y.groups[g].now, Num(y, g), ids)), g, s)
  {
    ClearCommitBase(cfg, n, y, g, Num(y, g), ids);
    var z := Step(y, g, ApplyGC(y.groups[g].now, Num(y, g), ids));
    SizeOfNow(cfg, n, y, g);
    StepActs(y, g, z.groups[g].now);
    forall t: nat | t < n ensures Advances(cfg, n, y, z, g, t) {
      assert Cleared(y.groups[g].now, z.groups[g].now, ids, t);
      ClearAdvances(cfg, n, y, z, g, ids, s, t);
    }
    assert Cleared(y.groups[g].now, z.groups[g].now, ids, s);
    AdvanceKeepsNone(cfg, n, y, z, g);
    ActsForward(y, z, g);
  }

  lemma ClearAdvances(cfg: seq<Config>, n: nat, y: System, z: System, g: int, ids: seq<nat>, s: nat, t: nat)
    requires Base(cfg, n, y) && g in y.groups && g in z.groups && Clear(Num(y, g), ids) in y.groups[g].pool
    requires s in ids && s < n && t < n && (HasStatus(y, g, s, MoveOut) || Ripe(cfg, n, y, g, s))
    requires Num(z, g) == Num(y, g) && 0 <= Num(y, g) < |cfg| && Cleared(y.groups[g].now, z.groups[g].now, ids, t)
    ensures Advances(cfg, n, y, z, g, t)
  {
    if t in ids {
      ClearsAlike(cfg, n, y, g, ids, s, t);
    }
  }

  lemma ClearingOk(cfg: seq<Config>, n: nat, y: System, g: int, ids: seq<nat>)
    requires Base(cfg, n, y) && g in y.groups && Clear(Num(y, g), ids) in y.groups[g].pool
    ensures Clearing(n, y, g, Num(y, g), ids)
  {
    SizeOfNow(cfg, n, y, g);
    assert ProposalOk(cfg, n, y, g, Clear(Num(y, g), ids));
    forall i | 0 <= i < |ids| ensures ids[i] < n {
      assert ids[i] in ids;
    }
  }

  /** The shards that a proposed command names are settled. */
  lemma ClearStep(cfg: seq<Config>, n: nat, ys: seq<System>, es: seq<Event>, g: int, ids: seq<nat>, s: nat)
    returns (zs: seq<System>, fs: seq<Event>)
    requires IsRun(cfg, n, ys, es) && NoneAbandoned(ys[|es|]) && g in ys[|es|].groups
    requires Clear(Num(ys[|es|], g), ids) in ys[|es|].groups[g].pool && s in ids && s < n
    requires HasStatus(ys[|es|], g, s, MoveOut) || Ripe(cfg, n, ys[|es|], g, s)
    ensures Gains(cfg, n, ys, es, zs, fs, g, s)
  {
    var y := ys[|es|];
    BaseAlong(cfg, n, ys, es, |es|);
    ClearingOk(cfg, n, y, g, ids);
    zs, fs := OneMore(cfg, n, ys, es, CommitClear(g, Clear(Num(y, g), ids)));
    ClearGains(cfg, n, y, g, ids, s);
  }

  /** The shards of one command are in the same state at both ends of their move. */
  lemma ClearsAlike(cfg: seq<Config>, n: nat, y: System, g: int, ids: seq<nat>, s: nat, t: nat)
    requires Base(cfg, n, y) && g in y.groups && Clear(Num(y, g), ids) in y.groups[g].pool && s in ids && t in ids
          && s < n && t < n
    ensures 0 < Num(y, g) < |cfg| && SameMove(cfg, n, Num(y, g), s, t)
    ensures forall status :: HasStatus(y, g, s, status) ==> HasStatus(y, g, t, status)
    ensures var a := cfg[Num(y, g) - 1].shards[s];
            a in y.groups && Num(y, a) == Num(y, g) ==> forall status :: HasStatus(y, a, t, status) ==>
                  HasStatus(y, a, s, status)
  {
    var k := Num(y, g);
    assert ProposalOk(cfg, n, y, g, Clear(k, ids));
    assert s in Elements(ids) && t in Elements(ids);
    assert SameMove(cfg, n, k, s, t);
    SizeOfNow(cfg, n, y, g);
    var a := cfg[k - 1].shards[s];
    if a in y.groups {
      SizeOfNow(cfg, n, y, a);
    }
  }

  // ---------- One shard gets on ----------

  /** Group h pulls shard s from group g, which has reached the configuration. */
  lemma PullStep(cfg: seq<Config>, n: nat, ys: seq<System>, es: seq<Event>, h: int, g: int, s: nat)
    returns (zs: seq<System>, fs: seq<Event>)
    requires IsRun(cfg, n, ys, es) && NoneAbandoned(ys[|es|]) && s < n && HasStatus(ys[|es|], h, s, MoveIn)
    requires g in ys[|es|].groups && Num(ys[|es|], g) >= Num(ys[|es|], h)
    requires Moves(cfg, n, Num(ys[|es|], h), s, g, h)
    ensures Gains(cfg, n, ys, es, zs, fs, h, s)
  {
    var y := ys[|es|];
    var was, read := y.groups[h].now, y.groups[g].now;
    BaseAlong(cfg, n, ys, es, |es|);
    StatusOk(cfg, n, y, h, s);
    StatusOk(cfg, n, y, g, s);
    var ids := ByStatus(was, MoveIn, g, n);
    assert s in ids;
    var m := GetShardsData(read, was.config.num, ids).reply;
    var xs, ds := Proposes(cfg, n, ys, es, Pull(h, was, g, read), h, Migration(m));
    zs, fs := TakeStep(cfg, n, xs, ds, h, m, ids, s);
    GainsAfter(cfg, n, ys, es, xs, ds, zs, fs, h, Migration(m), h, s);
  }

  /** Group h, which has taken shard s in, has group g delete it. */
  lemma DeleteStep(cfg: seq<Config>, n: nat, ys: seq<System>, es: seq<Event>, h: int, g: int, s: nat)
    returns (zs: seq<System>, fs: seq<Event>)
    requires IsRun(cfg, n, ys, es) && NoneAbandoned(ys[|es|]) && s < n && HasStatus(ys[|es|], h, s, GC)
    requires HasStatus(ys[|es|], g, s, MoveOut) && Num(ys[|es|], g) == Num(ys[|es|], h)
    requires Moves(cfg, n, Num(ys[|es|], h), s, g, h)
    ensures Gains(cfg, n, ys, es, zs, fs, g, s)
  {
    var y := ys[|es|];
    var was := y.groups[h].now;
    BaseAlong(cfg, n, ys, es, |es|);
    StatusOk(cfg, n, y, h, s);
    var ids := ByStatus(was, GC, g, n);
    assert s in ids;
    var xs, ds := Proposes(cfg, n, ys, es, AskDelete(h, was, g), g, Clear(was.config.num, ids));
    zs, fs := ClearStep(cfg, n, xs, ds, g, ids, s);
    GainsAfter(cfg, n, ys, es, xs, ds, zs, fs, g, Clear(was.config.num, ids), g, s);
  }

  /** Group h finishes the move of shard s. */
  lemma FinishStep(cfg: seq<Config>, n: nat, ys: seq<System>, es: seq<Event>, h: int, g: int, s: nat)
    returns (zs: seq<System>, fs: seq<Event>)
    requires IsRun(cfg, n, ys, es) && NoneAbandoned(ys[|es|]) && Ripe(cfg, n, ys[|es|], h, s)
    requires g in ys[|es|].groups && Moves(cfg, n, Num(ys[|es|], h), s, g, h)
    ensures Gains(cfg, n, ys, es, zs, fs, h, s)
  {
    var y := ys[|es|];
    var was := y.groups[h].now;
    BaseAlong(cfg, n, ys, es, |es|);
    StatusOk(cfg, n, y, h, s);
    var ids := ByStatus(was, GC, g, n);
    assert s in ids;
    var xs, ds := Proposes(cfg, n, ys, es, Finish(h, was, g), h, Clear(was.config.num, ids));
    assert Ripe(cfg, n, xs[|ds|], h, s);
    zs, fs := ClearStep(cfg, n, xs, ds, h, ids, s);
    GainsAfter(cfg, n, ys, es, xs, ds, zs, fs, h, Clear(was.config.num, ids), h, s);
  }

  /** Both ends of a move, when no group is behind: one of them can act. */
  lemma MoveStep(cfg: seq<Config>, n: nat, ys: seq<System>, es: seq<Event>, k: int, g: int, h: int, s: nat)
    returns (zs: seq<System>, fs: seq<Event>, b: int)
    requires IsRun(cfg, n, ys, es) && NoneAbandoned(ys[|es|]) && Moves(cfg, n, k, s, g, h)
    requires g in ys[|es|].groups && h in ys[|es|].groups && k <= Num(ys[|es|], g) && k <= Num(ys[|es|], h)
    requires || (HasStatus(ys[|es|], g, s, MoveOut) && Num(ys[|es|], g) == k)
             || (Num(ys[|es|], h) == k && (HasStatus(ys[|es|], h, s, MoveIn) || HasStatus(ys[|es|], h, s, GC)))
    ensures Gains(cfg, n, ys, es, zs, fs, b, s) && !HasStatus(ys[|es|], b, s, Normal)
  {
    var y := ys[|es|];
    BaseAlong(cfg, n, ys, es, |es|);
    SizeOfNow(cfg, n, y, g);
    SizeOfNow(cfg, n, y, h);
    if Num(y, h) == k && HasStatus(y, h, s, MoveIn) {
      b := h;
      zs, fs := PullStep(cfg, n, ys, es, h, g, s);
    } else if HasStatus(y, g, s, MoveOut) && Num(y, g) == k {
      b := g;
      if Num(y, h) == k && HasStatus(y, h, s, GC) {
        zs, fs := DeleteStep(cfg, n, ys, es, h, g, s);
      } else {
        assert !Abandoned(y, g, s);
        var ids :| Clear(k, ids) in y.groups[g].pool && s in ids;
        zs, fs := ClearStep(cfg, n, ys, es, g, ids, s);
      }
    } else {
      b := h;
      zs, fs := FinishStep(cfg, n, ys, es, h, g, s);
    }
  }

  // ---------- All of them ----------

  function Rank(status: Status): nat {
    match status
    case MoveIn => 3
    case GC => 2
    case MoveOut => 1
    case Normal => 0
  }

  /** How far shard s of group g is from rest at configuration i. */
  ghost function Left(y: System, i: int, g: int, s: nat): int
    requires g in y.groups && s < |y.groups[g].now.shards|
  {
    4 * (i - Num(y, g)) + Rank(y.groups[g].now.shards[s].status)
  }

  ghost function Work(y: System, i: int, n: nat): set<(int, nat, nat)> {
    set g, s: nat, r: nat | g in y.groups && s < n && s < |y.groups[g].now.shards| && r < Left(y, i, g, s) :: (g, s, r)
  }

  lemma WorkShrinks(y: System, z: System, i: int, n: nat, g: int, s: nat)
    requires GotOn(y, z, g, s) && s < n && Num(z, g) <= i
    ensures |Work(z, i, n)| < |Work(y, i, n)|
  {
    forall h, t: nat | h in y.groups && t < |y.groups[h].now.shards|
      ensures h in z.groups && t < |z.groups[h].now.shards| && Left(z, i, h, t) <= Left(y, i, h, t)
      ensures h == g && t == s ==> Left(z, i, h, t) < Left(y, i, h, t)
    {
      assert Later(y.groups[h].now, z.groups[h].now);
    }
    var r := Left(z, i, g, s);
    assert (g, s, r) in Work(y, i, n) && (g, s, r) !in Work(z, i, n);
    ProperSubsetSize(Work(z, i, n), Work(y, i, n));
  }

  ghost predicate AllUpTo(y: System, i: int) {
    forall g {:trigger y.groups[g]} :: g in y.groups ==> Num(y, g) <= i
  }

  /** Every group is at configuration i and has no shard on the move. */
  ghost predicate AtRest(cfg: seq<Config>, y: System, i: int) {
    && 0 <= i < |cfg|
    && forall g {:trigger y.groups[g]} :: g in y.groups ==>
          y.groups[g].now.config == cfg[i] && AllNormal(y.groups[g].now)
  }

  /** A group that is not ahead of any other. */
  lemma {:induction false} Lowest(y: System, among: set<int>) returns (g: int)
    requires among <= y.groups.Keys && among != {}
    ensures g in among && forall h :: h in among ==> Num(y, g) <= Num(y, h)
    decreases |among|
  {
    g := Pick(among);
    if among != {g} {
      var rest := among - {g};
      var h := Lowest(y, rest);
      forall a | a in among ensures a == g || a in rest {
      }
      g := if Num(y, g) <= Num(y, h) then g else h;
    }
  }

  /** A group at the lowest configuration with a shard on the move: some group can act. */
  lemma Unblock(cfg: seq<Config>, n: nat, ys: seq<System>, es: seq<Event>, g: int, s: nat)
    returns (zs: seq<System>, fs: seq<Event>, b: int)
    requires IsRun(cfg, n, ys, es) && NoneAbandoned(ys[|es|]) && g in ys[|es|].groups && s < n
    requires forall a :: a in ys[|es|].groups ==> Num(ys[|es|], g) <= Num(ys[|es|], a)
    requires !HasStatus(ys[|es|], g, s, Normal)
    ensures Gains(cfg, n, ys, es, zs, fs, b, s) && !HasStatus(ys[|es|], b, s, Normal)
  {
    var y := ys[|es|];
    var k := Num(y, g);
    BaseAlong(cfg, n, ys, es, |es|);
    StatusOk(cfg, n, y, g, s);
    var a, h := if HasStatus(y, g, s, MoveOut) then g else cfg[k - 1].shards[s], cfg[k].shards[s];
    assert Moves(cfg, n, k, s, a, h);
    zs, fs, b := MoveStep(cfg, n, ys, es, k, a, h, s);
  }

  lemma RestAtLowest(cfg: seq<Config>, n: nat, y: System, i: int, low: int)
    requires Base(cfg, n, y) && AllUpTo(y, i) && 0 <= i < |cfg| && low in y.groups && Num(y, low) >= i
    requires forall g :: g in y.groups ==> Num(y, low) <= Num(y, g) && (Num(y, g) == Num(y, low) ==>
          AllNormal(y.groups[g].now))
    ensures AtRest(cfg, y, i)
  {
    forall g | g in y.groups ensures y.groups[g].now.config == cfg[i] && AllNormal(y.groups[g].now) {
      SizeOfNow(cfg, n, y, g);
      assert Num(y, low) <= Num(y, g) <= i;
    }
  }

  /** Unless all are at rest already, some group can act. */
  lemma GetOn(cfg: seq<Config>, n: nat, ys: seq<System>, es: seq<Event>, i: int)
    returns (zs: seq<System>, fs: seq<Event>, b: int, s: nat)
    requires IsRun(cfg, n, ys, es) && NoneAbandoned(ys[|es|]) && AllUpTo(ys[|es|], i) && 0 <= i < |cfg|
    requires !AtRest(cfg, ys[|es|], i)
    ensures Gains(cfg, n, ys, es, zs, fs, b, s) && s < n && AllUpTo(zs[|fs|], i)
  {
    var y := ys[|es|];
    BaseAlong(cfg, n, ys, es, |es|);
    var low := Lowest(y, y.groups.Keys);
    if g :| g in y.groups && Num(y, g) == Num(y, low) && !AllNormal(y.groups[g].now) {
      s :| 0 <= s < |y.groups[g].now.shards| && y.groups[g].now.shards[s].status != Normal;
      SizeOfNow(cfg, n, y, g);
      zs, fs, b := Unblock(cfg, n, ys, es, g, s);
    } else {
      assert Num(y, low) < i by {
        if Num(y, low) >= i {
          RestAtLowest(cfg, n, y, i, low);
        }
      }
      b, s := low, 0;
      zs, fs := MoveOn(cfg, n, ys, es, low);
    }
    forall g | g in zs[|fs|].groups ensures Num(zs[|fs|], g) <= i {
      assert Num(y, g) <= i;
    }
  }

  /** If no shard is left behind, up-to-date leaders bring all groups to rest, without any client. */
  lemma {:induction false} Settle(cfg: seq<Config>, n: nat, ys: seq<System>, es: seq<Event>, i: int)
    returns (zs: seq<System>, fs: seq<Event>)
    requires IsRun(cfg, n, ys, es) && NoneAbandoned(ys[|es|]) && AllUpTo(ys[|es|], i) && 0 <= i < |cfg|
    ensures Onward(cfg, n, ys, es, zs, fs) && AtRest(cfg, zs[|fs|], i)
    decreases |Work(ys[|es|], i, n)|
  {
    if AtRest(cfg, ys[|es|], i) {
      zs, fs := ys, es;
    } else {
      var xs, ds, b, s := GetOn(cfg, n, ys, es, i);
      assert Num(xs[|ds|], b) <= i;
      WorkShrinks(ys[|es|], xs[|ds|], i, n, b, s);
      zs, fs := Settle(cfg, n, xs, ds, i);
      OnwardOn(cfg, n, ys, es, xs, ds, zs, fs);
    }
  }
}
