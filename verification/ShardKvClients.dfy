/** What clients are told: the groups answer as one map would, and a write that is answered took effect once. */
module ShardKvClients {
  import opened KvOps
  import opened ShardConfig
  import opened ShardKvGroup
  import opened ShardKvSystem
  import opened ShardKvInvariant
  import opened ShardKvMoves
  import opened ShardKvTheorems
  import opened ShardKvStore

  // ---------- What the tables of last writes say ----------

  predicate TagAt(effects: seq<Effect>, i: int, client: int, seqId: int) {
    0 <= i < |effects| && !effects[i].op.Get? && effects[i].op.client == client && effects[i].op.seqId == seqId
  }

  /** The write tagged (client, seqId) has taken effect. */
  ghost predicate Took(effects: seq<Effect>, client: int, seqId: int) {
    exists i :: TagAt(effects, i, client, seqId)
  }

  /** Every entry is that of a write that took effect and was answered OK. */
  ghost predicate Rooted(dup: DupTable, effects: seq<Effect>) {
    forall c {:trigger dup[c]} :: c in dup ==> dup[c].reply == Reply("", OK) && Took(effects, c, dup[c].seqId)
  }

  ghost predicate MemberRooted(x: Member, effects: seq<Effect>) {
    && x.now in x.past
    && (forall p {:trigger p in x.past} :: p in x.past ==> Rooted(p.dup, effects))
    && (forall m {:trigger Migration(m) in x.pool} :: Migration(m) in x.pool ==> Rooted(m.dup, effects))
  }

  ghost predicate AllRooted(y: System) {
    forall g {:trigger y.groups[g]} :: g in y.groups ==> MemberRooted(y.groups[g], y.effects)
  }

  lemma TookGrows(effects: seq<Effect>, more: seq<Effect>, client: int, seqId: int)
    requires effects <= more && Took(effects, client, seqId)
    ensures Took(more, client, seqId)
  {
    var i :| TagAt(effects, i, client, seqId);
    assert TagAt(more, i, client, seqId);
  }

  lemma RootedGrows(dup: DupTable, effects: seq<Effect>, more: seq<Effect>)
    requires effects <= more && Rooted(dup, effects)
    ensures Rooted(dup, more)
  {
    forall c | c in dup ensures Took(more, c, dup[c].seqId) {
      TookGrows(effects, more, c, dup[c].seqId);
    }
  }

  lemma MemberGrows(x: Member, effects: seq<Effect>, more: seq<Effect>)
    requires effects <= more && MemberRooted(x, effects)
    ensures MemberRooted(x, more)
  {
    forall p | p in x.past ensures Rooted(p.dup, more) {
      RootedGrows(p.dup, effects, more);
    }
    forall m | Migration(m) in x.pool ensures Rooted(m.dup, more) {
      RootedGrows(m.dup, effects, more);
    }
  }

  /** The new table of a group that applied a write. */
  lemma ClientRooted(y: System, g: int, op: Op)
    requires AllRooted(y) && g in y.groups && Shaped(y.groups[g].now, |y.groups[g].now.shards|)
          && y.groups[g].now.shards != []
    ensures AllRooted(OnClient(y, g, op))
  {
    var was, z := y.groups[g].now, OnClient(y, g, op);
    forall h | h in z.groups ensures MemberRooted(z.groups[h], z.effects) {
      assert MemberRooted(y.groups[h], y.effects);
      MemberGrows(y.groups[h], y.effects, z.effects);
      if h == g {
        assert Rooted(was.dup, z.effects);
        if TakesEffect(was, op) {
          assert TagAt(z.effects, |y.effects|, op.client, op.seqId);
        }
        assert Rooted(z.groups[g].now.dup, z.effects);
      }
    }
  }

  lemma StepRooted(y: System, g: int, now: Group)
    requires AllRooted(y) && g in y.groups && Rooted(now.dup, y.effects)
    ensures AllRooted(Step(y, g, now))
  {
    var z := Step(y, g, now);
    forall h | h in z.groups ensures MemberRooted(z.groups[h], z.effects) {
      assert MemberRooted(y.groups[h], y.effects);
    }
  }

  lemma ProposeRooted(y: System, g: int, c: Proposal)
    requires AllRooted(y) && g in y.groups && (c.Migration? ==> Rooted(c.reply.dup, y.effects))
    ensures AllRooted(Propose(y, g, c))
  {
    var z := Propose(y, g, c);
    forall h | h in z.groups ensures MemberRooted(z.groups[h], z.effects) {
      assert MemberRooted(y.groups[h], y.effects);
    }
  }

  lemma ProposingRooted(cfg: seq<Config>, n: nat, y: System, e: Event)
    requires AllRooted(y) && Enabled(cfg, n, y, e) && (e.Fetch? || e.Pull? || e.AskDelete? || e.Finish?)
    ensures AllRooted(Apply(cfg, n, y, e))
  {
    match e
    case Fetch(g, seen) => ProposeRooted(y, g, NewConfig(seen.config.num + 1));
    case Pull(h, seen, g, read) =>
      assert MemberRooted(y.groups[g], y.effects);
      var answer := GetShardsData(read, seen.config.num, ByStatus(seen, MoveIn, g, n));
      if answer.Data? {
        ProposeRooted(y, h, Migration(answer.reply));
      }
    case AskDelete(h, seen, g) => ProposeRooted(y, g, Clear(seen.config.num, ByStatus(seen, GC, g, n)));
    case Finish(h, seen, g) => ProposeRooted(y, h, Clear(seen.config.num, ByStatus(seen, GC, g, n)));
  }

  lemma ApplyRooted(cfg: seq<Config>, n: nat, y: System, e: Event)
    requires AllRooted(y) && Enabled(cfg, n, y, e)
    ensures AllRooted(Apply(cfg, n, y, e))
  {
    if e.Fetch? || e.Pull? || e.AskDelete? || e.Finish? {
      ProposingRooted(cfg, n, y, e);
    } else {
      assert MemberRooted(y.groups[e.g], y.effects);
      match e
      case Client(g, op) => ClientRooted(y, g, op);
      case CommitConfig(g, cmd) => StepRooted(y, g, ApplyConfig(y.groups[g].now, cfg[cmd.num]));
      case CommitMigration(g, cmd, order) =>
        assert Migration(cmd.reply) in y.groups[g].pool;
        StepRooted(y, g, ApplyMigration(y.groups[g].now, cmd.reply, order));
      case CommitClear(g, cmd) => StepRooted(y, g, ApplyGC(y.groups[g].now, cmd.num, cmd.ids));
    }
  }

  lemma {:induction false} RootedAlong(cfg: seq<Config>, n: nat, ys: seq<System>, es: seq<Event>, k: nat)
    requires IsRun(cfg, n, ys, es) && k < |ys|
    ensures AllRooted(ys[k])
  {
    if k > 0 {
      RootedAlong(cfg, n, ys, es, k - 1);
      ApplyRooted(cfg, n, ys[k - 1], es[k - 1]);
    }
  }

  // ---------- Every answer ----------

  ghost function ReplyAt(n: nat, ys: seq<System>, es: seq<Event>, k: nat): Reply
    requires k < |es| <= |ys| && es[k].Client? && es[k].g in ys[k].groups && Shaped(ys[k].groups[es[k].g].now, n)
          && n > 0
  {
    ApplyClient(ys[k].groups[es[k].g].now, es[k].op).1
  }

  /**
   A served Get is answered with the last value put to its key, in the order in which the writes took effect,
   followed by what was appended since, or with ErrNoKey if no write names the key.  A served write is answered
   OK, and afterwards the group's table gives these answers again.
   */
  lemma AnswersAsOneMap(cfg: seq<Config>, n: nat, ys: seq<System>, es: seq<Event>, k: nat)
    requires IsRun(cfg, n, ys, es) && Handed(cfg, n) && k < |es| && es[k].Client?
    ensures var y, z, g, op := ys[k], ys[k + 1], es[k].g, es[k].op;
            var s, reply := ShardOf(op.key, n), ReplyAt(n, ys, es, k);
            && (!Serving(y, g, s) ==> reply == Reply("", ErrWrongGroup) && z == y)
            && (Serving(y, g, s) && op.Get? ==> reply == AnswerTo(Edits(y.effects), op.key) && z == y)
            && (Serving(y, g, s) && !op.Get? ==> reply == Reply("", OK) && Serving(z, g, s))
            && (Serving(z, g, s) ==> forall key {:trigger ShardOf(key, n)} :: ShardOf(key, n) == s ==>
                  Lookup(z.groups[g].now.shards[s].kv, key) == AnswerTo(Edits(z.effects), key))
  {
    var y, z, g, op := ys[k], ys[k + 1], es[k].g, es[k].op;
    var s := ShardOf(op.key, n);
    BaseAlong(cfg, n, ys, es, k);
    RootedAlong(cfg, n, ys, es, k);
    assert MemberRooted(y.groups[g], y.effects) && Rooted(y.groups[g].now.dup, y.effects);
    if !TakesEffect(y.groups[g].now, op) {
      StepNothing(cfg, n, y, g);
    }
    if Serving(y, g, s) {
      ServerHolds(cfg, n, ys, es, k, g, s);
      HolderIsCurrent(cfg, n, ys, es, k, g, s);
    }
    if Serving(z, g, s) {
      ServerHolds(cfg, n, ys, es, k + 1, g, s);
      HolderIsCurrent(cfg, n, ys, es, k + 1, g, s);
    }
  }

  // ---------- Once ----------

  /** A write takes effect at most once on a shard, over all groups and configurations. */
  lemma AtMostOncePerShard(cfg: seq<Config>, n: nat, ys: seq<System>, es: seq<Event>, k: nat, i: nat, j: nat)
    requires IsRun(cfg, n, ys, es) && Handed(cfg, n) && k < |ys| && i < j < |ys[k].effects|
    requires SameTag(ys[k].effects[i].op, ys[k].effects[j].op)
    ensures ShardOf(ys[k].effects[i].op.key, n) != ShardOf(ys[k].effects[j].op.key, n)
  {
    InvAlong(cfg, n, ys, es, k);
  }

  /** Clients never give one tag to writes of different keys. */
  ghost predicate Tagged(es: seq<Event>) {
    forall i, j :: 0 <= i < |es| && 0 <= j < |es| && es[i].Client? && es[j].Client? && SameTag(es[i].op, es[j].op) ==>
      es[i].op.key == es[j].op.key
  }

  lemma EffectsStep(cfg: seq<Config>, n: nat, y: System, e: Event)
    requires Enabled(cfg, n, y, e)
    ensures var z := Apply(cfg, n, y, e);
            if e.Client? && TakesEffect(y.groups[e.g].now, e.op) then z.effects == y.effects + [Effect(e.op, Num(y,
                  e.g))]
            else z.effects == y.effects
  {
  }

  lemma {:induction false} EffectsGrow(cfg: seq<Config>, n: nat, ys: seq<System>, es: seq<Event>, i: nat, j: nat)
    requires IsRun(cfg, n, ys, es) && i <= j < |ys|
    ensures ys[i].effects <= ys[j].effects
    decreases j - i
  {
    if i < j {
      EffectsGrow(cfg, n, ys, es, i, j - 1);
      EffectsStep(cfg, n, ys[j - 1], es[j - 1]);
    }
  }

  lemma {:induction false} EffectsAreSubmitted(cfg: seq<Config>, n: nat, ys: seq<System>, es: seq<Event>, k: nat,
                                               i: nat) returns (j: nat)
    requires IsRun(cfg, n, ys, es) && k < |ys| && i < |ys[k].effects|
    ensures j < k && es[j].Client? && es[j].op == ys[k].effects[i].op
  {
    EffectsStep(cfg, n, ys[k - 1], es[k - 1]);
    if i < |ys[k - 1].effects| {
      j := EffectsAreSubmitted(cfg, n, ys, es, k - 1, i);
    } else {
      j := k - 1;
    }
  }

  /** A write tagged (client, seqId) takes effect at most once. */
  lemma AtMostOnce(cfg: seq<Config>, n: nat, ys: seq<System>, es: seq<Event>, k: nat, i: nat, j: nat)
    requires IsRun(cfg, n, ys, es) && Handed(cfg, n) && Tagged(es) && k < |ys| && i < j < |ys[k].effects|
    ensures !SameTag(ys[k].effects[i].op, ys[k].effects[j].op)
  {
    if SameTag(ys[k].effects[i].op, ys[k].effects[j].op) {
      AtMostOncePerShard(cfg, n, ys, es, k, i, j);
      var a := EffectsAreSubmitted(cfg, n, ys, es, k, i);
      var b := EffectsAreSubmitted(cfg, n, ys, es, k, j);
    }
  }

  // ---------- Clerks ----------

  ghost predicate Submitted(es: seq<Event>, k: nat, client: int, seqId: int) {
    k < |es| && es[k].Client? && !es[k].op.Get? && es[k].op.client == client && es[k].op.seqId == seqId
  }

  /** The write was applied, for the first time or as a duplicate, and answered OK. */
  ghost predicate Answered(cfg: seq<Config>, n: nat, ys: seq<System>, es: seq<Event>, k: nat, client: int, seqId: int)
    requires IsRun(cfg, n, ys, es)
  {
    Submitted(es, k, client, seqId) && ReplyAt(n, ys, es, k).err == OK
  }

  ghost predicate AnsweredBefore(cfg: seq<Config>, n: nat, ys: seq<System>, es: seq<Event>, k: nat, client: int,
                                 seqId: int)
    requires IsRun(cfg, n, ys, es)
  {
    exists j: nat :: j < k && Answered(cfg, n, ys, es, j, client, seqId)
  }

  /** A clerk counts its writes from 0 and sends the next one only after the last was answered OK. */
  ghost predicate Clerked(cfg: seq<Config>, n: nat, ys: seq<System>, es: seq<Event>)
    requires IsRun(cfg, n, ys, es)
  {
    && (forall i, j ::
          0 <= i < |es| && 0 <= j < |es| && es[i].Client? && es[j].Client? && SameTag(es[i].op, es[j].op) ==>
            es[i].op == es[j].op)
    && (forall k: nat, c, q {:trigger Submitted(es, k, c, q)} :: Submitted(es, k, c, q) ==>
          q >= 0 && (q > 0 ==> AnsweredBefore(cfg, n, ys, es, k, c, q - 1)))
  }

  /** A group that answers a write knows a write of this client that took effect, this one or a later one. */
  lemma AnsweredKnown(cfg: seq<Config>, n: nat, ys: seq<System>, es: seq<Event>, k: nat, c: int, q: int)
    returns (last: int)
    requires IsRun(cfg, n, ys, es) && Answered(cfg, n, ys, es, k, c, q)
    ensures last >= q && (last == q ==> Took(ys[k + 1].effects, c, q)) && (last > q ==> Took(ys[k].effects, c, last))
  {
    var y, g, op := ys[k], es[k].g, es[k].op;
    EffectsStep(cfg, n, y, es[k]);
    if TakesEffect(y.groups[g].now, op) {
      last := q;
      assert TagAt(ys[k + 1].effects, |y.effects|, c, q);
    } else {
      RootedAlong(cfg, n, ys, es, k);
      assert MemberRooted(y.groups[g], y.effects) && Rooted(y.groups[g].now.dup, y.effects);
      last := y.groups[g].now.dup[c].seqId;
    }
  }

  /** A write that is answered OK has taken effect, also if the group knew only of a later one. */
  lemma {:induction false} AnsweredTook(cfg: seq<Config>, n: nat, ys: seq<System>, es: seq<Event>, k: nat, c: int,
                                        q: int)
    requires IsRun(cfg, n, ys, es) && Clerked(cfg, n, ys, es) && Answered(cfg, n, ys, es, k, c, q)
    ensures Took(ys[k + 1].effects, c, q)
    decreases k
  {
    var last := AnsweredKnown(cfg, n, ys, es, k, c, q);
    if last > q {
      var i :| TagAt(ys[k].effects, i, c, last);
      var j := EffectsAreSubmitted(cfg, n, ys, es, k, i);
      assert Submitted(es, j, c, last) && Submitted(es, k, c, q);
      EarlierTook(cfg, n, ys, es, j, c, last, q);
      EffectsGrow(cfg, n, ys, es, j, k + 1);
      TookGrows(ys[j].effects, ys[k + 1].effects, c, q);
    }
  }

  /** All earlier writes of a client have taken effect by the time it submits one. */
  lemma {:induction false} EarlierTook(cfg: seq<Config>, n: nat, ys: seq<System>, es: seq<Event>, k: nat, c: int,
                                       last: int, q: int)
    requires IsRun(cfg, n, ys, es) && Clerked(cfg, n, ys, es) && Submitted(es, k, c, last) && 0 <= q < last
    ensures Took(ys[k].effects, c, q)
    decreases k
  {
    assert AnsweredBefore(cfg, n, ys, es, k, c, last - 1);
    var j: nat :| j < k && Answered(cfg, n, ys, es, j, c, last - 1);
    if q == last - 1 {
      AnsweredTook(cfg, n, ys, es, j, c, q);
      EffectsGrow(cfg, n, ys, es, j + 1, k);
      TookGrows(ys[j + 1].effects, ys[k].effects, c, q);
    } else {
      EarlierTook(cfg, n, ys, es, j, c, last - 1, q);
      EffectsGrow(cfg, n, ys, es, j, k);
      TookGrows(ys[j].effects, ys[k].effects, c, q);
    }
  }

  /** The write is the effect at position i, and no other effect has its tag. */
  ghost predicate OnceAt(effects: seq<Effect>, i: nat, op: Op) {
    && i < |effects| && effects[i].op == op && !op.Get?
    && forall j :: TagAt(effects, j, op.client, op.seqId) ==> j == i
  }

  /** A write that is answered OK has taken effect exactly once. */
  lemma ExactlyOnce(cfg: seq<Config>, n: nat, ys: seq<System>, es: seq<Event>, k: nat) returns (i: nat)
    requires IsRun(cfg, n, ys, es) && Handed(cfg, n) && Clerked(cfg, n, ys, es)
    requires k < |es| && es[k].Client? && !es[k].op.Get? && ReplyAt(n, ys, es, k).err == OK
    ensures OnceAt(ys[k + 1].effects, i, es[k].op)
  {
    var z, op := ys[k + 1], es[k].op;
    assert Answered(cfg, n, ys, es, k, op.client, op.seqId);
    AnsweredTook(cfg, n, ys, es, k, op.client, op.seqId);
    i :| TagAt(z.effects, i, op.client, op.seqId);
    var m := EffectsAreSubmitted(cfg, n, ys, es, k + 1, i);
    forall j | TagAt(z.effects, j, op.client, op.seqId) ensures j == i {
      if i < j {
        AtMostOnce(cfg, n, ys, es, k + 1, i, j);
      } else if j < i {
        AtMostOnce(cfg, n, ys, es, k + 1, j, i);
      }
    }
  }

  /** A write that is served becomes the latest one exactly if none of its tag has taken effect before. */
  lemma WritesAsOneMap(cfg: seq<Config>, n: nat, ys: seq<System>, es: seq<Event>, k: nat)
    requires IsRun(cfg, n, ys, es) && Handed(cfg, n) && Clerked(cfg, n, ys, es)
    requires k < |es| && es[k].Client? && !es[k].op.Get? && Serving(ys[k], es[k].g, ShardOf(es[k].op.key, n))
    ensures var op := es[k].op;
            Edits(ys[k + 1].effects) ==
              if Took(ys[k].effects, op.client, op.seqId) then Edits(ys[k].effects)
              else Edits(ys[k].effects) + [EditOf(op)]
  {
    var y, z, op := ys[k], ys[k + 1], es[k].op;
    AnswersAsOneMap(cfg, n, ys, es, k);
    EffectsStep(cfg, n, y, es[k]);
    var i := ExactlyOnce(cfg, n, ys, es, k);
    if TakesEffect(y.groups[es[k].g].now, op) {
      assert z.effects[..|y.effects|] == y.effects;
      assert TagAt(z.effects, |y.effects|, op.client, op.seqId);
      if Took(y.effects, op.client, op.seqId) {
        var j :| TagAt(y.effects, j, op.client, op.seqId);
        assert TagAt(z.effects, j, op.client, op.seqId);
      }
    } else {
      assert TagAt(y.effects, i, op.client, op.seqId);
    }
  }
}
