/** The groups together hold one map: whatever was written to a shard is up to date in exactly one place. */
module ShardKvStore {
  import opened KvOps
  import opened ShardConfig
  import opened ShardKvGroup
  import opened ShardKvSystem
  import opened ShardKvInvariant
  import opened ShardKvMoves
  import opened ShardKvTheorems

  /** Group g serves the shard (or would, if it were assigned), or has stopped and still has the only copy. */
  ghost predicate Holding(cfg: seq<Config>, n: nat, y: System, g: int, s: nat)
    requires Numbered(cfg, n)
  {
    Keeping(cfg, n, y, g, s) || Frozen(y, g, s)
  }

  lemma ServerHolds(cfg: seq<Config>, n: nat, ys: seq<System>, es: seq<Event>, k: nat, g: int, s: nat)
    requires IsRun(cfg, n, ys, es) && k < |ys| && Serving(ys[k], g, s)
    ensures Holding(cfg, n, ys[k], g, s)
  {
    BaseAlong(cfg, n, ys, es, k);
    ServerKeeps(cfg, n, ys[k], g, s);
  }

  /**
   The copy of whoever holds a shard is what the writes to it leave behind: each key has the last value put to it,
   followed by what was appended since.
   */
  lemma HolderIsCurrent(cfg: seq<Config>, n: nat, ys: seq<System>, es: seq<Event>, k: nat, g: int, s: nat)
    requires IsRun(cfg, n, ys, es) && Handed(cfg, n) && k < |ys| && Holding(cfg, n, ys[k], g, s)
    ensures s < n && ys[k].groups[g].now.shards[s].kv == Contents(ys[k].effects, s, n)
    ensures forall key {:trigger ShardOf(key, n)} :: ShardOf(key, n) == s ==>
              Lookup(ys[k].groups[g].now.shards[s].kv, key) == AnswerTo(Edits(ys[k].effects), key)
  {
    var y := ys[k];
    InvAlong(cfg, n, ys, es, k);
    SizeOfNow(cfg, n, y, g);
    assert y.groups[g].now in y.groups[g].past by {
      assert MemberOk(cfg, n, g, y.groups[g]);
    }
    assert Good(y.groups[g].now.shards[s].kv, y.groups[g].now.dup, y.effects, s, n);
    forall key | ShardOf(key, n) == s
      ensures Lookup(y.groups[g].now.shards[s].kv, key) == AnswerTo(Edits(y.effects), key)
    {
      ContentsOfReplay(y.effects, n, s, key);
      ReplayReflects(y.effects);
      assert Lookup(Replay(y.effects), key) == AnswerTo(Edits(y.effects), key);
    }
  }

  // ---------- At most one ----------

  lemma OneFrozen(cfg: seq<Config>, n: nat, y: System, a: int, b: int, s: nat)
    requires Handed(cfg, n) && HistoryOk(cfg, n, y) && LinkOk(cfg, n, y)
    requires Frozen(y, a, s) && Frozen(y, b, s) && Num(y, a) <= Num(y, b)
    ensures a == b
  {
    assert MemberOk(cfg, n, a, y.groups[a]) && MemberOk(cfg, n, b, y.groups[b]);
    assert Sane(cfg, n, a, y.groups[a].now) && Sane(cfg, n, b, y.groups[b].now);
    var i, k := Num(y, a), Num(y, b);
    assert ShardOk(cfg, n, a, i, y.groups[a].now.shards[s], s) && ShardOk(cfg, n, b, k, y.groups[b].now.shards[s], s);
    assert Holds(cfg, n, y, k - 1, s);
    if i < k - 1 {
      Behind(cfg, n, y, k - 1, i, s);
    }
  }

  /** No two groups hold a shard. */
  lemma OneHolder(cfg: seq<Config>, n: nat, ys: seq<System>, es: seq<Event>, k: nat, g: int, h: int, s: nat)
    requires IsRun(cfg, n, ys, es) && Handed(cfg, n) && k < |ys|
    requires Holding(cfg, n, ys[k], g, s) && Holding(cfg, n, ys[k], h, s)
    ensures g == h
  {
    var y := ys[k];
    InvAlong(cfg, n, ys, es, k);
    if Frozen(y, g, s) {
      NoKeeperWhileFrozen(cfg, n, y, h, g, s);
      if Num(y, g) <= Num(y, h) {
        OneFrozen(cfg, n, y, g, h, s);
      } else {
        OneFrozen(cfg, n, y, h, g, s);
      }
    } else if Frozen(y, h, s) {
      NoKeeperWhileFrozen(cfg, n, y, g, h, s);
    } else {
      OneKeeper(cfg, n, y, g, h, s);
    }
  }

  // ---------- At least one ----------

  /** The first configuration after i, up to j, in which the shard has another keeper; j + 1 if there is none. */
  lemma {:induction false} FirstChange(cfg: seq<Config>, n: nat, i: nat, j: nat, s: nat) returns (c: nat)
    requires Numbered(cfg, n) && s < n && i <= j < |cfg|
    ensures i < c <= j + 1 && forall d :: i <= d < c ==> Keeper(cfg, d, s) == Keeper(cfg, i, s)
    ensures c <= j ==> Keeper(cfg, c, s) != Keeper(cfg, i, s)
    decreases j - i
  {
    c := i + 1;
    if i < j && Keeper(cfg, i + 1, s) == Keeper(cfg, i, s) {
      c := FirstChange(cfg, n, i + 1, j, s);
    }
  }

  /** From a keeper that has got the shard, follow the moves to where it is now. */
  lemma {:induction false} FindHolder(cfg: seq<Config>, n: nat, y: System, i: nat, s: nat) returns (g: int)
    requires Handed(cfg, n) && HistoryOk(cfg, n, y) && LinkOk(cfg, n, y) && Holds(cfg, n, y, i, s)
    ensures Holding(cfg, n, y, g, s)
    decreases |cfg| - i
  {
    g := Keeper(cfg, i, s);
    assert MemberOk(cfg, n, g, y.groups[g]);
    assert Sane(cfg, n, g, y.groups[g].now);
    var j := Num(y, g);
    assert ShardOk(cfg, n, g, j, y.groups[g].now.shards[s], s);
    var c := FirstChange(cfg, n, i, j, s);
    if c <= j {
      var h := cfg[c].shards[s];
      assert Changes(cfg, c, s);
      assert Moves(cfg, n, c, s, g, h);
      if Absorbed(y, h, c, s) {
        g := FindHolder(cfg, n, y, c, s);
      }
    } else {
      assert Keeper(cfg, j, s) == g && (i < j ==> Keeper(cfg, j - 1, s) == g);
    }
  }

  /** Whatever was written to a shard, some group holds it, at all times. */
  lemma SomeHolder(cfg: seq<Config>, n: nat, ys: seq<System>, es: seq<Event>, k: nat, s: nat) returns (g: int)
    requires IsRun(cfg, n, ys, es) && Handed(cfg, n) && k < |ys| && s < n && Contents(ys[k].effects, s, n) != map[]
    ensures Holding(cfg, n, ys[k], g, s)
  {
    var y := ys[k];
    InvAlong(cfg, n, ys, es, k);
    if forall i :: 0 <= i < |y.effects| ==> !On(y.effects[i], s, n) {
      NoEffectNoContents(y.effects, s, n);
    }
    var i :| 0 <= i < |y.effects| && On(y.effects[i], s, n);
    g := FindHolder(cfg, n, y, y.effects[i].num, s);
  }
}
