/**
 Why configurations have to hand a shard over directly.  If a shard is taken from a group, belongs to no
 group for a while and then goes to another group, nobody moves its contents.
 */
module ShardKvUnassigned {
  import opened KvOps
  import opened ShardConfig
  import opened ShardKvGroup
  import opened ShardKvSystem
  import opened ShardKvInvariant
  import opened ShardKvProgress

  /** One shard: first nobody's, then group 1's, then nobody's again, then group 2's. */
  function Interrupted(): seq<Config> {
    [DefaultConfig(1), Config(1, [1], map[]), Config(2, [0], map[]), Config(3, [2], map[])]
  }

  lemma InterruptedIsNumbered()
    ensures Numbered(Interrupted(), 1) && !Handed(Interrupted(), 1)
  {
    var cfg := Interrupted();
    assert DefaultConfig(1).shards == [0];
    assert Keeper(cfg, 1, 0) == 1 && Keeper(cfg, 2, 0) == 1 && Keeper(cfg, 3, 0) == 2;
    assert Changes(cfg, 3, 0);
  }

  lemma RunStarts() returns (ys: seq<System>)
    ensures ys == [Initial({1, 2}, 1)] && IsRun(Interrupted(), 1, ys, [])
  {
    InterruptedIsNumbered();
    ys := [Initial({1, 2}, 1)];
    assert ys[0].groups.Keys == {1, 2};
  }

  /** Group 1 serves the shard and a client writes to it; group 2 has not moved yet. */
  lemma GroupOneWrites() returns (ys: seq<System>, es: seq<Event>)
    ensures IsRun(Interrupted(), 1, ys, es) && ys[|es|].groups.Keys == {1, 2} && Serving(ys[|es|], 1, 0)
    ensures ys[|es|].groups[2].now == Init(2, 1) && Init(2, 1) in ys[|es|].groups[2].past
    ensures ys[|es|].effects == [Effect(Put("a", "x", 7, 1), 1)]
  {
    var cfg := Interrupted();
    ys := RunStarts();
    es := [];
    ys, es := MovesOn(cfg, 1, ys, es, 1);
    var y := ys[|es|];
    var put := Put("a", "x", 7, 1);
    assert TakesEffect(y.groups[1].now, put);
    ys, es := RunGrows(cfg, 1, ys, es, Client(1, put));
  }

  /** Group 2 at configuration k: its shard stays empty and never moves. */
  function GroupTwo(k: nat): Group
    requires k < 4
  {
    Group(2, Interrupted()[k], Interrupted()[if k == 0 then 0 else k - 1], [Empty], map[])
  }

  lemma GroupTwoMoves(k: nat)
    requires k < 3
    ensures ApplyConfig(GroupTwo(k), Interrupted()[k + 1]) == GroupTwo(k + 1)
  {
    assert DefaultConfig(1).shards == [0];
    var now := ApplyConfig(GroupTwo(k), Interrupted()[k + 1]);
    assert now.shards[0] == Empty && now.shards == [Empty];
  }

  lemma {:induction false} GroupTwoCatchesUp(k: nat) returns (ys: seq<System>, es: seq<Event>)
    requires k < 4
    ensures IsRun(Interrupted(), 1, ys, es) && ys[|es|].groups.Keys == {1, 2} && Serving(ys[|es|], 1, 0)
    ensures ys[|es|].groups[2].now == GroupTwo(k) && GroupTwo(k) in ys[|es|].groups[2].past
    ensures ys[|es|].effects == [Effect(Put("a", "x", 7, 1), 1)]
  {
    if k == 0 {
      ys, es := GroupOneWrites();
      assert Init(2, 1).shards == [Empty];
    } else {
      ys, es := GroupTwoCatchesUp(k - 1);
      assert DefaultConfig(1).shards == [0];
      GroupTwoMoves(k - 1);
      ys, es := MovesOn(Interrupted(), 1, ys, es, 2);
    }
  }

  /** Both groups then serve the shard, and group 2 does not know a key that has been written. */
  lemma InterruptedHasTwoServers() returns (ys: seq<System>, es: seq<Event>)
    ensures IsRun(Interrupted(), 1, ys, es)
    ensures Serving(ys[|es|], 1, 0) && Serving(ys[|es|], 2, 0)
    ensures ys[|es|].groups[2].now.shards[0].kv == map[] && "a" in Replay(ys[|es|].effects)
  {
    ys, es := GroupTwoCatchesUp(3);
    assert ys[|es|].effects[..0] == [];
  }
}
