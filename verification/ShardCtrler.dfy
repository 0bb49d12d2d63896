/** The controller's state machine: a list of configurations that Join, Leave and Move extend. */
module ShardCtrler {
  import opened Sets
  import opened Sorting
  import opened ShardBalance
  import opened ShardConfig

  /** No list is longer than the number of shards. */
  ghost predicate Bounded(m: Assignment, n: nat) {
    forall g :: g in m ==> |m[g]| <= n
  }

  lemma SpreadBounded(m: Assignment, owner: seq<int>, orphans: seq<int>)
    requires SpreadBut(m, owner, orphans)
    ensures Bounded(m, |owner|)
  {
    forall g | g in m ensures |m[g]| <= |owner| {
      Fewer(m[g], |owner|);
    }
  }

  /** The keys in ascending order, whatever order the map yields them in. */
  method SortedGids(m: Assignment) returns (gids: seq<int>)
    ensures Ascending(gids) && forall g :: g in gids <==> g in m
  {
    gids := [];
    var left := m.Keys;
    while left != {}
      invariant left <= m.Keys && forall g :: g in gids <==> g in m && g !in left
      decreases |left|
    {
      var g := Visit(left);
      gids, left := gids + [g], left - {g};
    }
    SortedSorts(gids, 0);
    gids := Sorted(gids);
  }

  method GidWithMaxShards(m: Assignment) returns (maxGid: int)
    ensures IsMaxGid(m, maxGid)
  {
    if 0 in m && |m[0]| > 0 {
      return 0;
    }
    var gids := SortedGids(m);
    var maxShards := -1;
    maxGid := -1;
    for i := 0 to |gids|
      invariant i == 0 ==> maxGid == -1 && maxShards == -1
      invariant i > 0 ==> maxGid in m && maxShards == |m[maxGid]| && forall j :: i <= j < |gids| ==> maxGid <= gids[j]
      invariant i > 0 ==> forall j :: 0 <= j < i ==>
            |m[gids[j]]| < maxShards || (|m[gids[j]]| == maxShards && maxGid <= gids[j])
    {
      var gid := gids[i];
      assert gid in m;
      if |m[gid]| > maxShards {
        maxGid, maxShards := gid, |m[gid]|;
      }
    }
    forall h | h in m ensures exists j :: 0 <= j < |gids| && gids[j] == h {
      assert h in gids;
    }
    assert gids == [] ==> forall g :: g !in m;
  }

  method GidWithMinShards(m: Assignment, n: nat) returns (minGid: int)
    requires Bounded(m, n)
    ensures IsMinGid(m, minGid)
  {
    var gids := SortedGids(m);
    var minShards := n + 1;
    ghost var found := false;
    minGid := -1;
    for i := 0 to |gids|
      invariant !found ==> minGid == -1 && minShards == n + 1 && forall j :: 0 <= j < i ==> gids[j] == 0
      invariant found ==> minGid in m && minGid != 0 && minShards == |m[minGid]|
      invariant found ==> forall j :: 0 <= j < i && gids[j] != 0 ==>
            minShards < |m[gids[j]]| || (minShards == |m[gids[j]]| && minGid <= gids[j])
      invariant found ==> forall j :: i <= j < |gids| ==> minGid <= gids[j]
    {
      var gid := gids[i];
      assert gid in m;
      if gid != 0 && |m[gid]| < minShards {
        minGid, minShards, found := gid, |m[gid]|, true;
      }
    }
    forall h | h in m ensures exists j :: 0 <= j < |gids| && gids[j] == h {
      assert h in gids;
    }
  }

  /** The lists of the members and of the owners named in `shards`. */
  method GatherShards(groups: map<int, seq<string>>, shards: seq<int>) returns (gidToShards: Assignment)
    ensures gidToShards == Lists(groups, shards)
  {
    gidToShards := map[];
    var left := groups.Keys;
    while left != {}
      invariant left <= groups.Keys && gidToShards == map g | g in groups && g !in left :: []
      decreases |left|
    {
      var gid := Visit(left);
      gidToShards, left := gidToShards[gid := []], left - {gid};
    }
    for shard := 0 to |shards|
      invariant gidToShards == Gather(groups, shards, shard)
    {
      var gid := shards[shard];
      gidToShards := gidToShards[gid := (if gid in gidToShards then gidToShards[gid] else []) + [shard]];
    }
  }

  /** The owners that the lists name, whatever order the map yields the groups in. */
  method Owners(m: Assignment, n: nat, ghost owner: seq<int>) returns (newShards: seq<int>)
    requires Spread(m, owner) && |owner| == n
    ensures newShards == owner
  {
    newShards := seq(n, i => 0);
    var left := m.Keys;
    while left != {}
      invariant left <= m.Keys && |newShards| == n
      invariant forall s :: 0 <= s < n && owner[s] !in left ==> newShards[s] == owner[s]
      decreases |left|
    {
      var gid := Visit(left);
      for i := 0 to |m[gid]|
        invariant |newShards| == n
        invariant forall s :: 0 <= s < n && (owner[s] !in left || s in m[gid][..i]) ==> newShards[s] == owner[s]
      {
        assert m[gid][..i + 1] == m[gid][..i] + [m[gid][i]];
        newShards := newShards[m[gid][i] := gid];
      }
      assert m[gid][..|m[gid]|] == m[gid];
      left := left - {gid};
    }
  }

  method CopyGroups(groups: map<int, seq<string>>) returns (newGroup: map<int, seq<string>>)
    ensures newGroup == groups
  {
    newGroup := map[];
    var left := groups.Keys;
    while left != {}
      invariant left <= groups.Keys && newGroup == map g | g in groups && g !in left :: groups[g]
      decreases |left|
    {
      var gid := Visit(left);
      newGroup, left := newGroup[gid := groups[gid]], left - {gid};
    }
  }

  /** Adds the groups that are not members yet. */
  method AddGroups(c: Config, servers: map<int, seq<string>>) returns (groups: map<int, seq<string>>)
    ensures groups == Joined(c, servers)
  {
    groups := CopyGroups(c.groups);
    var left := servers.Keys;
    while left != {}
      invariant left <= servers.Keys
      invariant groups == (servers - left) + c.groups
      decreases |left|
    {
      var gid := Visit(left);
      AddOne(c.groups, servers, left, gid);
      if gid !in groups {
        groups := groups[gid := servers[gid]];
      }
      left := left - {gid};
    }
    assert servers - {} == servers;
  }

  lemma AddOne<V>(groups: map<int, V>, servers: map<int, V>, left: set<int>, gid: int)
    requires gid in left && gid in servers
    ensures var was := (servers - left) + groups;
            (servers - (left - {gid})) + groups == if gid in was then was else was[gid := servers[gid]]
  {
  }

  /** One more round leads to the same result. */
  lemma NextRound(m: Assignment, o: seq<int>)
    requires HasShard(m) && Spread(m, o) && !ShardBalance.Settled(m)
    ensures var from, to := MaxGid(m), MinGid(m);
            && from in m && m[from] != [] && from != to && 0 <= m[from][0] < |o|
            && var r, p := MoveOne(m, from, to), o[m[from][0] := to];
               HasShard(r) && Spread(r, p) && Rebalance(m, o) == Rebalance(r, p)
  {
    RoundFacts(m);
    MoveOneSpread(m, o, MaxGid(m), MinGid(m));
  }

  /** The loop of Join: from the fullest group to the emptiest, until they differ by at most one. */
  method BalanceShards(m: Assignment, n: nat, ghost owner: seq<int>)
    returns (gidToShards: Assignment, ghost o: seq<int>)
    requires HasShard(m) && Spread(m, owner) && |owner| == n
    ensures gidToShards == Rebalance(m, owner).0 && o == Rebalance(m, owner).1
    ensures Spread(gidToShards, o) && |o| == n
  {
    gidToShards, o := m, owner;
    while true
      invariant HasShard(gidToShards) && Spread(gidToShards, o) && |o| == n
      invariant Rebalance(m, owner) == Rebalance(gidToShards, o)
      decreases |ShardsOf(gidToShards, 0)|, |ShardsOf(gidToShards, MaxGid(gidToShards))|, |Peak(gidToShards)|
    {
      ghost var was := gidToShards;
      SpreadNoOrphans(was, o);
      SpreadBounded(was, o, []);
      var maxGid := GidWithMaxShards(gidToShards);
      var minGid := GidWithMinShards(gidToShards, n);
      ExtremesUnique(was, maxGid, MaxGid(was));
      ExtremesUnique(was, minGid, MinGid(was));
      if maxGid != 0 && |ShardsOf(gidToShards, maxGid)| - |ShardsOf(gidToShards, minGid)| <= 1 {
        return;
      }
      NextRound(was, o);
      RoundDecreases(was);
      gidToShards := gidToShards[minGid := ShardsOf(gidToShards, minGid) + [gidToShards[maxGid][0]]];
      gidToShards := gidToShards[maxGid := gidToShards[maxGid][1..]];
      assert gidToShards == MoveOne(was, maxGid, minGid);
      o := o[was[maxGid][0] := minGid];
    }
  }

  lemma RemoveNext<V>(m: map<int, V>, gids: seq<int>, i: nat)
    requires i < |gids|
    ensures m - Elements(gids[..i + 1]) == m - Elements(gids[..i]) - {gids[i]}
  {
    assert gids[..i + 1] == gids[..i] + [gids[i]];
  }

  lemma Absent<V>(m: map<int, V>, g: int)
    requires g !in m
    ensures m - {g} == m
  {
  }

  lemma OrphansNext(m: Assignment, gids: seq<int>, i: nat, lost: seq<int>)
    requires i < |gids|
    ensures lost + Orphans(m, gids[i..]) == (lost + ShardsOf(m, gids[i])) + Orphans(m - {gids[i]}, gids[i + 1..])
  {
    assert gids[i..][1..] == gids[i + 1..];
    assert lost + (ShardsOf(m, gids[i]) + Orphans(m - {gids[i]}, gids[i + 1..]))
        == (lost + ShardsOf(m, gids[i])) + Orphans(m - {gids[i]}, gids[i + 1..]);
  }

  /** The loop of Leave that takes the leaving groups out of the members and the lists. */
  method RemoveGroups(groups: map<int, seq<string>>, m: Assignment, gids: seq<int>)
    returns (left: map<int, seq<string>>, gidToShards: Assignment, unassigned: seq<int>)
    ensures left == groups - Elements(gids) && gidToShards == m - Elements(gids) && unassigned == Orphans(m, gids)
  {
    left, gidToShards, unassigned := groups, m, [];
    for i := 0 to |gids|
      invariant left == groups - Elements(gids[..i]) && gidToShards == m - Elements(gids[..i])
      invariant unassigned + Orphans(gidToShards, gids[i..]) == Orphans(m, gids)
    {
      var gid := gids[i];
      RemoveNext(groups, gids, i);
      RemoveNext(m, gids, i);
      OrphansNext(gidToShards, gids, i, unassigned);
      if gid in left {
        left := left - {gid};
      } else {
        Absent(left, gid);
      }
      if gid in gidToShards {
        unassigned := unassigned + gidToShards[gid];
        gidToShards := gidToShards - {gid};
      } else {
        Absent(gidToShards, gid);
        assert unassigned + [] == unassigned;
      }
    }
    assert gids[..|gids|] == gids && unassigned + [] == unassigned;
  }

  /** The loop of Leave that hands each orphan to the emptiest group. */
  method AssignShards(m: Assignment, n: nat, unassigned: seq<int>, ghost owner: seq<int>)
    returns (gidToShards: Assignment, ghost o: seq<int>)
    requires SpreadBut(m, owner, unassigned) && |owner| == n
    ensures gidToShards == Fill(m, unassigned) && o == FillOwner(m, owner, unassigned) && Spread(gidToShards, o)
          && |o| == n
  {
    gidToShards, o := m, owner;
    for i := 0 to |unassigned|
      invariant |o| == n && SpreadBut(gidToShards, o, unassigned[i..])
      invariant Fill(gidToShards, unassigned[i..]) == Fill(m, unassigned)
      invariant FillOwner(gidToShards, o, unassigned[i..]) == FillOwner(m, owner, unassigned)
    {
      SpreadBounded(gidToShards, o, unassigned[i..]);
      var minGid := GidWithMinShards(gidToShards, n);
      ExtremesUnique(gidToShards, minGid, MinGid(gidToShards));
      GiveSpread(gidToShards, o, unassigned[i..], minGid);
      assert unassigned[i..][1..] == unassigned[i + 1..];
      gidToShards := gidToShards[minGid := ShardsOf(gidToShards, minGid) + [unassigned[i]]];
      o := o[unassigned[i] := minGid];
    }
  }

  class CtrlerStateMachine {
    var configs: seq<Config>

    /** There is always a configuration to start from, over at least one shard. */
    ghost predicate Ready()
      reads this
    {
      configs != [] && forall i :: 0 <= i < |configs| ==> configs[i].shards != []
    }

    ghost function Latest(): Config
      requires Ready()
      reads this
    {
      configs[|configs| - 1]
    }

    constructor (n: nat)
      requires n > 0
      ensures Ready() && configs == [DefaultConfig(n)]
    {
      configs := [DefaultConfig(n)];
    }

    /** A number out of range asks for the latest configuration. */
    method Query(num: int) returns (c: Config)
      requires Ready()
      ensures 0 <= num < |configs| ==> c == configs[num]
      ensures !(0 <= num < |configs|) ==> c == Latest()
    {
      if num < 0 || num >= |configs| {
        return configs[|configs| - 1];
      }
      return configs[num];
    }

    method Join(servers: map<int, seq<string>>)
      requires Ready()
      modifies this
      ensures Ready() && configs == old(configs) + [JoinConfig(old(Latest()), |old(configs)|, servers)]
    {
      var last := configs[|configs| - 1];
      var groups := AddGroups(last, servers);
      var gidToShards := GatherShards(groups, last.shards);
      ListsHold(groups, last.shards);
      ghost var o;
      gidToShards, o := BalanceShards(gidToShards, |last.shards|, last.shards);
      var newShards := Owners(gidToShards, |last.shards|, o);
      configs := configs + [Config(|configs|, newShards, groups)];
    }

    method Leave(gids: seq<int>)
      requires Ready()
      modifies this
      ensures Ready() && configs == old(configs) + [LeaveConfig(old(Latest()), |old(configs)|, gids)]
    {
      var last := configs[|configs| - 1];
      var groups := CopyGroups(last.groups);
      var gidToShards := GatherShards(groups, last.shards);
      var unassigned;
      LeaveLists(last, gids);
      groups, gidToShards, unassigned := RemoveGroups(groups, gidToShards, gids);
      var newShards := seq(|last.shards|, i => 0);
      if groups != map[] {
        ghost var o;
        gidToShards, o := AssignShards(gidToShards, |last.shards|, unassigned, last.shards);
        newShards := Owners(gidToShards, |last.shards|, o);
      }
      configs := configs + [Config(|configs|, newShards, groups)];
    }

    method Move(shard: int, gid: int)
      requires Ready() && 0 <= shard < |Latest().shards|
      modifies this
      ensures Ready() && configs == old(configs) + [MoveConfig(old(Latest()), |old(configs)|, shard, gid)]
    {
      var last := configs[|configs| - 1];
      var groups := CopyGroups(last.groups);
      configs := configs + [Config(|configs|, last.shards[shard := gid], groups)];
    }
  }
}
