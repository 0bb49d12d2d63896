/** Who the members are and where their servers are, after each command and along every run of the controller. */
module ShardMembers {
  import opened Sets
  import opened ShardBalance
  import opened ShardConfig

  // ---------- One command ----------

  /** Join adds the groups that are not members yet, with their servers, and leaves the members' servers alone. */
  lemma JoinMembers(c: Config, num: int, servers: map<int, seq<string>>, g: int)
    requires c.shards != []
    ensures var d := JoinConfig(c, num, servers);
            && d.num == num
            && (g in d.groups <==> g in c.groups || g in servers)
            && (g in c.groups ==> d.groups[g] == c.groups[g])
            && (g in servers && g !in c.groups ==> d.groups[g] == servers[g])
  {
  }

  /** Leave removes the groups named and no other. */
  lemma LeaveMembers(c: Config, num: int, gids: seq<int>, g: int)
    ensures var d := LeaveConfig(c, num, gids);
            && d.num == num
            && (g in d.groups <==> g in c.groups && g !in gids)
            && (g in d.groups ==> d.groups[g] == c.groups[g])
  {
  }

  /** Move gives the shard named to the group named and changes nothing else. */
  lemma MoveChanges(c: Config, num: int, shard: nat, gid: int, s: nat)
    requires shard < |c.shards| && s < |c.shards|
    ensures var d := MoveConfig(c, num, shard, gid);
            && d.num == num && |d.shards| == |c.shards| && d.groups == c.groups
            && d.shards[s] == if s == shard then gid else c.shards[s]
  {
  }

  // ---------- Every run ----------

  predicate Names(op: Command, g: int) {
    op.Join? && g in op.servers
  }

  predicate Dismisses(op: Command, g: int) {
    op.Leave? && g in op.gids
  }

  /** The group leaves somewhere between the two commands. */
  ghost predicate LeavesBetween(ops: seq<Command>, k: int, j: int, g: int) {
    exists l :: k < l < j && 0 <= l < |ops| && Dismisses(ops[l], g)
  }

  /** Command j is the first since the group last left, up to command i, in which it joins. */
  ghost predicate BroughtInBy(ops: seq<Command>, i: nat, g: int, j: nat) {
    && j < i <= |ops| && Names(ops[j], g) && !LeavesBetween(ops, j, i, g)
    && forall k :: 0 <= k < j && Names(ops[k], g) ==> LeavesBetween(ops, k, j, g)
  }

  /** The servers of a group are those named when it was brought in. */
  ghost predicate ServersOk(configs: seq<Config>, ops: seq<Command>, i: nat, g: int)
    requires i < |configs|
  {
    && (g in configs[i].groups ==> exists j: nat :: BroughtInBy(ops, i, g, j))
    && forall j: nat {:trigger BroughtInBy(ops, i, g, j)} :: BroughtInBy(ops, i, g, j) ==>
         g in configs[i].groups && configs[i].groups[g] == ops[j].servers[g]
  }

  /** If the group has joined and not left since, some command brought it in. */
  lemma {:induction false} LastJoin(ops: seq<Command>, i: nat, g: int, k: nat)
    requires k < i <= |ops| && Names(ops[k], g) && forall j: nat :: !BroughtInBy(ops, i, g, j)
    ensures LeavesBetween(ops, k, i, g)
    decreases k
  {
    if !LeavesBetween(ops, k, i, g) {
      assert !BroughtInBy(ops, i, g, k);
      var m :| 0 <= m < k && Names(ops[m], g) && !LeavesBetween(ops, m, k, g);
      LastJoin(ops, i, g, m);
    }
  }

  ghost predicate In(ops: seq<Command>, i: nat, g: int) {
    exists j: nat :: BroughtInBy(ops, i, g, j)
  }

  /** Whom one more command brings in. */
  lemma OneMore(ops: seq<Command>, i: nat, g: int, j: nat)
    requires i < |ops|
    ensures BroughtInBy(ops, i + 1, g, j) <==>
              && !Dismisses(ops[i], g)
              && if In(ops, i, g) then BroughtInBy(ops, i, g, j) else j == i && Names(ops[i], g)
  {
    if Dismisses(ops[i], g) && j < i {
      assert LeavesBetween(ops, j, i + 1, g);
    } else if j < i {
      assert LeavesBetween(ops, j, i + 1, g) <==> LeavesBetween(ops, j, i, g);
      assert BroughtInBy(ops, i + 1, g, j) <==> BroughtInBy(ops, i, g, j);
    } else if j == i && Names(ops[i], g) {
      ComesIn(ops, i, g);
    }
  }

  lemma ComesIn(ops: seq<Command>, i: nat, g: int)
    requires i < |ops| && Names(ops[i], g)
    ensures BroughtInBy(ops, i + 1, g, i) <==> !In(ops, i, g)
    ensures !BroughtInBy(ops, i, g, i)
  {
    if In(ops, i, g) {
      var j: nat :| BroughtInBy(ops, i, g, j);
      assert Names(ops[j], g) && !LeavesBetween(ops, j, i, g);
    } else {
      forall k: nat | k < i && Names(ops[k], g) ensures LeavesBetween(ops, k, i, g) {
        LastJoin(ops, i, g, k);
      }
    }
  }

  lemma ServersNext(configs: seq<Config>, ops: seq<Command>, i: nat, g: int)
    requires IsHistory(configs, ops) && i < |ops| && ServersOk(configs, ops, i, g)
    ensures ServersOk(configs, ops, i + 1, g)
  {
    var c, d := configs[i], configs[i + 1];
    HistoryValid(configs, ops, i);
    assert NextAt(c, ops[i], d);
    assert In(ops, i, g) <==> g in c.groups;
    match ops[i] {
      case Join(servers) => JoinMembers(c, c.num + 1, servers, g);
      case Leave(gids) => LeaveMembers(c, c.num + 1, gids, g);
      case Move(shard, gid) => MoveChanges(c, c.num + 1, shard, gid, 0);
    }
    if g in d.groups {
      if g in c.groups {
        var j: nat :| BroughtInBy(ops, i, g, j);
        OneMore(ops, i, g, j);
      } else {
        OneMore(ops, i, g, i);
      }
    }
    forall j: nat | BroughtInBy(ops, i + 1, g, j) ensures g in d.groups && d.groups[g] == ops[j].servers[g] {
      OneMore(ops, i, g, j);
    }
  }

  /** A group is a member, with the servers named then, exactly if some Join brought it in since it last left. */
  lemma {:induction false} HistoryServers(configs: seq<Config>, ops: seq<Command>, i: nat, g: int)
    requires IsHistory(configs, ops) && i < |configs|
    ensures ServersOk(configs, ops, i, g)
  {
    if i > 0 {
      HistoryServers(configs, ops, i - 1, g);
      ServersNext(configs, ops, i - 1, g);
    }
  }
}
