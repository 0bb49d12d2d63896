/**
 The controller's configurations: which group owns each shard, and what Join, Leave and Move make of it.
 */
module ShardConfig {
  import opened Sets
  import opened ShardBalance

  /** The number of shards is |shards|; group 0 stands for "no group". */
  datatype Config = Config(num: int, shards: seq<int>, groups: map<int, seq<string>>)

  function DefaultConfig(n: nat): Config {
    Config(0, seq(n, i => 0), map[])
  }

  /** With members every shard belongs to one of them; without, every shard belongs to group 0. */
  ghost predicate Valid(c: Config) {
    && c.shards != [] && 0 !in c.groups
    && forall s :: 0 <= s < |c.shards| ==> if c.groups == map[] then c.shards[s] == 0 else c.shards[s] in c.groups
  }

  ghost function Owned(c: Config, g: int): set<int> {
    set s | 0 <= s < |c.shards| && c.shards[s] == g
  }

  /** The numbers of shards of any two members differ by at most one. */
  ghost predicate Balanced(c: Config) {
    forall g, h :: g in c.groups && h in c.groups ==> |Owned(c, g)| <= |Owned(c, h)| + 1
  }

  // ---------- From owners to lists ----------

  /** Each member's list, and the first k shards appended to the lists of their owners. */
  function Gather(groups: map<int, seq<string>>, shards: seq<int>, k: nat): Assignment
    requires k <= |shards|
  {
    if k == 0 then map g | g in groups :: []
    else Give(Gather(groups, shards, k - 1), shards[k - 1], k - 1)
  }

  lemma {:induction false} GatherUpTo(groups: map<int, seq<string>>, shards: seq<int>, k: nat)
    requires k <= |shards|
    ensures var m := Gather(groups, shards, k);
            && Spread(m, shards[..k])
            && (forall g :: g in m <==> g in groups || g in shards[..k])
  {
    if k > 0 {
      GatherUpTo(groups, shards, k - 1);
      var m, g := Gather(groups, shards, k - 1), shards[k - 1];
      assert shards[..k] == shards[..k - 1] + [g];
      GatherOne(m, shards[..k - 1], g);
    }
  }

  /** Appending one shard to the list of its owner. */
  lemma GatherOne(m: Assignment, owner: seq<int>, g: int)
    requires Spread(m, owner)
    ensures Spread(Give(m, g, |owner|), owner + [g])
  {
    var r, o := Give(m, g, |owner|), owner + [g];
    forall h, i | h in r && 0 <= i < |r[h]|
      ensures r[h][i] == (if h == g && i == |ShardsOf(m, g)| then |owner| else ShardsOf(m, h)[i])
      ensures 0 <= r[h][i] < |o| && o[r[h][i]] == h
    {
    }
    forall h, i, j | h in r && 0 <= i < j < |r[h]| ensures r[h][i] != r[h][j] {
      assert h in m && r[h][i] == m[h][i];
    }
    forall s | 0 <= s < |o| ensures o[s] in r && s in r[o[s]] {
      if s == |owner| {
        assert r[g][|r[g]| - 1] == s;
      } else {
        var i :| 0 <= i < |m[o[s]]| && m[o[s]][i] == s;
        assert r[o[s]][i] == s;
      }
    }
  }

  /** The lists of a whole configuration. */
  function Lists(groups: map<int, seq<string>>, shards: seq<int>): (m: Assignment)
    ensures Spread(m, shards) && (forall g :: g in m <==> g in groups || g in shards)
  {
    GatherUpTo(groups, shards, |shards|);
    assert shards[..|shards|] == shards;
    Gather(groups, shards, |shards|)
  }

  lemma {:induction false} DistinctSize(l: seq<int>, s: set<int>)
    requires forall i, j :: 0 <= i < j < |l| ==> l[i] != l[j]
    requires forall x :: x in s <==> x in l
    ensures |s| == |l|
  {
    if l == [] {
      assert forall x :: x !in s;
    } else {
      var n := |l| - 1;
      assert l == l[..n] + [l[n]];
      DistinctSize(l[..n], s - {l[n]});
      assert s == (s - {l[n]}) + {l[n]};
    }
  }

  /** A group's list is as long as the set of shards it owns. */
  lemma ListSize(m: Assignment, c: Config, g: int)
    requires Spread(m, c.shards) && g in m
    ensures |m[g]| == |Owned(c, g)|
  {
    forall x ensures x in Owned(c, g) <==> x in m[g] {
      if x in Owned(c, g) {
        SpreadOwner(m, c.shards, x, g);
      }
    }
    DistinctSize(m[g], Owned(c, g));
  }

  lemma EvenIsBalanced(m: Assignment, c: Config)
    requires Spread(m, c.shards) && m.Keys == c.groups.Keys && 0 !in m
    ensures Even(m) <==> Balanced(c)
  {
    forall g | g in m ensures |m[g]| == |Owned(c, g)| {
      ListSize(m, c, g);
    }
  }

  lemma {:induction false} Fewer(l: seq<int>, n: nat)
    requires forall i :: 0 <= i < |l| ==> 0 <= l[i] < n
    requires forall i, j :: 0 <= i < j < |l| ==> l[i] != l[j]
    ensures |l| <= n
  {
    var s: set<nat> := set x: nat | x in l;
    DistinctSize(l, s);
    SubsetSize(s, Below(n));
  }

  // ---------- Join ----------

  /** The members afterwards: a group that is a member already keeps its servers. */
  function Joined(c: Config, servers: map<int, seq<string>>): map<int, seq<string>> {
    servers + c.groups
  }

  lemma ListsHold(groups: map<int, seq<string>>, shards: seq<int>)
    requires shards != []
    ensures HasShard(Lists(groups, shards))
  {
    var m := Lists(groups, shards);
    assert shards[0] in m && m[shards[0]] != [];
  }

  ghost function JoinConfig(c: Config, num: int, servers: map<int, seq<string>>): Config
    requires c.shards != []
  {
    ListsHold(Joined(c, servers), c.shards);
    Config(num, Rebalance(Lists(Joined(c, servers), c.shards), c.shards).1, Joined(c, servers))
  }

  /** With a member, Join leaves every shard with a member and the members even. */
  lemma JoinBalances(c: Config, num: int, servers: map<int, seq<string>>)
    requires Valid(c) && 0 !in servers && Joined(c, servers) != map[]
    ensures Valid(JoinConfig(c, num, servers)) && Balanced(JoinConfig(c, num, servers))
    ensures |JoinConfig(c, num, servers).shards| == |c.shards|
  {
    var groups, d := Joined(c, servers), JoinConfig(c, num, servers);
    var m := Lists(groups, c.shards);
    ListsHold(groups, c.shards);
    var g := Pick(groups.Keys);
    assert g in m && g != 0;
    RebalanceEvens(m, c.shards);
    var r := Rebalance(m, c.shards).0;
    forall s | 0 <= s < |d.shards| ensures d.shards[s] in groups {
      assert s in r[d.shards[s]];
    }
    forall h | h in groups ensures |r[h]| == |Owned(d, h)| {
      ListSize(r, d, h);
    }
  }

  /** Without one, every shard goes to group -1, which no one serves. */
  lemma JoinNobody(c: Config, num: int, servers: map<int, seq<string>>)
    requires Valid(c) && Joined(c, servers) == map[]
    ensures var d := JoinConfig(c, num, servers);
            d.groups == map[] && |d.shards| == |c.shards| && forall s :: 0 <= s < |d.shards| ==> d.shards[s] == -1
  {
    var m := Lists(map[], c.shards);
    assert c.groups.Keys <= Joined(c, servers).Keys;
    ListsHold(map[], c.shards);
    RebalanceNowhere(m, c.shards);
  }

  /** Join keeps configurations valid exactly if it leaves some member. */
  lemma JoinValidIff(c: Config, num: int, servers: map<int, seq<string>>)
    requires Valid(c) && 0 !in servers
    ensures Valid(JoinConfig(c, num, servers)) <==> c.groups != map[] || servers != map[]
  {
    assert Joined(c, servers).Keys == c.groups.Keys + servers.Keys;
    if Joined(c, servers) == map[] {
      JoinNobody(c, num, servers);
      assert JoinConfig(c, num, servers).shards[0] == -1;
    } else {
      JoinBalances(c, num, servers);
    }
  }

  /** From a balanced configuration, a shard moves only if a group that just joined receives it. */
  lemma JoinMovesToNew(c: Config, num: int, servers: map<int, seq<string>>, s: nat)
    requires Valid(c) && Balanced(c) && c.groups != map[] && 0 !in servers && s < |c.shards|
    ensures var d := JoinConfig(c, num, servers);
            s < |d.shards| && (d.shards[s] == c.shards[s] || (d.shards[s] in servers && d.shards[s] !in c.groups))
  {
    var groups := Joined(c, servers);
    var m, new_ := Lists(groups, c.shards), groups.Keys - c.groups.Keys;
    ListsHold(groups, c.shards);
    forall g | g in m ensures |m[g]| == |Owned(c, g)| && (g in new_ ==> m[g] == []) && g in groups {
      ListSize(m, c, g);
    }
    RebalanceMovesToNew(m, c.shards, new_, s);
    assert c.shards[s] in c.groups;
  }

  // ---------- Leave ----------

  /** The shards that become orphans, in the order in which the groups are named. */
  function Orphans(m: Assignment, gids: seq<int>): seq<int> {
    if gids == [] then []
    else ShardsOf(m, gids[0]) + Orphans(m - {gids[0]}, gids[1..])
  }

  /** Removing one group turns its shards into orphans. */
  lemma RemoveOne(m: Assignment, owner: seq<int>, lost: seq<int>, g: int)
    requires SpreadBut(m, owner, lost)
    ensures SpreadBut(m - {g}, owner, lost + ShardsOf(m, g))
  {
    var r, l, more := m - {g}, lost + ShardsOf(m, g), ShardsOf(m, g);
    forall h, i | h in r && 0 <= i < |r[h]| ensures 0 <= r[h][i] < |owner| && owner[r[h][i]] == h && r[h][i] !in l {
      assert r[h][i] == m[h][i];
      assert r[h][i] !in more;
    }
    forall h, i, j | h in r && 0 <= i < j < |r[h]| ensures r[h][i] != r[h][j] {
      assert r[h] == m[h];
    }
    forall s | 0 <= s < |owner| && s !in l ensures owner[s] in r && s in r[owner[s]] {
      assert s !in lost && s !in more;
    }
    forall i | 0 <= i < |l| ensures 0 <= l[i] < |owner| {
      assert i < |lost| || l[i] == m[g][i - |lost|];
    }
    forall i, j | 0 <= i < j < |l| ensures l[i] != l[j] {
      if j >= |lost| {
        assert l[j] == m[g][j - |lost|] && l[j] !in lost;
        assert i < |lost| ==> l[i] in lost;
        assert i >= |lost| ==> l[i] == m[g][i - |lost|];
      }
    }
  }

  lemma RemoveOrder(m: Assignment, gids: seq<int>)
    requires gids != []
    ensures m - {gids[0]} - Elements(gids[1..]) == m - Elements(gids)
  {
    assert gids == [gids[0]] + gids[1..];
  }

  lemma {:induction false} RemoveAll(m: Assignment, owner: seq<int>, lost: seq<int>, gids: seq<int>)
    requires SpreadBut(m, owner, lost)
    ensures SpreadBut(m - Elements(gids), owner, lost + Orphans(m, gids))
    decreases |gids|
  {
    if gids == [] {
      assert m - Elements(gids) == m && lost + Orphans(m, gids) == lost;
    } else {
      var g, rest := gids[0], gids[1..];
      RemoveOne(m, owner, lost, g);
      RemoveAll(m - {g}, owner, lost + ShardsOf(m, g), rest);
      RemoveOrder(m, gids);
      assert lost + ShardsOf(m, g) + Orphans(m - {g}, rest) == lost + (ShardsOf(m, g) + Orphans(m - {g}, rest));
    }
  }

  lemma SpreadNoOrphans(m: Assignment, owner: seq<int>)
    requires Spread(m, owner)
    ensures SpreadBut(m, owner, [])
  {
  }

  /** What is left of the lists, and the orphans. */
  lemma LeaveLists(c: Config, gids: seq<int>)
    ensures var m := Lists(c.groups, c.shards);
            SpreadBut(m - Elements(gids), c.shards, Orphans(m, gids))
  {
    var m := Lists(c.groups, c.shards);
    SpreadNoOrphans(m, c.shards);
    RemoveAll(m, c.shards, [], gids);
    assert [] + Orphans(m, gids) == Orphans(m, gids);
  }

  ghost function LeaveConfig(c: Config, num: int, gids: seq<int>): Config {
    var m, groups := Lists(c.groups, c.shards), c.groups - Elements(gids);
    LeaveLists(c, gids);
    Config(num,
           if groups == map[] then seq(|c.shards|, i => 0)
           else FillOwner(m - Elements(gids), c.shards, Orphans(m, gids)),
           groups)
  }

  /** The lists of the groups that stay. */
  function Staying(c: Config, gids: seq<int>): Assignment {
    Lists(c.groups, c.shards) - Elements(gids)
  }

  lemma StayingGroups(c: Config, gids: seq<int>)
    requires Valid(c) && c.groups - Elements(gids) != map[]
    ensures Staying(c, gids).Keys == (c.groups - Elements(gids)).Keys
    ensures 0 !in Staying(c, gids) && SomeGroup(Staying(c, gids))
  {
    var groups := c.groups - Elements(gids);
    var g := Pick(groups.Keys);
    assert g in c.groups && g in Staying(c, gids);
  }

  /** The lists that Leave ends with. */
  lemma LeaveSpread(c: Config, num: int, gids: seq<int>)
    requires Valid(c) && c.groups - Elements(gids) != map[]
    ensures var d, r := LeaveConfig(c, num, gids), Fill(Staying(c, gids), Orphans(Lists(c.groups, c.shards), gids));
            Spread(r, d.shards) && r.Keys == d.groups.Keys && |d.shards| == |c.shards|
  {
    LeaveLists(c, gids);
    StayingGroups(c, gids);
    FillKeepsGroups(Staying(c, gids), Orphans(Lists(c.groups, c.shards), gids));
  }

  /** Leave keeps configurations valid; if no member remains, every shard is back at group 0. */
  lemma LeaveValid(c: Config, num: int, gids: seq<int>)
    requires Valid(c)
    ensures Valid(LeaveConfig(c, num, gids)) && |LeaveConfig(c, num, gids).shards| == |c.shards|
  {
    var d := LeaveConfig(c, num, gids);
    if d.groups != map[] {
      LeaveSpread(c, num, gids);
    }
  }

  /** A shard whose owner stays does not move. */
  lemma LeaveMovesOrphans(c: Config, num: int, gids: seq<int>, s: nat)
    requires Valid(c) && s < |c.shards| && c.shards[s] in c.groups && c.shards[s] !in gids
    ensures s < |LeaveConfig(c, num, gids).shards| && LeaveConfig(c, num, gids).shards[s] == c.shards[s]
  {
    var d, m, g := LeaveConfig(c, num, gids), Staying(c, gids), c.shards[s];
    assert g in d.groups;
    LeaveSpread(c, num, gids);
    StayingGroups(c, gids);
    var orphans := Orphans(Lists(c.groups, c.shards), gids);
    FillKeepsGroups(m, orphans);
    SpreadOwner(Lists(c.groups, c.shards), c.shards, s, g);
    assert m[g] <= Fill(m, orphans)[g] && s in m[g];
    var i :| 0 <= i < |m[g]| && m[g][i] == s;
    assert Fill(m, orphans)[g][i] == s;
  }

  // ---------- When Leave balances ----------

  lemma {:induction false} GatherTotal(c: Config, k: nat)
    requires Valid(c) && c.groups != map[] && k <= |c.shards|
    ensures var m := Gather(c.groups, c.shards, k); m.Keys == c.groups.Keys && Total(m, m.Keys) == k
  {
    if k == 0 {
      EmptyTotal(Gather(c.groups, c.shards, 0), c.groups.Keys);
    } else {
      GatherTotal(c, k - 1);
      var m, g := Gather(c.groups, c.shards, k - 1), c.shards[k - 1];
      var r := Give(m, g, k - 1);
      assert r.Keys == m.Keys;
      TotalSplit(m, m.Keys, g);
      TotalSplit(r, r.Keys, g);
      TotalSame(m, r, m.Keys - {g});
    }
  }

  lemma {:induction false} EmptyTotal(m: Assignment, keys: set<int>)
    requires keys <= m.Keys && forall g :: g in keys ==> m[g] == []
    ensures Total(m, keys) == 0
    decreases |keys|
  {
    if keys != {} {
      EmptyTotal(m, keys - {Choose(keys)});
    }
  }

  /** What the leaving groups lose becomes orphans. */
  lemma {:induction false} OrphansTotal(m: Assignment, gids: seq<int>)
    ensures Total(m, m.Keys) == Total(m - Elements(gids), (m - Elements(gids)).Keys) + |Orphans(m, gids)|
    decreases |gids|
  {
    if gids == [] {
      assert m - Elements(gids) == m;
    } else {
      var g, rest := gids[0], gids[1..];
      OrphansTotal(m - {g}, rest);
      RemoveOrder(m, gids);
      if g in m {
        TotalSplit(m, m.Keys, g);
        assert (m - {g}).Keys == m.Keys - {g};
        TotalSame(m, m - {g}, m.Keys - {g});
      } else {
        assert m - {g} == m;
      }
    }
  }

  /**
   Leave ends balanced exactly if k(M - 1) + p is at most the number of shards, where k groups stay, M is
   the most shards one of them owns and p of them own as many.
   */
  lemma LeaveBalancedIff(c: Config, num: int, gids: seq<int>)
    requires Valid(c) && c.groups - Elements(gids) != map[]
    ensures Balanced(LeaveConfig(c, num, gids)) <==> CanBeEven(Staying(c, gids), |c.shards|)
  {
    var m, all := Staying(c, gids), Lists(c.groups, c.shards);
    StayingGroups(c, gids);
    LeaveEven(c, num, gids);
    FillEvenIff(m, Orphans(all, gids));
    GatherTotal(c, |c.shards|);
    OrphansTotal(all, gids);
  }

  lemma LeaveEven(c: Config, num: int, gids: seq<int>)
    requires Valid(c) && c.groups - Elements(gids) != map[]
    ensures Balanced(LeaveConfig(c, num, gids)) <==>
          Even(Fill(Staying(c, gids), Orphans(Lists(c.groups, c.shards), gids)))
  {
    LeaveSpread(c, num, gids);
    StayingGroups(c, gids);
    EvenIsBalanced(Fill(Staying(c, gids), Orphans(Lists(c.groups, c.shards), gids)), LeaveConfig(c, num, gids));
  }

  /** From a balanced configuration Leave ends balanced. */
  lemma LeaveKeepsBalance(c: Config, num: int, gids: seq<int>)
    requires Valid(c) && Balanced(c)
    ensures Balanced(LeaveConfig(c, num, gids))
  {
    if c.groups - Elements(gids) != map[] {
      var m, all := Staying(c, gids), Lists(c.groups, c.shards);
      StayingGroups(c, gids);
      forall g | g in m ensures |m[g]| == |Owned(c, g)| && g in c.groups {
        ListSize(all, c, g);
      }
      EvenCanStayEven(m, Orphans(all, gids));
      LeaveEven(c, num, gids);
    }
  }

  // ---------- Move ----------

  function MoveConfig(c: Config, num: int, shard: nat, gid: int): Config
    requires shard < |c.shards|
  {
    Config(num, c.shards[shard := gid], c.groups)
  }

  /** Move keeps configurations valid exactly if its target is a member, or group 0 when there is none. */
  lemma MoveValidIff(c: Config, num: int, shard: nat, gid: int)
    requires Valid(c) && shard < |c.shards|
    ensures Valid(MoveConfig(c, num, shard, gid)) <==> if c.groups == map[] then gid == 0 else gid in c.groups
  {
    assert MoveConfig(c, num, shard, gid).shards[shard] == gid;
  }

  // ---------- Every run ----------

  datatype Command =
    | Join(servers: map<int, seq<string>>)
    | Leave(gids: seq<int>)
    | Move(shard: int, gid: int)

  /** Joining groups have nonzero ids and leave some member; Move names a shard and a member. */
  ghost predicate Proper(c: Config, op: Command) {
    match op
    case Join(servers) => 0 !in servers && Joined(c, servers) != map[]
    case Leave(_) => true
    case Move(shard, gid) => 0 <= shard < |c.shards| && gid in c.groups
  }

  ghost function Next(c: Config, op: Command): Config
    requires Valid(c) && Proper(c, op)
  {
    match op
    case Join(servers) => JoinConfig(c, c.num + 1, servers)
    case Leave(gids) => LeaveConfig(c, c.num + 1, gids)
    case Move(shard, gid) => MoveConfig(c, c.num + 1, shard, gid)
  }

  /** The configurations that a list of commands produces one after another. */
  ghost predicate IsHistory(configs: seq<Config>, ops: seq<Command>) {
    && |configs| == |ops| + 1
    && configs[0].shards != [] && configs[0] == DefaultConfig(|configs[0].shards|)
    && forall i :: 0 <= i < |ops| ==> NextAt(configs[i], ops[i], configs[i + 1])
  }

  ghost predicate NextAt(c: Config, op: Command, d: Config) {
    Valid(c) ==> Proper(c, op) && d == Next(c, op)
  }

  /** Along every run all configurations are valid and numbered in order. */
  lemma {:induction false} HistoryValid(configs: seq<Config>, ops: seq<Command>, i: nat)
    requires IsHistory(configs, ops) && i < |configs|
    ensures Valid(configs[i]) && configs[i].num == i && |configs[i].shards| == |configs[0].shards|
  {
    if i > 0 {
      HistoryValid(configs, ops, i - 1);
      var c, d := configs[i - 1], configs[i];
      assert NextAt(c, ops[i - 1], d);
      match ops[i - 1]
      case Join(servers) => JoinBalances(c, c.num + 1, servers);
      case Leave(gids) => LeaveValid(c, c.num + 1, gids);
      case Move(shard, gid) => MoveValidIff(c, c.num + 1, shard, gid);
    }
  }

  /** A command extends the run by the configuration that the state machine appends. */
  lemma HistoryGrows(configs: seq<Config>, ops: seq<Command>, op: Command)
    requires IsHistory(configs, ops) && Proper(configs[|ops|], op)
    ensures var c := configs[|ops|];
            Valid(c) && c.num + 1 == |configs| && IsHistory(configs + [Next(c, op)], ops + [op])
  {
    HistoryValid(configs, ops, |ops|);
    var d, p := configs + [Next(configs[|ops|], op)], ops + [op];
    forall i | 0 <= i < |p| ensures NextAt(d[i], p[i], d[i + 1]) {
      assert i < |ops| ==> NextAt(configs[i], ops[i], configs[i + 1]);
    }
  }

  /** No Move is left standing: since the last one there has been a Join. */
  ghost predicate Healed(ops: seq<Command>, i: nat)
    requires i <= |ops|
  {
    i == 0 || ops[i - 1].Join? || (ops[i - 1].Leave? && Healed(ops, i - 1))
  }

  /** A run is balanced whenever every Move has been followed by a Join. */
  lemma {:induction false} HistoryBalanced(configs: seq<Config>, ops: seq<Command>, i: nat)
    requires IsHistory(configs, ops) && i <= |ops| && Healed(ops, i)
    ensures Balanced(configs[i])
  {
    if i > 0 {
      HistoryValid(configs, ops, i - 1);
      var c := configs[i - 1];
      assert NextAt(c, ops[i - 1], configs[i]);
      match ops[i - 1]
      case Join(servers) => JoinBalances(c, c.num + 1, servers);
      case Leave(gids) =>
        HistoryBalanced(configs, ops, i - 1);
        LeaveKeepsBalance(c, c.num + 1, gids);
    }
  }
}
