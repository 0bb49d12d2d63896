/** Which shards Join moves: the lowest-numbered ones of the fullest groups; the first Join deals them out in turn. */
module ShardJoin {
  import opened Sets
  import opened ShardBalance
  import opened ShardConfig
  import opened ShardChoice

  // ---------- Givers and receivers ----------

  /** The group has given away the front of its list, and then is among the fullest. */
  ghost predicate Gave(start: Assignment, m: Assignment, g: int)
    requires g in start && g in m
  {
    var a, b := start[g], m[g];
    && |b| <= |a| && b == a[|a| - |b|..]
    && (|b| < |a| ==> forall h :: h in m ==> |m[h]| <= |b| + 1)
  }

  /** The group has been given shards at the end of its list, and then is among the emptiest. */
  ghost predicate Got(start: Assignment, m: Assignment, g: int)
    requires g in start && g in m
  {
    var a, b := start[g], m[g];
    a <= b && (|b| > |a| ==> forall h :: h in m ==> |b| <= |m[h]| + 1)
  }

  /** Of two groups that started alike, the one with the smaller id gives first and receives first. */
  ghost predicate Fair(start: Assignment, m: Assignment, g: int, h: int)
    requires g in start && g in m && h in start && h in m
  {
    g < h && |start[g]| == |start[h]| ==>
      || |m[g]| <= |m[h]| <= |start[g]|
      || |m[g]| >= |m[h]| >= |start[g]|
  }

  ghost predicate Orderly(start: Assignment, m: Assignment) {
    && start.Keys == m.Keys && 0 !in m
    && (forall g {:trigger Gave(start, m, g)} {:trigger Got(start, m, g)} :: g in m ==>
          Gave(start, m, g) || Got(start, m, g))
    && (forall g, h {:trigger Fair(start, m, g, h)} :: g in m && h in m ==> Fair(start, m, g, h))
  }

  /** What a round does to the lists. */
  ghost predicate Rounded(m: Assignment, r: Assignment, from: int, to: int) {
    && from in m && to in m && from != to && 0 !in m && m[from] != [] && r.Keys == m.Keys
    && IsMaxGid(m, from) && IsMinGid(m, to) && |m[from]| > |m[to]| + 1
    && r[from] == m[from][1..] && |r[to]| == |m[to]| + 1 && m[to] <= r[to]
    && forall g :: g in m && g != from && g != to ==> r[g] == m[g]
  }

  lemma RoundGives(start: Assignment, m: Assignment, r: Assignment, from: int, to: int, g: int)
    requires Orderly(start, m) && Rounded(m, r, from, to) && g in m
    ensures Gave(start, r, g) || Got(start, r, g)
  {
    assert Gave(start, m, g) || Got(start, m, g);
    if g == from {
      assert Gave(start, m, g);
      var a, b := start[g], m[g];
      assert r[g] == a[|a| - |r[g]|..];
    } else if g == to {
      assert Got(start, m, g);
    } else if |m[g]| > |start[g]| {
      assert Got(start, r, g);
    } else if |m[g]| < |start[g]| {
      assert Gave(start, r, g);
    }
  }

  lemma RoundFair(start: Assignment, m: Assignment, r: Assignment, from: int, to: int, g: int, h: int)
    requires Orderly(start, m) && Rounded(m, r, from, to) && g in m && h in m
    requires forall x :: x in m ==> Gave(start, r, x) || Got(start, r, x)
    ensures Fair(start, r, g, h)
  {
    assert Fair(start, m, g, h);
    assert (Gave(start, m, g) || Got(start, m, g)) && (Gave(start, m, h) || Got(start, m, h));
    assert (Gave(start, r, g) || Got(start, r, g)) && (Gave(start, r, h) || Got(start, r, h));
  }

  lemma RoundOrderly(start: Assignment, m: Assignment)
    requires Orderly(start, m) && HasShard(m) && !ShardBalance.Settled(m) && SomeGroup(m)
    ensures var from, to := MaxGid(m), MinGid(m);
            from in m && m[from] != [] && from != to && Orderly(start, MoveOne(m, from, to))
  {
    var from, to := MaxGid(m), MinGid(m);
    RoundFacts(m);
    assert IsMaxGid(m, from) && IsMinGid(m, to);
    var r := MoveOne(m, from, to);
    assert Rounded(m, r, from, to);
    forall g | g in r ensures Gave(start, r, g) || Got(start, r, g) {
      RoundGives(start, m, r, from, to, g);
    }
    forall g, h | g in r && h in r ensures Fair(start, r, g, h) {
      RoundFair(start, m, r, from, to, g, h);
    }
  }

  lemma {:induction false} RebalanceOrderly(start: Assignment, m: Assignment, owner: seq<int>)
    requires Orderly(start, m) && HasShard(m) && Spread(m, owner) && SomeGroup(m)
    ensures Orderly(start, Rebalance(m, owner).0)
    decreases |ShardsOf(m, 0)|, |ShardsOf(m, MaxGid(m))|, |Peak(m)|
  {
    if !ShardBalance.Settled(m) {
      var from, to := MaxGid(m), MinGid(m);
      RoundFacts(m);
      RoundDecreases(m);
      RoundOrderly(start, m);
      MoveOneSpread(m, owner, from, to);
      assert from in MoveOne(m, from, to);
      RebalanceOrderly(start, MoveOne(m, from, to), owner[m[from][0] := to]);
    }
  }

  lemma JoinOrderly(c: Config, num: int, servers: map<int, seq<string>>)
    requires Valid(c) && c.groups != map[] && 0 !in servers
    ensures var m := Lists(Joined(c, servers), c.shards);
            && HasShard(m) && Orderly(m, Rebalance(m, c.shards).0)
            && m.Keys == Joined(c, servers).Keys
            && Spread(Rebalance(m, c.shards).0, JoinConfig(c, num, servers).shards)
  {
    var groups := Joined(c, servers);
    var m := Lists(groups, c.shards);
    ListsHold(groups, c.shards);
    var g := Pick(c.groups.Keys);
    assert g in groups && g in m;
    forall h | h in m ensures h in groups {
      assert h in c.shards ==> h in c.groups;
    }
    assert forall h :: h in m ==> Gave(m, m, h);
    RebalanceOrderly(m, m, c.shards);
    RebalanceEvens(m, c.shards);
  }

  /** Every group gives away its lowest-numbered shards first. */
  lemma JoinKeepsHighest(c: Config, num: int, servers: map<int, seq<string>>, s: nat, t: nat)
    requires Valid(c) && c.groups != map[] && 0 !in servers && s < t < |c.shards| && c.shards[s] == c.shards[t]
    ensures var d := JoinConfig(c, num, servers);
            |d.shards| == |c.shards| && (d.shards[s] == c.shards[s] ==> d.shards[t] == c.shards[t])
  {
    JoinBalances(c, num, servers);
    JoinOrderly(c, num, servers);
    var d, m, g := JoinConfig(c, num, servers), Lists(Joined(c, servers), c.shards), c.shards[s];
    var r := Rebalance(m, c.shards).0;
    if d.shards[s] == g {
      assert Gave(m, r, g) || Got(m, r, g);
      assert s in m[g] && t in m[g] && s in r[g];
      ListsAscend(Joined(c, servers), c.shards);
      SuffixHolds(m[g], r[g], s, t);
      SpreadOwner(r, d.shards, t, g);
    }
  }

  /** A suffix of an ascending list that has s has every larger element too; so has an extension. */
  lemma SuffixHolds(a: seq<int>, b: seq<int>, s: int, t: int)
    requires forall i, j :: 0 <= i < j < |a| ==> a[i] < a[j]
    requires (|b| <= |a| && b == a[|a| - |b|..]) || a <= b
    requires s in a && t in a && s in b && s < t
    ensures t in b
  {
    var j :| 0 <= j < |a| && a[j] == t;
    if a <= b {
      assert b[j] == t;
    } else {
      var i :| 0 <= i < |b| && b[i] == s;
      assert a[|a| - |b| + i] == s;
      assert j > |a| - |b| + i;
      assert b[j - (|a| - |b|)] == t;
    }
  }

  /** Of two groups that had equally many shards, the one with the smaller id gives first and receives first. */
  lemma JoinIsFair(c: Config, num: int, servers: map<int, seq<string>>, g: int, h: int)
    requires Valid(c) && c.groups != map[] && 0 !in servers && g < h
    requires (g in c.groups || g in servers) && (h in c.groups || h in servers) && |Owned(c, g)| == |Owned(c, h)|
    ensures var d := JoinConfig(c, num, servers);
            || |Owned(d, g)| <= |Owned(d, h)| <= |Owned(c, g)|
            || |Owned(d, g)| >= |Owned(d, h)| >= |Owned(c, g)|
  {
    JoinOrderly(c, num, servers);
    var d, m := JoinConfig(c, num, servers), Lists(Joined(c, servers), c.shards);
    var r := Rebalance(m, c.shards).0;
    assert Fair(m, r, g, h);
    ListSize(m, c, g);
    ListSize(m, c, h);
    ListSize(r, d, g);
    ListSize(r, d, h);
  }

  // ---------- The first Join ----------

  /** The group ids in ascending order. */
  ghost predicate Listed(l: seq<int>, keys: set<int>) {
    (forall i, j :: 0 <= i < j < |l| ==> l[i] < l[j]) && forall g :: g in keys <==> g in l
  }

  /** How many of the first i shards the group at place j gets when they are dealt out in turn. */
  function Share(i: nat, k: nat, j: nat): nat
    requires k > 0
  {
    i / k + if j < i % k then 1 else 0
  }

  lemma ShareNext(i: nat, k: nat, j: nat)
    requires j < k
    ensures Share(i + 1, k, j) == Share(i, k, j) + if j == i % k then 1 else 0
    ensures Share(i, k, i % k) <= Share(i, k, j) && (Share(i, k, i % k) == Share(i, k, j) ==> i % k <= j)
    ensures Share(i, k, j) <= Share(i, k, i % k) + 1
  {
    var q, r := i / k, i % k;
    assert i == q * k + r;
    if r == k - 1 {
      assert i + 1 == (q + 1) * k;
      Divides(q + 1, k, 0);
    } else {
      Divides(q, k, r + 1);
    }
  }

  lemma AtLeastOnce(a: int, k: nat)
    requires a > 0
    ensures a * k >= k
  {
    assert a * k == (a - 1) * k + k;
  }

  /** A number is divided with remainder in one way only. */
  lemma OneQuotient(a: int, b: nat, c: int, d: nat, k: nat)
    requires a * k + b == c * k + d && b < k && d < k
    ensures a == c && b == d
  {
    assert (c - a) * k == c * k - a * k && (a - c) * k == a * k - c * k;
    if a < c {
      AtLeastOnce(c - a, k);
    } else if c < a {
      AtLeastOnce(a - c, k);
    }
  }

  lemma Divides(q: nat, k: nat, r: nat)
    requires r < k
    ensures (q * k + r) / k == q && (q * k + r) % k == r
  {
    var x := q * k + r;
    OneQuotient(x / k, x % k, q, r, k);
  }

  /** The first i shards have been dealt out in turn, the others wait at group 0. */
  ghost predicate Dealt(m: Assignment, owner: seq<int>, l: seq<int>, i: nat) {
    && l != [] && i <= |owner| && 0 !in l && (forall a, b :: 0 <= a < b < |l| ==> l[a] < l[b])
    && (forall g :: g in m <==> g == 0 || g in l)
    && |m[0]| == |owner| - i && (forall a :: 0 <= a < |m[0]| ==> m[0][a] == i + a)
    && (forall j {:trigger l[j]} :: 0 <= j < |l| ==> |m[l[j]]| == Share(i, |l|, j))
    && (forall s :: 0 <= s < i ==> owner[s] == l[s % |l|])
  }

  lemma NextInTurn(m: Assignment, owner: seq<int>, l: seq<int>, i: nat)
    requires Dealt(m, owner, l, i)
    ensures MinGid(m) == l[i % |l|]
  {
    var k := |l|;
    var g := l[i % k];
    forall h | h in m && h != 0 ensures |m[g]| < |m[h]| || (|m[g]| == |m[h]| && g <= h) {
      var j :| 0 <= j < k && l[j] == h;
      ShareNext(i, k, j);
    }
    assert g in m && g != 0;
    assert IsMinGid(m, g);
    ExtremesUnique(m, g, MinGid(m));
  }

  lemma DealOne(m: Assignment, owner: seq<int>, l: seq<int>, i: nat)
    requires Dealt(m, owner, l, i) && i < |owner|
    ensures var g := l[i % |l|]; g != 0 && Dealt(MoveOne(m, 0, g), owner[i := g], l, i + 1)
  {
    var k := |l|;
    var g := l[i % k];
    assert g in l;
    var r := MoveOne(m, 0, g);
    forall j | 0 <= j < k ensures |r[l[j]]| == Share(i + 1, k, j) {
      ShareNext(i, k, j);
      assert l[j] in l;
    }
  }

  lemma {:induction false} DealOut(m: Assignment, owner: seq<int>, l: seq<int>, i: nat)
    requires Dealt(m, owner, l, i) && HasShard(m) && Spread(m, owner)
    ensures var o := Rebalance(m, owner).1; |o| == |owner| && forall s :: 0 <= s < |o| ==> o[s] == l[s % |l|]
    decreases |owner| - i
  {
    NextInTurn(m, owner, l, i);
    assert IsMaxGid(m, MaxGid(m)) && IsMinGid(m, MinGid(m));
    if i < |owner| {
      assert m[0] != [] && MaxGid(m) == 0 && !ShardBalance.Settled(m);
      var g := l[i % |l|];
      RoundFacts(m);
      DealOne(m, owner, l, i);
      MoveOneSpread(m, owner, 0, g);
      DealOut(MoveOne(m, 0, g), owner[i := g], l, i + 1);
    } else {
      AllDealt(m, owner, l);
    }
  }

  lemma AllDealt(m: Assignment, owner: seq<int>, l: seq<int>)
    requires Dealt(m, owner, l, |owner|) && HasShard(m)
    ensures ShardBalance.Settled(m)
  {
    NextInTurn(m, owner, l, |owner|);
    var from, to := MaxGid(m), MinGid(m);
    assert IsMaxGid(m, from) && IsMinGid(m, to) && m[0] == [];
    var h :| h in m && m[h] != [];
    assert from != 0;
    var j :| 0 <= j < |l| && l[j] == from;
    ShareNext(|owner|, |l|, j);
  }

  /** Without members before, Join deals the shards out in turn, in the order of the group ids. */
  lemma FirstJoinDeals(c: Config, num: int, servers: map<int, seq<string>>, l: seq<int>, s: nat)
    requires Valid(c) && c.groups == map[] && servers != map[] && 0 !in servers && Listed(l, servers.Keys)
    requires s < |c.shards|
    ensures |JoinConfig(c, num, servers).shards| == |c.shards|
    ensures l != [] && JoinConfig(c, num, servers).shards[s] == l[s % |l|]
  {
    var groups := Joined(c, servers);
    assert groups == servers;
    var m := Lists(groups, c.shards);
    ListsHold(groups, c.shards);
    var g := Pick(servers.Keys);
    assert g in l;
    StartDealt(c, servers, l);
    DealOut(m, c.shards, l, 0);
  }

  lemma {:induction false} GatherZeros(groups: map<int, seq<string>>, shards: seq<int>, k: nat, g: int)
    requires k <= |shards| && 0 !in groups && forall s :: 0 <= s < |shards| ==> shards[s] == 0
    ensures var m := Gather(groups, shards, k);
            ShardsOf(m, g) == if g == 0 then seq(k, i => i) else []
  {
    if k > 0 {
      GatherZeros(groups, shards, k - 1, g);
      assert seq(k, i => i) == seq(k - 1, i => i) + [k - 1];
    } else {
      assert seq(0, i => i) == [];
    }
  }

  lemma StartDealt(c: Config, servers: map<int, seq<string>>, l: seq<int>)
    requires Valid(c) && c.groups == map[] && 0 !in servers && Listed(l, servers.Keys) && l != []
    ensures Dealt(Lists(servers, c.shards), c.shards, l, 0)
  {
    var m := Lists(servers, c.shards);
    assert c.shards[0] == 0;
    GatherZeros(servers, c.shards, |c.shards|, 0);
    forall g | g in l ensures m[g] == [] {
      GatherZeros(servers, c.shards, |c.shards|, g);
    }
    forall j | 0 <= j < |l| ensures |m[l[j]]| == Share(0, |l|, j) {
      assert l[j] in l;
      Divides(0, |l|, 0);
    }
  }
}
