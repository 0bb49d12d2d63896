/**
 How the controller spreads shards over groups.  An assignment lists each group's shards; group 0 holds
 the shards that have no group.
 */
module ShardBalance {
  import opened Sets

  type Assignment = map<int, seq<int>>

  function ShardsOf(m: Assignment, g: int): seq<int> {
    if g in m then m[g] else []
  }

  // ---------- The two extreme groups ----------

  /** The group with the fewest shards, the smallest one in case of a tie; -1 if there is no group. */
  ghost predicate IsMinGid(m: Assignment, g: int) {
    if forall h :: h in m ==> h == 0 then g == -1
    else g in m && g != 0 && forall h :: h in m && h != 0 ==> |m[g]| < |m[h]| || (|m[g]| == |m[h]| && g <= h)
  }

  /** Group 0 while it holds shards, else the group with the most shards; -1 if there is none. */
  ghost predicate IsMaxGid(m: Assignment, g: int) {
    if ShardsOf(m, 0) != [] then g == 0
    else if m == map[] then g == -1
    else g in m && forall h :: h in m ==> |m[g]| > |m[h]| || (|m[g]| == |m[h]| && g <= h)
  }

  lemma {:induction false} LeastExists(m: Assignment, keys: set<int>) returns (g: int)
    requires keys != {} && forall h :: h in keys ==> h in m
    ensures g in keys && forall h :: h in keys ==> |m[g]| < |m[h]| || (|m[g]| == |m[h]| && g <= h)
    decreases |keys|
  {
    g := Pick(keys);
    if keys != {g} {
      var k := LeastExists(m, keys - {g});
      if |m[k]| < |m[g]| || (|m[k]| == |m[g]| && k < g) {
        g := k;
      }
    }
  }

  lemma {:induction false} MostExists(m: Assignment, keys: set<int>) returns (g: int)
    requires keys != {} && forall h :: h in keys ==> h in m
    ensures g in keys && forall h :: h in keys ==> |m[g]| > |m[h]| || (|m[g]| == |m[h]| && g <= h)
    decreases |keys|
  {
    g := Pick(keys);
    if keys != {g} {
      var k := MostExists(m, keys - {g});
      if |m[k]| > |m[g]| || (|m[k]| == |m[g]| && k < g) {
        g := k;
      }
    }
  }

  lemma ExtremesExist(m: Assignment)
    ensures exists g :: IsMinGid(m, g)
    ensures exists g :: IsMaxGid(m, g)
  {
    if forall h :: h in m ==> h == 0 {
      assert IsMinGid(m, -1);
    } else {
      var h :| h in m && h != 0;
      assert h in m.Keys - {0};
      var g := LeastExists(m, m.Keys - {0});
      assert IsMinGid(m, g);
    }
    if ShardsOf(m, 0) != [] {
      assert IsMaxGid(m, 0);
    } else if m == map[] {
      assert IsMaxGid(m, -1);
    } else {
      var g := MostExists(m, m.Keys);
      assert IsMaxGid(m, g);
    }
  }

  /** There is only one such group: every replica finds the same, in whatever order it visits the map. */
  lemma ExtremesUnique(m: Assignment, g: int, h: int)
    ensures IsMinGid(m, g) && IsMinGid(m, h) ==> g == h
    ensures IsMaxGid(m, g) && IsMaxGid(m, h) ==> g == h
  {
  }

  ghost function MinGid(m: Assignment): (g: int)
    ensures IsMinGid(m, g)
  {
    ExtremesExist(m);
    var g :| IsMinGid(m, g);
    g
  }

  ghost function MaxGid(m: Assignment): (g: int)
    ensures IsMaxGid(m, g)
  {
    ExtremesExist(m);
    var g :| IsMaxGid(m, g);
    g
  }

  // ---------- Every shard in one place ----------

  /** The lists hold each shard once, under its owner. */
  ghost predicate Spread(m: Assignment, owner: seq<int>) {
    && (forall g, i :: g in m && 0 <= i < |m[g]| ==> 0 <= m[g][i] < |owner| && owner[m[g][i]] == g)
    && (forall g, i, j :: g in m && 0 <= i < j < |m[g]| ==> m[g][i] != m[g][j])
    && (forall s :: 0 <= s < |owner| ==> owner[s] in m && s in m[owner[s]])
  }

  /** Moves the first shard of one group to the end of another. */
  function MoveOne(m: Assignment, from: int, to: int): (r: Assignment)
    requires from in m && m[from] != [] && from != to
  {
    m[to := ShardsOf(m, to) + [m[from][0]]][from := m[from][1..]]
  }

  lemma MoveOneSpread(m: Assignment, owner: seq<int>, from: int, to: int)
    requires Spread(m, owner) && from in m && m[from] != [] && from != to
    ensures Spread(MoveOne(m, from, to), owner[m[from][0] := to])
  {
    var r, x := MoveOne(m, from, to), m[from][0];
    var owner' := owner[x := to];
    assert forall i :: 0 < i < |m[from]| ==> m[from][i] != x;
    forall g, i | g in r && 0 <= i < |r[g]| ensures 0 <= r[g][i] < |owner'| && owner'[r[g][i]] == g {
      if g == from {
        assert r[g][i] == m[from][i + 1];
      } else if !(g == to && i == |ShardsOf(m, to)|) {
        assert r[g][i] == m[g][i];
      }
    }
    forall g, i, j | g in r && 0 <= i < j < |r[g]| ensures r[g][i] != r[g][j] {
      if g == from {
        assert r[g][i] == m[from][i + 1] && r[g][j] == m[from][j + 1];
      } else if g == to && j == |ShardsOf(m, to)| {
        assert r[g][i] == m[g][i] && r[g][j] == x;
      } else {
        assert r[g][i] == m[g][i] && r[g][j] == m[g][j];
      }
    }
    forall s | 0 <= s < |owner'| ensures owner'[s] in r && s in r[owner'[s]] {
      MoveOneHolds(m, owner, from, to, s);
    }
  }

  lemma MoveOneHolds(m: Assignment, owner: seq<int>, from: int, to: int, s: nat)
    requires Spread(m, owner) && from in m && m[from] != [] && from != to && s < |owner|
    ensures var g := owner[m[from][0] := to][s];
            g in MoveOne(m, from, to) && s in MoveOne(m, from, to)[g]
  {
    var r, x, g := MoveOne(m, from, to), m[from][0], owner[s];
    var i :| 0 <= i < |m[g]| && m[g][i] == s;
    if s == x {
      assert r[to][|r[to]| - 1] == s;
    } else if g == from {
      assert r[from][i - 1] == s;
    } else {
      assert r[g][i] == s;
    }
  }

  /** Two assignments of the same owners hold the same shards in each group. */
  lemma SpreadOwner(m: Assignment, owner: seq<int>, s: nat, g: int)
    requires Spread(m, owner) && s < |owner|
    ensures owner[s] == g <==> g in m && s in m[g]
  {
  }

  // ---------- Join: move shards until the groups are even ----------

  ghost predicate HasShard(m: Assignment) {
    exists g :: g in m && m[g] != []
  }

  /** The loop's exit test. */
  ghost predicate Settled(m: Assignment) {
    MaxGid(m) != 0 && |ShardsOf(m, MaxGid(m))| - |ShardsOf(m, MinGid(m))| <= 1
  }

  ghost function Peak(m: Assignment): set<int> {
    set g | g in m && |m[g]| == |ShardsOf(m, MaxGid(m))|
  }

  /** A round of the loop is possible, and makes progress. */
  lemma RoundFacts(m: Assignment)
    requires HasShard(m) && !Settled(m)
    ensures var from, to := MaxGid(m), MinGid(m);
            && from in m && m[from] != [] && from != to && to != 0 && HasShard(MoveOne(m, from, to))
  {
    var g :| g in m && m[g] != [];
    var from, to := MaxGid(m), MinGid(m);
    assert IsMaxGid(m, from) && IsMinGid(m, to);
    var r := MoveOne(m, from, to);
    assert r[to] != [];
  }

  lemma RoundProgress(m: Assignment)
    requires HasShard(m) && !Settled(m) && MaxGid(m) != 0
    ensures var r := MoveOne(m, MaxGid(m), MinGid(m));
            && ShardsOf(r, 0) == ShardsOf(m, 0) == []
            && |ShardsOf(r, MaxGid(r))| <= |ShardsOf(m, MaxGid(m))|
            && (|ShardsOf(r, MaxGid(r))| == |ShardsOf(m, MaxGid(m))| ==> Peak(r) < Peak(m))
  {
    RoundFacts(m);
    var from, to := MaxGid(m), MinGid(m);
    var r := MoveOne(m, from, to);
    assert IsMaxGid(m, from) && IsMinGid(m, to) && IsMaxGid(r, MaxGid(r));
    if |ShardsOf(r, MaxGid(r))| == |ShardsOf(m, from)| {
      assert from in Peak(m) && from !in Peak(r);
    }
  }

  /** The measure of the loop: shards without a group, then the largest group, then how many are as large. */
  lemma RoundDecreases(m: Assignment)
    requires HasShard(m) && !Settled(m)
    ensures var r := (RoundFacts(m); MoveOne(m, MaxGid(m), MinGid(m)));
            || |ShardsOf(r, 0)| < |ShardsOf(m, 0)|
            || (|ShardsOf(r, 0)| == |ShardsOf(m, 0)| && |ShardsOf(r, MaxGid(r))| < |ShardsOf(m, MaxGid(m))|)
            || (|ShardsOf(r, 0)| == |ShardsOf(m, 0)| && |ShardsOf(r, MaxGid(r))| == |ShardsOf(m, MaxGid(m))|
                  && |Peak(r)| < |Peak(m)|)
  {
    RoundFacts(m);
    if MaxGid(m) != 0 {
      RoundProgress(m);
      var r := MoveOne(m, MaxGid(m), MinGid(m));
      if |ShardsOf(r, MaxGid(r))| == |ShardsOf(m, MaxGid(m))| {
        ProperSubsetSize(Peak(r), Peak(m));
      }
    }
  }

  /** The loop of Join: the final lists and owners. */
  ghost function Rebalance(m: Assignment, owner: seq<int>): (Assignment, seq<int>)
    requires HasShard(m) && Spread(m, owner)
    decreases |ShardsOf(m, 0)|, |ShardsOf(m, MaxGid(m))|, |Peak(m)|
  {
    if Settled(m) then (m, owner)
    else
      var from, to := MaxGid(m), MinGid(m);
      RoundFacts(m);
      RoundDecreases(m);
      MoveOneSpread(m, owner, from, to);
      Rebalance(MoveOne(m, from, to), owner[m[from][0] := to])
  }

  ghost predicate SomeGroup(m: Assignment) {
    exists g :: g in m && g != 0
  }

  /** Any two groups differ by at most one shard. */
  ghost predicate Even(m: Assignment) {
    forall g, h :: g in m && h in m && g != 0 && h != 0 ==> |m[g]| <= |m[h]| + 1
  }

  lemma SettledIsEven(m: Assignment)
    requires Settled(m) && SomeGroup(m)
    ensures Even(m) && ShardsOf(m, 0) == []
  {
    assert IsMaxGid(m, MaxGid(m)) && IsMinGid(m, MinGid(m));
  }

  /** The loop ends with every shard in a group and the groups even. */
  lemma {:induction false} RebalanceEvens(m: Assignment, owner: seq<int>)
    requires HasShard(m) && Spread(m, owner) && SomeGroup(m)
    ensures var (r, o) := Rebalance(m, owner);
            Spread(r, o) && |o| == |owner| && r.Keys == m.Keys && ShardsOf(r, 0) == [] && Even(r)
    decreases |ShardsOf(m, 0)|, |ShardsOf(m, MaxGid(m))|, |Peak(m)|
  {
    if Settled(m) {
      SettledIsEven(m);
    } else {
      var from, to := MaxGid(m), MinGid(m);
      RoundFacts(m);
      RoundDecreases(m);
      MoveOneSpread(m, owner, from, to);
      assert IsMinGid(m, to);
      var g :| g in m && g != 0;
      assert g in MoveOne(m, from, to);
      RebalanceEvens(MoveOne(m, from, to), owner[m[from][0] := to]);
    }
  }

  /** Without any group the shards end up with group -1. */
  lemma {:induction false} RebalanceNowhere(m: Assignment, owner: seq<int>)
    requires HasShard(m) && Spread(m, owner) && forall g :: g in m ==> g == 0 || g == -1
    ensures var (r, o) := Rebalance(m, owner); |o| == |owner| && forall s :: 0 <= s < |o| ==> o[s] == -1
    decreases |ShardsOf(m, 0)|, |ShardsOf(m, MaxGid(m))|, |Peak(m)|
  {
    assert IsMinGid(m, MinGid(m)) && IsMaxGid(m, MaxGid(m));
    if Settled(m) {
      forall s | 0 <= s < |owner| ensures owner[s] == -1 {
        assert s in m[owner[s]];
      }
    } else {
      var from, to := MaxGid(m), MinGid(m);
      RoundFacts(m);
      RoundDecreases(m);
      MoveOneSpread(m, owner, from, to);
      RebalanceNowhere(MoveOne(m, from, to), owner[m[from][0] := to]);
    }
  }

  // ---------- Join moves no more than it has to ----------

  /** Old groups are even, new groups are even, and no new group is larger than an old one. */
  ghost predicate OldAndNew(m: Assignment, fresh_: set<int>) {
    && 0 !in m
    && (forall g, h :: g in m && h in m && (g in fresh_ <==> h in fresh_) ==> |m[g]| <= |m[h]| + 1)
    && (forall g, h :: g in m && h in m && g in fresh_ && h !in fresh_ ==> |m[g]| <= |m[h]|)
  }

  /** A round then moves a shard from an old group to a new one. */
  lemma RoundOldToNew(m: Assignment, fresh_: set<int>)
    requires OldAndNew(m, fresh_) && HasShard(m) && !Settled(m)
    ensures var from, to := MaxGid(m), MinGid(m);
            && from in m && m[from] != [] && from != to && to in m && from !in fresh_ && to in fresh_
            && OldAndNew(MoveOne(m, from, to), fresh_)
  {
    RoundFacts(m);
    assert IsMaxGid(m, MaxGid(m)) && IsMinGid(m, MinGid(m));
  }

  /** Starting from even groups, an old group never receives a shard. */
  lemma {:induction false} RebalanceMovesToNew(m: Assignment, owner: seq<int>, fresh_: set<int>, s: nat)
    requires HasShard(m) && Spread(m, owner) && OldAndNew(m, fresh_) && s < |owner|
    ensures var o := Rebalance(m, owner).1;
            |o| == |owner| && (o[s] == owner[s] || (owner[s] !in fresh_ && o[s] in fresh_))
    decreases |ShardsOf(m, 0)|, |ShardsOf(m, MaxGid(m))|, |Peak(m)|
  {
    if !Settled(m) {
      var from, to := MaxGid(m), MinGid(m);
      RoundOldToNew(m, fresh_);
      RoundFacts(m);
      RoundDecreases(m);
      MoveOneSpread(m, owner, from, to);
      RebalanceMovesToNew(MoveOne(m, from, to), owner[m[from][0] := to], fresh_, s);
    }
  }

  // ---------- Leave: hand each orphaned shard to the smallest group ----------

  function Give(m: Assignment, to: int, s: int): Assignment {
    m[to := ShardsOf(m, to) + [s]]
  }

  ghost function Fill(m: Assignment, orphans: seq<int>): Assignment
    decreases |orphans|
  {
    if orphans == [] then m else Fill(Give(m, MinGid(m), orphans[0]), orphans[1..])
  }

  /** The lists hold every shard but the orphans once, under its owner. */
  ghost predicate SpreadBut(m: Assignment, owner: seq<int>, orphans: seq<int>) {
    && (forall g, i :: g in m && 0 <= i < |m[g]| ==>
          0 <= m[g][i] < |owner| && owner[m[g][i]] == g && m[g][i] !in orphans)
    && (forall g, i, j :: g in m && 0 <= i < j < |m[g]| ==> m[g][i] != m[g][j])
    && (forall s :: 0 <= s < |owner| && s !in orphans ==> owner[s] in m && s in m[owner[s]])
    && (forall i :: 0 <= i < |orphans| ==> 0 <= orphans[i] < |owner|)
    && (forall i, j :: 0 <= i < j < |orphans| ==> orphans[i] != orphans[j])
  }

  lemma GiveSpread(m: Assignment, owner: seq<int>, orphans: seq<int>, to: int)
    requires SpreadBut(m, owner, orphans) && orphans != []
    ensures SpreadBut(Give(m, to, orphans[0]), owner[orphans[0] := to], orphans[1..])
  {
    var x, rest := orphans[0], orphans[1..];
    var r, owner' := Give(m, to, x), owner[x := to];
    forall s | s in rest ensures s in orphans && s != x {
      var i :| 0 <= i < |rest| && rest[i] == s;
      assert orphans[i + 1] == s;
    }
    forall g, i | g in r && 0 <= i < |r[g]|
      ensures r[g][i] == (if g == to && i == |ShardsOf(m, to)| then x else ShardsOf(m, g)[i])
      ensures 0 <= r[g][i] < |owner'| && owner'[r[g][i]] == g && r[g][i] !in rest
    {
    }
    forall g, i, j | g in r && 0 <= i < j < |r[g]| ensures r[g][i] != r[g][j] {
      assert g in m && r[g][i] == m[g][i];
    }
    forall s | 0 <= s < |owner'| && s !in rest ensures owner'[s] in r && s in r[owner'[s]] {
      GiveHolds(m, owner, orphans, to, s);
    }
    forall i | 0 <= i < |rest| ensures 0 <= rest[i] < |owner'| {
      assert rest[i] == orphans[i + 1];
    }
  }

  lemma GiveHolds(m: Assignment, owner: seq<int>, orphans: seq<int>, to: int, s: nat)
    requires SpreadBut(m, owner, orphans) && orphans != [] && s < |owner| && s !in orphans[1..]
    ensures var g := owner[orphans[0] := to][s];
            g in Give(m, to, orphans[0]) && s in Give(m, to, orphans[0])[g]
  {
    var x := orphans[0];
    var r := Give(m, to, x);
    if s == x {
      assert r[to][|r[to]| - 1] == x;
    } else {
      assert orphans == [x] + orphans[1..];
      var i :| 0 <= i < |m[owner[s]]| && m[owner[s]][i] == s;
      assert r[owner[s]][i] == s;
    }
  }

  /** The owners after all orphans have been handed out. */
  ghost function FillOwner(m: Assignment, owner: seq<int>, orphans: seq<int>): (o: seq<int>)
    requires SpreadBut(m, owner, orphans)
    ensures |o| == |owner| && Spread(Fill(m, orphans), o)
    decreases |orphans|
  {
    if orphans == [] then owner
    else
      GiveSpread(m, owner, orphans, MinGid(m));
      FillOwner(Give(m, MinGid(m), orphans[0]), owner[orphans[0] := MinGid(m)], orphans[1..])
  }

  lemma {:induction false} FillKeepsGroups(m: Assignment, orphans: seq<int>)
    requires 0 !in m && SomeGroup(m)
    ensures Fill(m, orphans).Keys == m.Keys
    ensures forall g :: g in m ==> m[g] <= Fill(m, orphans)[g]
    decreases |orphans|
  {
    if orphans != [] {
      assert IsMinGid(m, MinGid(m));
      var r := Give(m, MinGid(m), orphans[0]);
      var g :| g in m && g != 0;
      assert g in r;
      FillKeepsGroups(r, orphans[1..]);
    }
  }

  // ---------- When Leave ends even ----------

  /** The number of shards in the given groups. */
  ghost function Total(m: Assignment, keys: set<int>): nat
    requires keys <= m.Keys
  {
    if keys == {} then 0
    else
      var g := Choose(keys);
      |m[g]| + Total(m, keys - {g})
  }

  lemma {:induction false} TotalSplit(m: Assignment, keys: set<int>, g: int)
    requires keys <= m.Keys && g in keys
    ensures Total(m, keys) == |m[g]| + Total(m, keys - {g})
    decreases |keys|
  {
    var f := Choose(keys);
    if f != g {
      TotalSplit(m, keys - {f}, g);
      TotalSplit(m, keys - {g}, f);
      assert keys - {f} - {g} == keys - {g} - {f};
    }
  }

  lemma {:induction false} TotalSame(m: Assignment, r: Assignment, keys: set<int>)
    requires keys <= m.Keys && keys <= r.Keys && forall g :: g in keys ==> |m[g]| == |r[g]|
    ensures Total(m, keys) == Total(r, keys)
    decreases |keys|
  {
    if keys != {} {
      var g := Pick(keys);
      TotalSplit(m, keys, g);
      TotalSplit(r, keys, g);
      TotalSame(m, r, keys - {g});
    }
  }

  function Times(k: nat, c: int): int {
    if k == 0 then 0 else Times(k - 1, c) + c
  }

  lemma {:induction false} TimesIsProduct(k: nat, c: int)
    ensures Times(k, c) == k * c
  {
    if k > 0 {
      TimesIsProduct(k - 1, c);
    }
  }

  /** If the groups of p hold at least c + 1 shards and the others at least c. */
  lemma {:induction false} TotalAtLeast(m: Assignment, keys: set<int>, c: int, p: set<int>)
    requires keys <= m.Keys && p <= keys && forall g :: g in keys ==> |m[g]| >= if g in p then c + 1 else c
    ensures Total(m, keys) >= Times(|keys|, c) + |p|
    decreases |keys|
  {
    if keys == {} {
      assert p == {};
    } else {
      var g := Pick(keys);
      TotalSplit(m, keys, g);
      TotalAtLeast(m, keys - {g}, c, p - {g});
      assert |keys - {g}| == |keys| - 1;
    }
  }

  lemma {:induction false} TotalAtMost(m: Assignment, keys: set<int>, c: int, p: set<int>)
    requires keys <= m.Keys && p <= keys && forall g :: g in keys ==> |m[g]| <= if g in p then c + 1 else c
    ensures Total(m, keys) <= Times(|keys|, c) + |p|
    decreases |keys|
  {
    if keys == {} {
      assert p == {};
    } else {
      var g := Pick(keys);
      TotalSplit(m, keys, g);
      TotalAtMost(m, keys - {g}, c, p - {g});
      assert |keys - {g}| == |keys| - 1;
    }
  }

  ghost function Largest(m: Assignment): nat {
    |ShardsOf(m, MaxGid(m))|
  }

  /** There are shards enough to bring every group to within one of the largest: k(M - 1) + p <= total. */
  ghost predicate CanBeEven(m: Assignment, total: int) {
    |m.Keys| * (Largest(m) - 1) + |Peak(m)| <= total
  }

  lemma EvenIffFull(m: Assignment)
    requires 0 !in m && SomeGroup(m)
    ensures Even(m) <==> CanBeEven(m, Total(m, m.Keys))
  {
    assert IsMaxGid(m, MaxGid(m));
    var c := Largest(m) - 1;
    TimesIsProduct(|m.Keys|, c);
    if Even(m) {
      TotalAtLeast(m, m.Keys, c, Peak(m));
    } else {
      var g, h :| g in m && h in m && |m[g]| > |m[h]| + 1;
      TotalSplit(m, m.Keys, h);
      TotalAtMost(m, m.Keys - {h}, c, Peak(m));
      assert |m.Keys - {h}| == |m.Keys| - 1;
    }
  }

  lemma GiveTotal(m: Assignment, s: int)
    requires 0 !in m && SomeGroup(m)
    ensures var r := Give(m, MinGid(m), s);
            r.Keys == m.Keys && SomeGroup(r) && Total(r, r.Keys) == Total(m, m.Keys) + 1
  {
    var to := MinGid(m);
    assert IsMinGid(m, to);
    var r := Give(m, to, s);
    var g :| g in m && g != 0;
    assert g in r;
    assert r.Keys == m.Keys;
    TotalSplit(m, m.Keys, to);
    TotalSplit(r, r.Keys, to);
    TotalSame(m, r, m.Keys - {to});
  }

  /** How the largest groups change. */
  lemma GivePeak(m: Assignment, s: int)
    requires 0 !in m && SomeGroup(m)
    ensures var to := MinGid(m);
            var r := Give(m, to, s);
            && to in m
            && (|m[to]| + 1 < Largest(m) ==> Largest(r) == Largest(m) && Peak(r) == Peak(m))
            && (|m[to]| + 1 == Largest(m) ==>
                  Largest(r) == Largest(m) && Peak(r) == Peak(m) + {to} && to !in Peak(m) && Even(m))
            && (|m[to]| + 1 > Largest(m) ==> Largest(r) == Largest(m) + 1 && Peak(r) == {to} && Even(m)
                                             && forall g :: g in m ==> |m[g]| == Largest(m))
  {
    var to := MinGid(m);
    var r := Give(m, to, s);
    assert IsMinGid(m, to) && IsMaxGid(m, MaxGid(m)) && IsMaxGid(r, MaxGid(r));
    assert MaxGid(m) in r && to in r && MaxGid(r) in m;
    if |m[to]| + 1 > Largest(m) {
      assert forall g :: g in r && g != to ==> |r[g]| <= Largest(m);
      assert to in Peak(r);
      assert Peak(r) == {to};
    }
  }

  lemma GiveKeepsChance(m: Assignment, s: int, total: int)
    requires 0 !in m && SomeGroup(m) && total > Total(m, m.Keys)
    ensures CanBeEven(m, total) <==> CanBeEven(Give(m, MinGid(m), s), total)
  {
    var k, top := |m.Keys|, Largest(m);
    GiveTotal(m, s);
    GivePeak(m, s);
    EvenIffFull(m);
    if |m[MinGid(m)]| + 1 > top {
      TotalAtLeast(m, m.Keys, top, {});
      TimesIsProduct(k, top);
    }
  }

  /** Leave ends with even groups exactly if the orphans suffice to catch up with the largest group that stays. */
  lemma {:induction false} FillEvenIff(m: Assignment, orphans: seq<int>)
    requires 0 !in m && SomeGroup(m)
    ensures Even(Fill(m, orphans)) <==> CanBeEven(m, Total(m, m.Keys) + |orphans|)
    decreases |orphans|
  {
    if orphans == [] {
      EvenIffFull(m);
    } else {
      GiveTotal(m, orphans[0]);
      GiveKeepsChance(m, orphans[0], Total(m, m.Keys) + |orphans|);
      FillEvenIff(Give(m, MinGid(m), orphans[0]), orphans[1..]);
    }
  }

  lemma EvenCanStayEven(m: Assignment, orphans: seq<int>)
    requires 0 !in m && SomeGroup(m) && Even(m)
    ensures Even(Fill(m, orphans))
  {
    EvenIffFull(m);
    FillEvenIff(m, orphans);
  }
}
