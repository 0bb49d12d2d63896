/** Which shards Join and Leave move, and where to, said of the configurations before and after. */
module ShardChoice {
  import opened Sets
  import opened ShardBalance
  import opened ShardConfig

  // ---------- Leave: which group takes each orphan ----------

  /** Where a group is first named. */
  function Position(gids: seq<int>, g: int): (p: nat)
    ensures p <= |gids| && (p < |gids| ==> gids[p] == g) && forall i :: 0 <= i < p ==> gids[i] != g
  {
    if gids == [] then 0 else if gids[0] == g then 0 else 1 + Position(gids[1..], g)
  }

  ghost predicate Rising(l: seq<int>, k: int) {
    (forall i, j :: 0 <= i < j < |l| ==> l[i] < l[j]) && forall i :: 0 <= i < |l| ==> l[i] < k
  }

  /** The list of a group's shards is ascending. */
  lemma {:induction false} GatherAscends(groups: map<int, seq<string>>, shards: seq<int>, k: nat, g: int)
    requires k <= |shards|
    ensures Rising(ShardsOf(Gather(groups, shards, k), g), k)
  {
    if k > 0 {
      GatherAscends(groups, shards, k - 1, g);
      var was := ShardsOf(Gather(groups, shards, k - 1), g);
      assert ShardsOf(Gather(groups, shards, k), g) == if g == shards[k - 1] then was + [k - 1] else was;
      assert Rising(was + [k - 1], k);
    } else {
      assert ShardsOf(Gather(groups, shards, 0), g) == [];
    }
  }

  /** Shard s comes before shard t: its group is named first, or it is the same group and s is smaller. */
  ghost predicate Before(owner: seq<int>, gids: seq<int>, s: int, t: int)
    requires 0 <= s < |owner| && 0 <= t < |owner|
  {
    var p, q := Position(gids, owner[s]), Position(gids, owner[t]);
    p < q || (p == q && s < t)
  }

  ghost predicate InOrder(owner: seq<int>, gids: seq<int>, orphans: seq<int>) {
    && (forall i :: 0 <= i < |orphans| ==> 0 <= orphans[i] < |owner|)
    && forall i, j :: 0 <= i < j < |orphans| ==> Before(owner, gids, orphans[i], orphans[j])
  }

  ghost predicate Ascending(m: Assignment) {
    forall g, i, j :: g in m && 0 <= i < j < |m[g]| ==> m[g][i] < m[g][j]
  }

  ghost predicate Under(m: Assignment, owner: seq<int>) {
    forall g, i :: g in m && 0 <= i < |m[g]| ==> 0 <= m[g][i] < |owner| && owner[m[g][i]] == g
  }

  lemma UnderLess(m: Assignment, owner: seq<int>, g: int)
    requires Under(m, owner)
    ensures Under(m - {g}, owner)
  {
  }

  lemma AscendingLess(m: Assignment, g: int)
    requires Ascending(m)
    ensures Ascending(m - {g})
  {
  }

  /** The orphans of the first group named, and those of the others. */
  lemma OrphansSplit(m: Assignment, gids: seq<int>, i: nat)
    requires gids != [] && i < |Orphans(m, gids)|
    ensures var first := ShardsOf(m, gids[0]);
            if i < |first| then gids[0] in m && i < |m[gids[0]]| && Orphans(m, gids)[i] == m[gids[0]][i]
            else && i - |first| < |Orphans(m - {gids[0]}, gids[1..])|
                 && Orphans(m, gids)[i] == Orphans(m - {gids[0]}, gids[1..])[i - |first|]
  {
  }

  /** Each orphan's group is named. */
  lemma {:induction false} OrphansNamed(m: Assignment, owner: seq<int>, gids: seq<int>, i: nat)
    requires Under(m, owner) && i < |Orphans(m, gids)|
    ensures 0 <= Orphans(m, gids)[i] < |owner| && owner[Orphans(m, gids)[i]] in gids
    ensures owner[Orphans(m, gids)[i]] in m
    decreases |gids|
  {
    var first := ShardsOf(m, gids[0]);
    OrphansSplit(m, gids, i);
    if i >= |first| {
      UnderLess(m, owner, gids[0]);
      OrphansNamed(m - {gids[0]}, owner, gids[1..], i - |first|);
    }
  }

  /** An orphan belongs to the first group named, or comes later. */
  lemma OrphanGroup(m: Assignment, owner: seq<int>, gids: seq<int>, i: nat)
    requires Under(m, owner) && gids != [] && i < |Orphans(m, gids)|
    ensures 0 <= Orphans(m, gids)[i] < |owner|
    ensures owner[Orphans(m, gids)[i]] == gids[0] <==> i < |ShardsOf(m, gids[0])|
  {
    var first := ShardsOf(m, gids[0]);
    OrphansSplit(m, gids, i);
    if i >= |first| {
      UnderLess(m, owner, gids[0]);
      OrphansNamed(m - {gids[0]}, owner, gids[1..], i - |first|);
    }
  }

  lemma BeforeNext(owner: seq<int>, gids: seq<int>, s: int, t: int)
    requires 0 <= s < |owner| && 0 <= t < |owner| && gids != []
    requires if owner[s] == gids[0] then owner[t] != gids[0] || s < t
             else owner[t] != gids[0] && Before(owner, gids[1..], s, t)
    ensures Before(owner, gids, s, t)
  {
  }

  /** Two orphans of the first group named are in order. */
  lemma FirstAscends(m: Assignment, gids: seq<int>, i: nat, j: nat)
    requires Ascending(m) && gids != [] && i < j < |Orphans(m, gids)| && j < |ShardsOf(m, gids[0])|
    ensures Orphans(m, gids)[i] < Orphans(m, gids)[j]
  {
    OrphansSplit(m, gids, i);
    OrphansSplit(m, gids, j);
  }

  /** Two orphans of the other groups are in the order of those. */
  lemma OthersBefore(m: Assignment, owner: seq<int>, gids: seq<int>, i: nat, j: nat, rest: seq<int>)
    requires gids != [] && rest == Orphans(m - {gids[0]}, gids[1..]) && i < j < |Orphans(m, gids)|
    requires |ShardsOf(m, gids[0])| <= i && InOrder(owner, gids[1..], rest)
    ensures var l := Orphans(m, gids);
            0 <= l[i] < |owner| && 0 <= l[j] < |owner| && Before(owner, gids[1..], l[i], l[j])
  {
    OrphansSplit(m, gids, i);
    OrphansSplit(m, gids, j);
  }

  lemma OrphanBefore(m: Assignment, owner: seq<int>, gids: seq<int>, i: nat, j: nat)
    requires Under(m, owner) && Ascending(m) && gids != [] && i < j < |Orphans(m, gids)|
    requires InOrder(owner, gids[1..], Orphans(m - {gids[0]}, gids[1..]))
    ensures var l := Orphans(m, gids);
            0 <= l[i] < |owner| && 0 <= l[j] < |owner| && Before(owner, gids, l[i], l[j])
  {
    var n := |ShardsOf(m, gids[0])|;
    OrphanGroup(m, owner, gids, i);
    OrphanGroup(m, owner, gids, j);
    if j < n {
      FirstAscends(m, gids, i, j);
    } else if n <= i {
      OthersBefore(m, owner, gids, i, j, Orphans(m - {gids[0]}, gids[1..]));
    }
    BeforeNext(owner, gids, Orphans(m, gids)[i], Orphans(m, gids)[j]);
  }

  lemma {:induction false} OrphansInOrder(m: Assignment, owner: seq<int>, gids: seq<int>)
    requires Under(m, owner) && Ascending(m)
    ensures InOrder(owner, gids, Orphans(m, gids))
    decreases |gids|
  {
    if gids != [] {
      UnderLess(m, owner, gids[0]);
      AscendingLess(m, gids[0]);
      OrphansInOrder(m - {gids[0]}, owner, gids[1..]);
      var l := Orphans(m, gids);
      forall i | 0 <= i < |l| ensures 0 <= l[i] < |owner| {
        OrphanGroup(m, owner, gids, i);
      }
      forall i, j | 0 <= i < j < |l| ensures Before(owner, gids, l[i], l[j]) {
        OrphanBefore(m, owner, gids, i, j);
      }
    }
  }

  /** How many of the first i orphans group g has taken. */
  ghost function Taken(o: seq<int>, orphans: seq<int>, i: nat, g: int): nat
    requires i <= |orphans| && forall j :: 0 <= j < |orphans| ==> 0 <= orphans[j] < |o|
  {
    if i == 0 then 0 else Taken(o, orphans, i - 1, g) + if o[orphans[i - 1]] == g then 1 else 0
  }

  lemma {:induction false} TakenShift(o: seq<int>, orphans: seq<int>, i: nat, g: int)
    requires 0 < i <= |orphans| && forall j :: 0 <= j < |orphans| ==> 0 <= orphans[j] < |o|
    ensures forall j :: 0 <= j < |orphans[1..]| ==> 0 <= orphans[1..][j] < |o|
    ensures Taken(o, orphans, i, g) == (if o[orphans[0]] == g then 1 else 0) + Taken(o, orphans[1..], i - 1, g)
  {
    if i > 1 {
      TakenShift(o, orphans, i - 1, g);
      assert orphans[1..][i - 2] == orphans[i - 1];
    }
  }

  /** The group has no more shards than any other when it takes the orphan, and is the smallest of those. */
  ghost predicate Emptiest(m: Assignment, o: seq<int>, orphans: seq<int>, i: nat, g: int)
    requires i <= |orphans| && forall j :: 0 <= j < |orphans| ==> 0 <= orphans[j] < |o|
  {
    g in m && forall h :: h in m ==>
      var a, b := |m[g]| + Taken(o, orphans, i, g), |m[h]| + Taken(o, orphans, i, h);
      a < b || (a == b && g <= h)
  }

  lemma FillOwnerNext(m: Assignment, owner: seq<int>, orphans: seq<int>)
    requires SpreadBut(m, owner, orphans) && orphans != []
    ensures var x, g := orphans[0], MinGid(m);
            && 0 <= x < |owner| && SpreadBut(Give(m, g, x), owner[x := g], orphans[1..])
            && FillOwner(m, owner, orphans) == FillOwner(Give(m, g, x), owner[x := g], orphans[1..])
            && FillOwner(m, owner, orphans)[x] == g
  {
    var x, g, rest := orphans[0], MinGid(m), orphans[1..];
    GiveSpread(m, owner, orphans, g);
    assert forall i :: 0 <= i < |rest| ==> rest[i] == orphans[i + 1];
    FillSettles(Give(m, g, x), owner[x := g], rest, x);
  }

  /** What a group has when orphan i is handed out does not depend on where one starts counting. */
  lemma EmptiestNext(m: Assignment, o: seq<int>, orphans: seq<int>, i: nat, g: int)
    requires 0 < i <= |orphans| && (forall j :: 0 <= j < |orphans| ==> 0 <= orphans[j] < |o|)
    requires (forall j :: 0 <= j < |orphans[1..]| ==> 0 <= orphans[1..][j] < |o|) && o[orphans[0]] in m
    requires Emptiest(Give(m, o[orphans[0]], orphans[0]), o, orphans[1..], i - 1, g)
    ensures Emptiest(m, o, orphans, i, g)
  {
    var r := Give(m, o[orphans[0]], orphans[0]);
    forall h | h in m
      ensures h in r && |m[h]| + Taken(o, orphans, i, h) == |r[h]| + Taken(o, orphans[1..], i - 1, h)
    {
      TakenShift(o, orphans, i, h);
    }
  }

  lemma EmptiestFirst(m: Assignment, o: seq<int>, orphans: seq<int>)
    requires (forall j :: 0 <= j < |orphans| ==> 0 <= orphans[j] < |o|) && 0 !in m && SomeGroup(m)
    ensures Emptiest(m, o, orphans, 0, MinGid(m))
  {
    assert IsMinGid(m, MinGid(m));
  }

  lemma GiveKeepsGroups(m: Assignment, x: int)
    requires 0 !in m && SomeGroup(m)
    ensures MinGid(m) in m && 0 !in Give(m, MinGid(m), x) && SomeGroup(Give(m, MinGid(m), x))
  {
    assert IsMinGid(m, MinGid(m));
    assert MinGid(m) in Give(m, MinGid(m), x);
  }

  /** The first orphan has been handed out; the others follow. */
  lemma GreedyNext(m: Assignment, o: seq<int>, orphans: seq<int>, i: nat)
    requires 0 < i < |orphans| && (forall j :: 0 <= j < |orphans| ==> 0 <= orphans[j] < |o|)
    requires o[orphans[0]] == MinGid(m) && MinGid(m) in m
    requires Emptiest(Give(m, MinGid(m), orphans[0]), o, orphans[1..], i - 1, o[orphans[1..][i - 1]])
    ensures Emptiest(m, o, orphans, i, o[orphans[i]])
  {
    assert orphans[1..][i - 1] == orphans[i];
    EmptiestNext(m, o, orphans, i, o[orphans[i]]);
  }

  /** Each orphan in turn has gone to the smallest group of the moment. */
  ghost predicate Dealt(m: Assignment, orphans: seq<int>, o: seq<int>)
    decreases |orphans|
  {
    orphans == [] || (&& 0 <= orphans[0] < |o| && o[orphans[0]] == MinGid(m)
                      && Dealt(Give(m, MinGid(m), orphans[0]), orphans[1..], o))
  }

  lemma {:induction false} FillDeals(m: Assignment, owner: seq<int>, orphans: seq<int>)
    requires SpreadBut(m, owner, orphans)
    ensures Dealt(m, orphans, FillOwner(m, owner, orphans))
    decreases |orphans|
  {
    if orphans != [] {
      FillOwnerNext(m, owner, orphans);
      FillDeals(Give(m, MinGid(m), orphans[0]), owner[orphans[0] := MinGid(m)], orphans[1..]);
    }
  }

  lemma {:induction false} DealtGreedy(m: Assignment, orphans: seq<int>, o: seq<int>, i: nat)
    requires Dealt(m, orphans, o) && 0 !in m && SomeGroup(m) && i < |orphans|
    requires forall j :: 0 <= j < |orphans| ==> 0 <= orphans[j] < |o|
    ensures Emptiest(m, o, orphans, i, o[orphans[i]])
    decreases |orphans|
  {
    if i == 0 {
      EmptiestFirst(m, o, orphans);
    } else {
      GiveKeepsGroups(m, orphans[0]);
      DealtGreedy(Give(m, MinGid(m), orphans[0]), orphans[1..], o, i - 1);
      GreedyNext(m, o, orphans, i);
    }
  }

  /** A shard that is not an orphan stays where it is. */
  lemma {:induction false} FillSettles(m: Assignment, owner: seq<int>, orphans: seq<int>, s: int)
    requires SpreadBut(m, owner, orphans) && 0 <= s < |owner| && s !in orphans
    ensures FillOwner(m, owner, orphans)[s] == owner[s]
    decreases |orphans|
  {
    if orphans != [] {
      GiveSpread(m, owner, orphans, MinGid(m));
      assert orphans == [orphans[0]] + orphans[1..];
      FillSettles(Give(m, MinGid(m), orphans[0]), owner[orphans[0] := MinGid(m)], orphans[1..], s);
    }
  }

  /** The orphans of a Leave: the shards of the groups named, in order. */
  ghost predicate OrphansOf(c: Config, gids: seq<int>, orphans: seq<int>) {
    && InOrder(c.shards, gids, orphans)
    && forall s :: s in orphans <==> 0 <= s < |c.shards| && c.shards[s] in gids
  }

  /** Orphan i has gone to the group that had fewest shards then, the one with the smallest id among those. */
  ghost predicate HandedOut(c: Config, d: Config, orphans: seq<int>, i: nat)
    requires i < |orphans| && forall j :: 0 <= j < |orphans| ==> 0 <= orphans[j] < |d.shards|
  {
    var g := d.shards[orphans[i]];
    g in d.groups && forall h :: h in d.groups ==>
      var a, b := |Owned(c, g)| + Taken(d.shards, orphans, i, g), |Owned(c, h)| + Taken(d.shards, orphans, i, h);
      a < b || (a == b && g <= h)
  }

  lemma ListsAscend(groups: map<int, seq<string>>, shards: seq<int>)
    ensures Ascending(Lists(groups, shards)) && Under(Lists(groups, shards), shards)
  {
    var m := Lists(groups, shards);
    forall g, i, j | g in m && 0 <= i < j < |m[g]| ensures m[g][i] < m[g][j] {
      GatherAscends(groups, shards, |shards|, g);
      assert Rising(ShardsOf(m, g), |shards|);
    }
  }

  lemma LeaveOrphans(c: Config, gids: seq<int>)
    requires Valid(c)
    ensures OrphansOf(c, gids, Orphans(Lists(c.groups, c.shards), gids))
  {
    var m := Lists(c.groups, c.shards);
    var l := Orphans(m, gids);
    ListsAscend(c.groups, c.shards);
    OrphansInOrder(m, c.shards, gids);
    LeaveLists(c, gids);
    forall s ensures s in l <==> 0 <= s < |c.shards| && c.shards[s] in gids {
      if s in l {
        var i :| 0 <= i < |l| && l[i] == s;
        OrphansNamed(m, c.shards, gids, i);
      } else if 0 <= s < |c.shards| {
        assert c.shards[s] in m - Elements(gids);
      }
    }
  }

  /** Leave hands out the orphans one after another, each to the emptiest group of the moment. */
  lemma LeaveIsGreedy(c: Config, num: int, gids: seq<int>) returns (orphans: seq<int>)
    requires Valid(c) && c.groups - Elements(gids) != map[]
    ensures OrphansOf(c, gids, orphans) && |LeaveConfig(c, num, gids).shards| == |c.shards|
    ensures forall i: nat {:trigger HandedOut(c, LeaveConfig(c, num, gids), orphans, i)} :: i < |orphans| ==>
              HandedOut(c, LeaveConfig(c, num, gids), orphans, i)
  {
    var d, m := LeaveConfig(c, num, gids), Staying(c, gids);
    orphans := Orphans(Lists(c.groups, c.shards), gids);
    LeaveOrphans(c, gids);
    LeaveLists(c, gids);
    StayingGroups(c, gids);
    LeaveSpread(c, num, gids);
    forall g | g in m ensures |m[g]| == |Owned(c, g)| {
      ListSize(Lists(c.groups, c.shards), c, g);
    }
    FillDeals(m, c.shards, orphans);
    forall i: nat | i < |orphans| ensures HandedOut(c, d, orphans, i) {
      DealtGreedy(m, orphans, d.shards, i);
    }
  }
}
