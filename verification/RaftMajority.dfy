/** The index that the leader commits up to: a majority of the servers has reached it. */
module RaftMajority {
  import opened RaftTypes
  import opened RaftServer
  import opened Sorting

  /** Everything from index k on is at least m. */
  lemma {:induction false} CountAbove(s: seq<int>, k: nat, m: int)
    requires k <= |s| && forall i :: k <= i < |s| ==> s[i] >= m
    ensures CountAtLeast(s, m) >= |s| - k
  {
    if k < |s| {
      CountAbove(s[..|s| - 1], k, m);
    }
  }

  function Reached(s: seq<int>, m: int): (r: set<nat>)
    ensures forall i: nat :: i in r <==> i < |s| && s[i] >= m
  {
    set i: nat | i < |s| && s[i] >= m
  }

  lemma {:induction false} CountIsSize(s: seq<int>, m: int)
    ensures |Reached(s, m)| == CountAtLeast(s, m)
  {
    if s != [] {
      var n := |s| - 1;
      CountIsSize(s[..n], m);
      assert Reached(s, m) == Reached(s[..n], m) + (if s[n] >= m then {n} else {});
    }
  }

  /** The majority index is a match index, and more than half of the servers have reached it. */
  lemma MajorityReached(matchIndex: seq<int>) returns (q: set<nat>)
    requires matchIndex != []
    ensures MajorityIndex(matchIndex) in matchIndex
    ensures Quorum(q, |matchIndex|)
    ensures forall i :: i in q ==> matchIndex[i] >= MajorityIndex(matchIndex)
  {
    var m, k := MajorityIndex(matchIndex), (|matchIndex| - 1) / 2;
    SortedSorts(matchIndex, m);
    CountAbove(Sorted(matchIndex), k, m);
    CountIsSize(matchIndex, m);
    q := Reached(matchIndex, m);
  }

  /** ... and no larger index has been reached by a majority: the leader commits as far as it may. */
  lemma MajorityIsLargest(matchIndex: seq<int>, m: int)
    requires matchIndex != [] && m > MajorityIndex(matchIndex)
    ensures !Quorum(Reached(matchIndex, m), |matchIndex|)
  {
    var k := (|matchIndex| - 1) / 2;
    SortedSorts(matchIndex, m);
    CountBelow(Sorted(matchIndex), k + 1, m);
    CountIsSize(matchIndex, m);
  }

  lemma {:induction false} CountBelow(s: seq<int>, k: nat, m: int)
    requires k <= |s| && forall i :: 0 <= i < k ==> s[i] < m
    ensures CountAtLeast(s, m) <= |s| - k
  {
    if s != [] {
      CountBelow(s[..|s| - 1], if k == |s| then k - 1 else k, m);
    }
  }
}
