/** Ascending order of integers, as `sort.Ints` establishes it. */
module Sorting {

  /** Ascending insertion: what `sort.Ints` returns. */
  function Sorted(s: seq<int>): (r: seq<int>)
    ensures |r| == |s|
  {
    if s == [] then [] else Insert(s[|s| - 1], Sorted(s[..|s| - 1]))
  }

  function Insert(x: int, s: seq<int>): (r: seq<int>)
    ensures |r| == |s| + 1
  {
    var n := |s| - 1;
    if s == [] || s[n] <= x then s + [x] else Insert(x, s[..n]) + [s[n]]
  }

  function CountAtLeast(s: seq<int>, m: int): nat {
    if s == [] then 0 else CountAtLeast(s[..|s| - 1], m) + (if s[|s| - 1] >= m then 1 else 0)
  }

  ghost predicate Ascending(s: seq<int>) {
    forall i, j :: 0 <= i <= j < |s| ==> s[i] <= s[j]
  }

  lemma {:induction false} InsertSorts(x: int, s: seq<int>, m: int)
    requires Ascending(s)
    ensures Ascending(Insert(x, s))
    ensures CountAtLeast(Insert(x, s), m) == (if x >= m then 1 else 0) + CountAtLeast(s, m)
    ensures forall y :: y in Insert(x, s) <==> y == x || y in s
  {
    var n := |s| - 1;
    if s == [] || s[n] <= x {
      assert (s + [x])[..|s|] == s;
    } else {
      InsertSorts(x, s[..n], m);
      var r := Insert(x, s[..n]);
      assert forall y :: y in r ==> y <= s[n];
      assert (r + [s[n]])[..|r|] == r;
    }
  }

  lemma {:induction false} SortedSorts(s: seq<int>, m: int)
    ensures Ascending(Sorted(s)) && CountAtLeast(Sorted(s), m) == CountAtLeast(s, m)
    ensures forall y :: y in Sorted(s) <==> y in s
  {
    if s != [] {
      SortedSorts(s[..|s| - 1], m);
      InsertSorts(s[|s| - 1], Sorted(s[..|s| - 1]), m);
    }
  }
}
