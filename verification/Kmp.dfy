/** Knuth-Morris-Pratt: the table of borders, the first occurrence, and repeated substrings. */
module Kmp {

  // ---------- Borders ----------

  /** The prefix of length k is also a suffix of the first m characters, and shorter than they are. */
  ghost predicate Border(s: string, m: int, k: int) {
    0 <= k < m <= |s| && s[..k] == s[m - k..m]
  }

  ghost predicate LongestBorder(s: string, m: int, k: int) {
    Border(s, m, k) && forall b :: Border(s, m, b) ==> b <= k
  }

  /** The first i entries of the table. */
  ghost predicate TableOk(next: seq<int>, s: string, i: int) {
    0 <= i <= |next| == |s| && forall j {:trigger next[j]} :: 0 <= j < i ==> EntryOk(s, j, next[j])
  }

  ghost predicate EntryOk(s: string, j: int, k: int) {
    LongestBorder(s, j + 1, k)
  }

  lemma BorderShrinks(s: string, i: int, b: int)
    requires Border(s, i + 1, b) && b > 0
    ensures s[b - 1] == s[i] && (i > 0 ==> Border(s, i, b - 1))
  {
    assert s[..b][b - 1] == s[i + 1 - b..i + 1][b - 1];
    assert s[..b - 1] == s[..b][..b - 1] == s[i + 1 - b..i + 1][..b - 1] == s[i - (b - 1)..i];
  }

  lemma BorderGrows(s: string, i: int, j: int)
    requires Border(s, i, j) && i < |s| && s[i] == s[j]
    ensures Border(s, i + 1, j + 1)
  {
    assert s[..j + 1] == s[..j] + [s[j]];
    assert s[i - j..i + 1] == s[i - j..i] + [s[i]];
  }

  /** A shorter border is a border of a longer one, and a border of a border is a border. */
  lemma BordersNest(s: string, i: int, j: int, b: int)
    requires Border(s, i, j) && 0 <= b < j
    ensures Border(s, i, b) <==> Border(s, j, b)
  {
    assert s[i - b..i] == s[i - j..i][j - b..] == s[..j][j - b..] == s[j - b..j];
  }

  ghost predicate Reaches(s: string, m: int, j: int) {
    forall b :: Border(s, m, b) ==> b - 1 <= j
  }

  /** After the fallback loop, j is the longest border that can still be extended. */
  ghost predicate Candidate(s: string, i: int, j: int) {
    Border(s, i, j) && Reaches(s, i + 1, j)
  }

  lemma FallBack(s: string, i: int, j: int, k: int)
    requires Candidate(s, i, j) && 0 < j && i < |s| && s[i] != s[j] && LongestBorder(s, j, k)
    ensures Candidate(s, i, k)
  {
    BordersNest(s, i, j, k);
    var m := i + 1;
    forall b | Border(s, m, b) ensures b - 1 <= k {
      if b > 0 {
        BorderShrinks(s, i, b);
        BordersNest(s, i, j, b - 1);
      }
    }
  }

  lemma FirstCandidate(s: string, i: int, j: int)
    requires LongestBorder(s, i, j) && i < |s|
    ensures Candidate(s, i, j)
  {
    var m := i + 1;
    forall b | Border(s, m, b) ensures b - 1 <= j {
      if b > 0 {
        BorderShrinks(s, i, b);
      }
    }
  }

  lemma Settle(s: string, i: int, j: int)
    requires Candidate(s, i, j) && i < |s| && (j == 0 || s[i] == s[j])
    ensures LongestBorder(s, i + 1, if s[i] == s[j] then j + 1 else j)
  {
    if s[i] == s[j] {
      BorderGrows(s, i, j);
    } else {
      var m := i + 1;
      forall b | Border(s, m, b) ensures b <= 0 {
        if b > 0 {
          BorderShrinks(s, i, b);
        }
      }
      assert s[..0] == s[i + 1..i + 1];
    }
  }

  method GetNext(next: array<int>, s: string)
    requires next.Length == |s| > 0
    modifies next
    ensures TableOk(next[..], s, |s|)
  {
    var j := 0;
    next[0] := 0;
    assert s[..0] == s[1..1];
    for i := 1 to |s|
      invariant TableOk(next[..], s, i) && j == next[i - 1]
    {
      assert EntryOk(s, i - 1, next[..][i - 1]);
      FirstCandidate(s, i, j);
      while j > 0 && s[i] != s[j]
        invariant Candidate(s, i, j) && TableOk(next[..], s, i)
        decreases j
      {
        assert EntryOk(s, j - 1, next[..][j - 1]);
        FallBack(s, i, j, next[j - 1]);
        j := next[j - 1];
      }
      Settle(s, i, j);
      if s[i] == s[j] {
        j := j + 1;
      }
      assert EntryOk(s, i, j);
      ghost var was := next[..];
      next[i] := j;
      assert next[..] == was[i := j];
    }
  }

  // ---------- The first occurrence ----------

  ghost predicate OccursAt(haystack: string, needle: string, p: int) {
    0 <= p && p + |needle| <= |haystack| && haystack[p..p + |needle|] == needle
  }

  /** The first k characters of the needle end at position i of the haystack. */
  ghost predicate Match(h: string, i: int, needle: string, k: int) {
    0 <= k <= i <= |h| && k <= |needle| && h[i - k..i] == needle[..k]
  }

  ghost predicate LongestMatch(h: string, i: int, needle: string, k: int) {
    Match(h, i, needle, k) && forall b :: Match(h, i, needle, b) ==> b <= k
  }

  ghost predicate MatchReaches(h: string, m: int, needle: string, j: int) {
    forall b :: Match(h, m, needle, b) ==> b - 1 <= j
  }

  ghost predicate MatchCandidate(h: string, i: int, needle: string, j: int) {
    Match(h, i, needle, j) && MatchReaches(h, i + 1, needle, j)
  }

  lemma MatchShrinks(h: string, i: int, needle: string, b: int)
    requires Match(h, i + 1, needle, b) && b > 0
    ensures needle[b - 1] == h[i] && Match(h, i, needle, b - 1)
  {
    assert h[i + 1 - b..i + 1][b - 1] == needle[..b][b - 1];
    assert h[i - (b - 1)..i] == h[i + 1 - b..i + 1][..b - 1] == needle[..b][..b - 1] == needle[..b - 1];
  }

  lemma MatchGrows(h: string, i: int, needle: string, j: int)
    requires Match(h, i, needle, j) && i < |h| && j < |needle| && h[i] == needle[j]
    ensures Match(h, i + 1, needle, j + 1)
  {
    assert h[i - j..i + 1] == h[i - j..i] + [h[i]];
    assert needle[..j + 1] == needle[..j] + [needle[j]];
  }

  lemma MatchesNest(h: string, i: int, needle: string, j: int, b: int)
    requires Match(h, i, needle, j) && 0 <= b < j
    ensures Match(h, i, needle, b) <==> Border(needle, j, b)
  {
    assert h[i - b..i] == h[i - j..i][j - b..] == needle[..j][j - b..] == needle[j - b..j];
  }

  lemma MatchFallBack(h: string, i: int, needle: string, j: int, k: int)
    requires MatchCandidate(h, i, needle, j) && 0 < j < |needle| && i < |h| && h[i] != needle[j]
          && LongestBorder(needle, j, k)
    ensures MatchCandidate(h, i, needle, k)
  {
    MatchesNest(h, i, needle, j, k);
    var m := i + 1;
    forall b | Match(h, m, needle, b) ensures b - 1 <= k {
      if b > 0 {
        MatchShrinks(h, i, needle, b);
        MatchesNest(h, i, needle, j, b - 1);
      }
    }
  }

  lemma FirstMatchCandidate(h: string, i: int, needle: string, j: int)
    requires LongestMatch(h, i, needle, j) && i < |h|
    ensures MatchCandidate(h, i, needle, j)
  {
    var m := i + 1;
    forall b | Match(h, m, needle, b) ensures b - 1 <= j {
      if b > 0 {
        MatchShrinks(h, i, needle, b);
      }
    }
  }

  lemma MatchSettle(h: string, i: int, needle: string, j: int)
    requires MatchCandidate(h, i, needle, j) && i < |h| && j < |needle| && (j == 0 || h[i] == needle[j])
    ensures LongestMatch(h, i + 1, needle, if h[i] == needle[j] then j + 1 else j)
  {
    if h[i] == needle[j] {
      MatchGrows(h, i, needle, j);
    } else {
      var m := i + 1;
      forall b | Match(h, m, needle, b) ensures b <= 0 {
        if b > 0 {
          MatchShrinks(h, i, needle, b);
        }
      }
      assert h[i + 1..i + 1] == needle[..0];
    }
  }

  /** A whole occurrence that ends at position i is a match of full length. */
  lemma OccurrenceIsMatch(h: string, needle: string, p: int)
    ensures OccursAt(h, needle, p) <==> p >= 0 && Match(h, p + |needle|, needle, |needle|)
  {
    assert needle[..|needle|] == needle;
  }

  /** The first occurrence of a nonempty needle, or -1 if there is none. */
  method StrStr(haystack: string, needle: string) returns (r: int)
    requires needle != ""
    ensures r == -1 || OccursAt(haystack, needle, r)
    ensures forall p :: OccursAt(haystack, needle, p) ==> r != -1 && r <= p
  {
    var next := new int[|needle|];
    GetNext(next, needle);
    var j := 0;
    assert haystack[0..0] == needle[..0];
    for i := 0 to |haystack|
      invariant LongestMatch(haystack, i, needle, j) && j < |needle| && TableOk(next[..], needle, |needle|)
      invariant forall p :: OccursAt(haystack, needle, p) ==> p + |needle| > i
    {
      FirstMatchCandidate(haystack, i, needle, j);
      while j > 0 && haystack[i] != needle[j]
        invariant MatchCandidate(haystack, i, needle, j) && j < |needle| && TableOk(next[..], needle, |needle|)
        decreases j
      {
        assert EntryOk(needle, j - 1, next[..][j - 1]);
        MatchFallBack(haystack, i, needle, j, next[j - 1]);
        j := next[j - 1];
      }
      MatchSettle(haystack, i, needle, j);
      if haystack[i] == needle[j] {
        j := j + 1;
      }
      if j == |needle| {
        OccurrenceIsMatch(haystack, needle, i + 1 - |needle|);
        return i - |needle| + 1;
      }
      forall p | OccursAt(haystack, needle, p) ensures p + |needle| > i + 1 {
        OccurrenceIsMatch(haystack, needle, p);
      }
    }
    return -1;
  }

  // ---------- Repeated substrings ----------

  function Repeat(t: string, k: nat): string {
    if k == 0 then "" else t + Repeat(t, k - 1)
  }

  /** Every character equals the one p places further on. */
  ghost predicate Period(s: string, p: int) {
    0 < p <= |s| && forall i {:trigger Same(s, i, p)} :: 0 <= i < |s| - p ==> Same(s, i, p)
  }

  ghost predicate Same(s: string, i: int, p: int)
    requires 0 <= i < |s| && 0 <= i + p < |s|
  {
    s[i] == s[i + p]
  }

  lemma BorderIsPeriod(s: string, b: int)
    requires 0 <= b < |s|
    ensures Border(s, |s|, b) <==> Period(s, |s| - b)
  {
    var p := |s| - b;
    assert s[|s| - b..|s|] == s[p..];
    if Border(s, |s|, b) {
      forall i | 0 <= i < |s| - p ensures Same(s, i, p) {
        assert s[..b][i] == s[p..][i];
      }
    }
    if Period(s, p) {
      forall i | 0 <= i < b ensures s[..b][i] == s[p..][i] {
        assert Same(s, i, p);
      }
      assert s[..b] == s[p..];
    }
  }

  lemma {:induction false} RepeatLength(t: string, k: nat)
    ensures |Repeat(t, k)| == k * |t|
  {
    if k > 0 {
      RepeatLength(t, k - 1);
    }
  }

  lemma {:induction false} RepeatIsPeriodic(t: string, k: nat)
    requires t != "" && k > 0
    ensures Period(Repeat(t, k), |t|)
  {
    if k > 1 {
      RepeatIsPeriodic(t, k - 1);
      var r, s, q := Repeat(t, k - 1), Repeat(t, k), |t|;
      assert r == t + Repeat(t, k - 2);
      forall i | 0 <= i < |s| - q ensures Same(s, i, q) {
        assert s[i + q] == r[i];
        assert i >= q ==> s[i] == r[i - q] && Same(r, i - q, q);
      }
    } else {
      assert Repeat(t, 0) == "" && Repeat(t, 1) == t + "" == t;
    }
  }

  lemma {:induction false} PeriodicIsRepeat(s: string, p: int, k: nat)
    requires Period(s, p) && |s| == k * p && k > 0
    ensures s == Repeat(s[..p], k)
  {
    if k == 1 {
      assert Repeat(s[..p], 1) == s[..p] + Repeat(s[..p], 0);
      assert s[..p] == s;
    } else {
      var r := s[p..];
      assert |r| == (k - 1) * p;
      LongEnough(k - 1, p);
      forall i | 0 <= i < |r| - p ensures Same(r, i, p) {
        assert Same(s, i + p, p);
      }
      PeriodicIsRepeat(r, p, k - 1);
      forall i | 0 <= i < p ensures r[..p][i] == s[..p][i] {
        assert Same(s, i, p);
      }
      assert r[..p] == s[..p];
      assert s == s[..p] + r;
    }
  }

  lemma LongEnough(k: nat, p: nat)
    requires k > 0
    ensures k * p >= p
  {
  }

  /** Of two periods that together are no longer than the string, the difference is a period too. */
  lemma DifferenceIsPeriod(s: string, p: int, q: int)
    requires Period(s, p) && Period(s, q) && p < q && p + q <= |s|
    ensures Period(s, q - p)
  {
    var d := q - p;
    forall i | 0 <= i < |s| - d ensures Same(s, i, d) {
      if i + q < |s| {
        assert Same(s, i, q) && Same(s, i + d, p);
      } else {
        assert Same(s, i - p, p) && Same(s, i - p, q);
      }
    }
  }

  /** The shortest period divides every period that leaves room for both (Fine and Wilf). */
  lemma {:induction false} ShortestDivides(s: string, p: int, q: int)
    requires Period(s, p) && Period(s, q) && p <= q && p + q <= |s|
    requires forall r :: Period(s, r) ==> p <= r
    ensures q % p == 0
    decreases q
  {
    if p < q {
      DifferenceIsPeriod(s, p, q);
      ShortestDivides(s, p, q - p);
      AddOne(q - p, p);
    } else {
      MultiplesDivide(1, p);
    }
  }

  lemma MultiplesDivide(x: int, p: int)
    requires p > 0
    ensures (x * p) % p == 0
  {
    var d, r := (x * p) / p, (x * p) % p;
    assert x * p == d * p + r;
    assert (x - d) * p == r;
    assert x - d >= 1 ==> (x - d - 1) * p >= 0;
    assert x - d <= -1 ==> (d - x - 1) * p >= 0;
  }

  lemma AddOne(m: int, p: int)
    requires p > 0 && m % p == 0
    ensures (m + p) % p == 0
  {
    var d := m / p;
    assert m == d * p;
    assert m + p == (d + 1) * p;
    MultiplesDivide(d + 1, p);
  }

  lemma DividesThrough(n: nat, q: int, p: int)
    requires p > 0 && q > 0 && n % q == 0 && q % p == 0
    ensures n % p == 0
  {
    var x, y := n / q, q / p;
    assert n == x * q && q == y * p;
    assert n == (x * y) * p by { Assoc(x, y, p); }
    MultiplesDivide(x * y, p);
  }

  lemma Assoc(x: int, y: int, p: int)
    ensures x * (y * p) == (x * y) * p
  {
  }

  /** The string is a shorter string written down at least twice. */
  ghost predicate Repeated(s: string) {
    exists t, k: nat :: k >= 2 && s == Repeat(t, k)
  }

  /** The test on the longest border decides it. */
  lemma BorderDecides(s: string, b: int)
    requires s != "" && LongestBorder(s, |s|, b)
    ensures (b != 0 && |s| % (|s| - b) == 0) <==> Repeated(s)
  {
    var n, p := |s|, |s| - b;
    BorderIsPeriod(s, b);
    if b != 0 && n % p == 0 {
      var k := n / p;
      assert n == k * p;
      AtLeastTwo(n, p, k);
      PeriodicIsRepeat(s, p, k);
    }
    if Repeated(s) {
      var t, k: nat :| k >= 2 && s == Repeat(t, k);
      RepeatedHasBorder(s, b, t, k);
    }
  }

  lemma AtLeastTwo(n: nat, p: nat, k: int)
    requires 0 < p < n && n == k * p
    ensures k >= 2
  {
    assert k <= 0 ==> k * p <= 0;
  }

  lemma RepeatedHasBorder(s: string, b: int, t: string, k: nat)
    requires s != "" && LongestBorder(s, |s|, b) && k >= 2 && s == Repeat(t, k)
    ensures b != 0 && |s| % (|s| - b) == 0
  {
    var n, p, q := |s|, |s| - b, |t|;
    RepeatLength(t, k);
    assert t != "" by {
      assert t == "" ==> k * |t| == 0;
    }
    assert n >= 2 * q by { Twice(k, q); }
    RepeatIsPeriodic(t, k);
    BorderIsPeriod(s, n - q);
    BorderIsPeriod(s, b);
    forall r | Period(s, r) ensures p <= r {
      BorderIsPeriod(s, n - r);
    }
    ShortestDivides(s, p, q);
    MultiplesDivide(k, q);
    DividesThrough(n, q, p);
  }

  lemma Twice(k: nat, q: nat)
    requires k >= 2
    ensures k * q >= 2 * q
  {
  }

  method RepeatedSubstringPattern(s: string) returns (r: bool)
    requires s != ""
    ensures r <==> Repeated(s)
  {
    var n := |s|;
    var next := new int[n];
    GetNext(next, s);
    assert EntryOk(s, n - 1, next[..][n - 1]);
    BorderDecides(s, next[n - 1]);
    if next[n - 1] != 0 && n % (n - next[n - 1]) == 0 {
      return true;
    }
    return false;
  }
}
