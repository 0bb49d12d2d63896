/**
 The network may reorder, and AppendEntries drops whatever follows the request's entries even when nothing
 conflicts.  Together they break State Machine Safety in clusters of any size from three up: in the runs below stale
 empty requests erase a committed entry from the followers, which then help to elect a leader without it.
 */
module RaftReorder {
  import opened RaftTypes
  import opened RaftServer
  import opened RaftCluster
  import opened RaftMajority

  /** The request contradicts no entry of the log. */
  ghost predicate NoConflict(l: Log, args: AppendArgs) {
    forall k :: 0 <= k < |args.entries| && 0 <= args.prevLogIndex + 1 + k < |l| ==>
      l[args.prevLogIndex + 1 + k] == args.entries[k]
  }

  /**
   Where Figure 2 of the paper would keep the log, the source keeps it exactly when the request does not end before it.
   */
  lemma KeepsLogIffNotStale(s: Server, args: AppendArgs)
    requires AppendEntries(s, args).1.success && NoConflict(s.log, args)
    ensures s.log <= AppendEntries(s, args).0.log <==> |s.log| <= args.prevLogIndex + |args.entries| + 1
  {
    SuccessLog(s, args);
    PrefixIff(s.log, args);
  }

  lemma SuccessLog(s: Server, args: AppendArgs)
    requires AppendEntries(s, args).1.success
    ensures 0 <= args.prevLogIndex < |s.log|
    ensures AppendEntries(s, args).0.log == s.log[..args.prevLogIndex + 1] + args.entries
  {
  }

  lemma PrefixIff(l: Log, args: AppendArgs)
    requires 0 <= args.prevLogIndex < |l| && NoConflict(l, args)
    ensures l <= l[..args.prevLogIndex + 1] + args.entries <==> |l| <= args.prevLogIndex + |args.entries| + 1
  {
    var p := args.prevLogIndex;
    var m := l[..p + 1] + args.entries;
    if |l| <= |m| {
      forall k | 0 <= k < |l| ensures l[k] == m[k] {
        if k > p {
          assert l[p + 1 + (k - p - 1)] == args.entries[k - p - 1];
        }
      }
    }
  }

  // ---------- Runs ----------

  const Old: Log := [Placeholder]

  function Entry(t: nat, x: Command): LogEntry { LogEntry(t, Some(x)) }

  lemma Grow(r: Run, c: Cluster, e: Event) returns (q: Run)
    requires EndsIn(r, c) && Enabled(c, e)
    ensures EndsIn(q, Apply(c, e))
  {
    q := Run(r.states + [Apply(c, e)], r.events + [e]);
  }

  ghost predicate Shaped(c: Cluster, n: nat) {
    && |c.servers| == n
    && forall i :: 0 <= i < n ==> c.servers[i].me == i && |c.servers[i].nextIndex| == |c.servers[i].matchIndex| == n
  }

  /** Outside server l and the servers from lo to hi nothing changes. */
  ghost predicate SameElsewhere(c: Cluster, d: Cluster, l: nat, lo: nat, hi: nat) {
    && |c.servers| == |d.servers|
    && forall i :: 0 <= i < |c.servers| && i != l && !(lo <= i < hi) ==> d.servers[i] == c.servers[i]
  }

  /** The server has an empty log. */
  predicate Blank(s: Server) {
    s.log == Old && s.commitIndex == 0
  }

  /** Nothing changes but what the server remembers of terms, votes and entries. */
  predicate Alike(s: Server, f: Server) {
    f.me == s.me && f.nextIndex == s.nextIndex && f.matchIndex == s.matchIndex
  }

  /** The request to w, of the round numbered from `base`, is on its way. */
  ghost predicate InFlight(c: Cluster, base: nat, l: nat, w: nat, args: AppendArgs) {
    base + w in c.appends && c.appends[base + w] == AppendSent(l, w, args)
  }

  ghost predicate VoteInFlight(c: Cluster, l: nat, t: nat, w: nat) {
    (l, t, w) in c.votes && c.votes[(l, t, w)] == VoteAsked(VoteArgs(t, l, 0, 0))
  }

  // ---------- An election ----------

  /** Candidate l of term t has the votes of the servers from lo to v and has asked those from v to hi. */
  ghost predicate Counting(c: Cluster, d: Cluster, n: nat, l: nat, lo: nat, v: nat, hi: nat, t: nat) {
    && Shaped(d, n) && SameElsewhere(c, d, l, lo, hi) && d.appends == c.appends && d.sent == c.sent
    && l < n && lo <= v <= hi <= n && !(lo <= l < hi) && hi - lo == n / 2
    && Blank(d.servers[l]) && d.servers[l].currentTerm == t && d.servers[l].votes == 1 + v - lo
    && (if v < hi then d.servers[l].role == Candidate else Leads(d.servers[l], n))
    && (forall w :: v <= w < hi ==> Blank(d.servers[w]) && d.servers[w].currentTerm < t && VoteInFlight(d, l, t, w))
    && (forall w :: lo <= w < v ==> Blank(d.servers[w]) && d.servers[w].currentTerm == t)
  }

  predicate Leads(s: Server, n: nat) {
    s.role == Leader && s.nextIndex == seq(n, _ => 1) && s.matchIndex == seq(n, _ => 0)
  }

  lemma VoteGranted(s: Server, t: nat, l: nat)
    requires Blank(s) && s.currentTerm < t
    ensures var (f, reply) := RequestVote(s, VoteArgs(t, l, 0, 0));
            Blank(f) && f.currentTerm == t && Alike(s, f) && reply.granted && reply.term <= t
  {
  }

  /** The vote of v is on its way back. */
  ghost predicate Returning(c: Cluster, d: Cluster, n: nat, l: nat, lo: nat, v: nat, hi: nat, t: nat) {
    && Shaped(d, n) && SameElsewhere(c, d, l, lo, hi) && d.appends == c.appends && d.sent == c.sent
    && l < n && lo <= v < hi <= n && !(lo <= l < hi) && hi - lo == n / 2
    && Blank(d.servers[l]) && d.servers[l].currentTerm == t && d.servers[l].votes == 1 + v - lo
    && d.servers[l].role == Candidate
    && (l, t, v) in d.votes && d.votes[(l, t, v)].VoteReplied?
    && d.votes[(l, t, v)].reply.granted && d.votes[(l, t, v)].reply.term <= t
    && (forall w :: v < w < hi ==> Blank(d.servers[w]) && d.servers[w].currentTerm < t && VoteInFlight(d, l, t, w))
    && (forall w :: lo <= w <= v ==> Blank(d.servers[w]) && d.servers[w].currentTerm == t)
  }

  lemma VoteArrives(c: Cluster, d: Cluster, n: nat, l: nat, lo: nat, v: nat, hi: nat, t: nat)
    requires Counting(c, d, n, l, lo, v, hi, t) && v < hi
    ensures VotePending(d, l, t, v) && Returning(c, OnDeliverVote(d, l, t, v), n, l, lo, v, hi, t)
  {
    VoteGranted(d.servers[v], t, l);
  }

  lemma VoteReturns(c: Cluster, d: Cluster, n: nat, l: nat, lo: nat, v: nat, hi: nat, t: nat)
    requires Returning(c, d, n, l, lo, v, hi, t)
    ensures VoteAnswerable(d, l, t, v) && Counting(c, OnReturnVote(d, l, t, v), n, l, lo, v + 1, hi, t)
  {
  }

  lemma OneVote(r: Run, c: Cluster, d: Cluster, n: nat, l: nat, lo: nat, v: nat, hi: nat, t: nat)
    returns (q: Run, e: Cluster)
    requires EndsIn(r, d) && Counting(c, d, n, l, lo, v, hi, t) && v < hi
    ensures EndsIn(q, e) && Counting(c, e, n, l, lo, v + 1, hi, t)
  {
    VoteArrives(c, d, n, l, lo, v, hi, t);
    q := Grow(r, d, DeliverVote(l, t, v));
    e := OnDeliverVote(d, l, t, v);
    VoteReturns(c, e, n, l, lo, v, hi, t);
    q := Grow(q, e, ReturnVote(l, t, v));
    e := OnReturnVote(e, l, t, v);
  }

  lemma {:induction false} AllVotes(r: Run, c: Cluster, d: Cluster, n: nat, l: nat, lo: nat, v: nat, hi: nat, t: nat)
    returns (q: Run, e: Cluster)
    requires EndsIn(r, d) && Counting(c, d, n, l, lo, v, hi, t)
    ensures EndsIn(q, e) && Counting(c, e, n, l, lo, hi, hi, t)
    decreases hi - v
  {
    q, e := r, d;
    if v < hi {
      q, e := OneVote(r, c, d, n, l, lo, v, hi, t);
      q, e := AllVotes(q, c, e, n, l, lo, v + 1, hi, t);
    }
  }

  lemma Asks(c: Cluster, n: nat, l: nat, lo: nat, hi: nat, t: nat)
    requires Shaped(c, n) && n >= 3 && l < n && lo <= hi <= n && !(lo <= l < hi) && hi - lo == n / 2
    requires Blank(c.servers[l]) && c.servers[l].role != Leader && c.servers[l].currentTerm + 1 == t
    requires forall w :: lo <= w < hi ==> Blank(c.servers[w]) && c.servers[w].currentTerm < t
    ensures Enabled(OnTimeout(c, l), Ask(l)) && Counting(c, OnAsk(OnTimeout(c, l), l), n, l, lo, lo, hi, t)
  {
    var d := OnTimeout(c, l);
    var e := OnAsk(d, l);
    forall w: nat | w < n && w != l ensures VoteInFlight(e, l, t, w) {
      assert (l, t, w) in Requests(d.servers[l], l, n);
    }
  }

  /** Server l becomes leader of term t by the votes of the servers from lo to hi. */
  lemma Elected(r: Run, c: Cluster, n: nat, l: nat, lo: nat, hi: nat, t: nat) returns (q: Run, d: Cluster)
    requires EndsIn(r, c) && Shaped(c, n) && n >= 3 && l < n && lo <= hi <= n && !(lo <= l < hi) && hi - lo == n / 2
    requires Blank(c.servers[l]) && c.servers[l].role != Leader && c.servers[l].currentTerm + 1 == t
    requires forall w :: lo <= w < hi ==> Blank(c.servers[w]) && c.servers[w].currentTerm < t
    ensures EndsIn(q, d) && Counting(c, d, n, l, lo, hi, hi, t)
  {
    Asks(c, n, l, lo, hi, t);
    q := Grow(r, c, Timeout(l));
    d := OnTimeout(c, l);
    q := Grow(q, d, Ask(l));
    d := OnAsk(d, l);
    q, d := AllVotes(q, c, d, n, l, lo, lo, hi, t);
  }

  // ---------- A commit ----------

  function Full(t: nat, l: nat, x: Command): AppendArgs { AppendArgs(t, l, 0, 0, [Entry(t, x)], 0) }

  /** The matchIndex of a leader that knows the entry to be with itself and with the servers from lo to v. */
  ghost predicate Matches(m: seq<int>, n: nat, l: nat, lo: nat, v: nat) {
    |m| == n && forall i :: 0 <= i < n ==> m[i] == if i == l || lo <= i < v then 1 else 0
  }

  predicate Filled(s: Server, t: nat, x: Command) {
    s.log == Old + [Entry(t, x)] && s.currentTerm == t
  }

  /** Leader l has heard from the servers from lo to v, and its requests to those from v to hi are on their way. */
  ghost predicate Spreading(c: Cluster, d: Cluster, n: nat, l: nat, lo: nat, v: nat, hi: nat, t: nat, x: Command) {
    && Shaped(d, n) && SameElsewhere(c, d, l, lo, hi) && d.sent == c.sent + n
    && (forall id :: id in c.appends && id < c.sent ==> id in d.appends && d.appends[id] == c.appends[id])
    && l < n && lo <= v <= hi <= n && !(lo <= l < hi) && hi - lo == n / 2
    && Filled(d.servers[l], t, x) && d.servers[l].role == Leader && Matches(d.servers[l].matchIndex, n, l, lo, v)
    && 0 <= d.servers[l].commitIndex <= 1 && (v == hi ==> d.servers[l].commitIndex == 1)
    && (forall w :: v <= w < hi ==>
          Blank(d.servers[w]) && d.servers[w].currentTerm == t && InFlight(d, c.sent, l, w, Full(t, l, x)))
    && (forall w :: lo <= w < v ==> Filled(d.servers[w], t, x) && d.servers[w].commitIndex == 0)
  }

  /** The entry has reached server v, and the answer is on its way back. */
  ghost predicate Acking(c: Cluster, d: Cluster, n: nat, l: nat, lo: nat, v: nat, hi: nat, t: nat, x: Command) {
    && Shaped(d, n) && SameElsewhere(c, d, l, lo, hi) && d.sent == c.sent + n
    && (forall id :: id in c.appends && id < c.sent ==> id in d.appends && d.appends[id] == c.appends[id])
    && l < n && lo <= v < hi <= n && !(lo <= l < hi) && hi - lo == n / 2
    && Filled(d.servers[l], t, x) && d.servers[l].role == Leader && Matches(d.servers[l].matchIndex, n, l, lo, v)
    && 0 <= d.servers[l].commitIndex <= 1
    && c.sent + v in d.appends && Accepted(d.appends[c.sent + v], l, v, t, x)
    && (forall w :: v < w < hi ==>
          Blank(d.servers[w]) && d.servers[w].currentTerm == t && InFlight(d, c.sent, l, w, Full(t, l, x)))
    && (forall w :: lo <= w <= v ==> Filled(d.servers[w], t, x) && d.servers[w].commitIndex == 0)
  }

  predicate Accepted(a: AppendCall, l: nat, v: nat, t: nat, x: Command) {
    a.AppendReplied? && a.from == l && a.to == v && a.args == Full(t, l, x) && a.reply.success && a.reply.term == t
  }

  lemma EntryAccepted(s: Server, t: nat, l: nat, x: Command)
    requires Blank(s) && s.currentTerm == t
    ensures var (f, reply) := AppendEntries(s, Full(t, l, x));
            && Filled(f, t, x) && Alike(s, f) && f.commitIndex == 0
            && reply.success && reply.term == t
  {
    assert Old[..1] == Old;
  }

  lemma EntryArrives(c: Cluster, d: Cluster, n: nat, l: nat, lo: nat, v: nat, hi: nat, t: nat, x: Command)
    requires Spreading(c, d, n, l, lo, v, hi, t, x) && v < hi
    ensures AppendPending(d, c.sent + v) && Acking(c, OnDeliverAppend(d, c.sent + v), n, l, lo, v, hi, t, x)
  {
    EntryAccepted(d.servers[v], t, l, x);
  }

  /** Zeros and ones: the majority index is 1 if a majority has 1. */
  lemma MajorityOf(m: seq<int>, n: nat, l: nat, lo: nat, v: nat)
    requires Matches(m, n, l, lo, v) && n > 0 && l < n && lo <= v <= n && !(lo <= l < v)
    ensures 0 <= MajorityIndex(m) <= 1 && (v - lo == n / 2 ==> MajorityIndex(m) == 1)
  {
    var _ := MajorityReached(m);
    if v - lo == n / 2 && MajorityIndex(m) < 1 {
      Ones(m, n, l, lo, v);
      MajorityIsLargest(m, 1);
    }
  }

  lemma {:induction false} Interval(lo: nat, v: nat) returns (q: set<nat>)
    requires lo <= v
    ensures |q| == v - lo && forall i :: i in q <==> lo <= i < v
    decreases v - lo
  {
    q := {};
    if lo < v {
      q := Interval(lo, v - 1);
      q := q + {v - 1};
    }
  }

  lemma Ones(m: seq<int>, n: nat, l: nat, lo: nat, v: nat)
    requires Matches(m, n, l, lo, v) && l < n && lo <= v <= n && !(lo <= l < v) && v - lo == n / 2
    ensures Quorum(Reached(m, 1), n)
  {
    var q := Interval(lo, v);
    assert Reached(m, 1) == q + {l};
  }

  lemma AckCounted(s: Server, n: nat, l: nat, lo: nat, v: nat, t: nat, x: Command, reply: AppendReply)
    requires Filled(s, t, x) && s.role == Leader && Matches(s.matchIndex, n, l, lo, v) && 0 <= s.commitIndex <= 1
    requires |s.nextIndex| == n && l < n && lo <= v < n && !(lo <= l <= v) && reply.success && reply.term == t
    ensures var f := AppendAnswered(s, v, Full(t, l, x), reply);
            && Filled(f, t, x) && f.role == Leader && Matches(f.matchIndex, n, l, lo, v + 1) && 0 <= f.commitIndex <= 1
            && f.me == s.me && |f.nextIndex| == n && (v + 1 - lo == n / 2 ==> f.commitIndex == 1)
  {
    var f := AppendAnswered(s, v, Full(t, l, x), reply);
    assert f.matchIndex == s.matchIndex[v := 1];
    MajorityOf(f.matchIndex, n, l, lo, v + 1);
  }

  lemma AckReturns(c: Cluster, d: Cluster, n: nat, l: nat, lo: nat, v: nat, hi: nat, t: nat, x: Command)
    requires Acking(c, d, n, l, lo, v, hi, t, x)
    ensures AppendAnswerable(d, c.sent + v) && Spreading(c, OnReturnAppend(d, c.sent + v), n, l, lo, v + 1, hi, t, x)
  {
    AckCounted(d.servers[l], n, l, lo, v, t, x, d.appends[c.sent + v].reply);
  }

  lemma OneAck(r: Run, c: Cluster, d: Cluster, n: nat, l: nat, lo: nat, v: nat, hi: nat, t: nat, x: Command)
    returns (q: Run, e: Cluster)
    requires EndsIn(r, d) && Spreading(c, d, n, l, lo, v, hi, t, x) && v < hi
    ensures EndsIn(q, e) && Spreading(c, e, n, l, lo, v + 1, hi, t, x)
  {
    EntryArrives(c, d, n, l, lo, v, hi, t, x);
    q := Grow(r, d, DeliverAppend(c.sent + v));
    e := OnDeliverAppend(d, c.sent + v);
    AckReturns(c, e, n, l, lo, v, hi, t, x);
    q := Grow(q, e, ReturnAppend(c.sent + v));
    e := OnReturnAppend(e, c.sent + v);
  }

  lemma {:induction false} AllAcks(r: Run, c: Cluster, d: Cluster, n: nat, l: nat, lo: nat, v: nat, hi: nat, t: nat,
                                   x: Command)
    returns (q: Run, e: Cluster)
    requires EndsIn(r, d) && Spreading(c, d, n, l, lo, v, hi, t, x)
    ensures EndsIn(q, e) && Spreading(c, e, n, l, lo, hi, hi, t, x)
    decreases hi - v
  {
    q, e := r, d;
    if v < hi {
      q, e := OneAck(r, c, d, n, l, lo, v, hi, t, x);
      q, e := AllAcks(q, c, e, n, l, lo, v + 1, hi, t, x);
    }
  }

  /** What a round of replication sends. */
  lemma RoundSends(c: Cluster, n: nat, l: nat, w: nat)
    requires Shaped(c, n) && l < n && w < n && w != l && c.servers[l].log != []
    requires c.servers[l].role == Leader && c.servers[l].nextIndex[w] == 1
    ensures var s, d := c.servers[l], OnReplicate(c, l);
            InFlight(d, c.sent, l, w, AppendArgs(s.currentTerm, l, 0, s.log[0].term, s.log[1..], s.commitIndex))
  {
    var s := StartReplication(c.servers[l]);
    assert CallNumber(s, l, n, c.sent, c.sent + w).Some?;
    assert c.sent + w in Round(s, l, n, c.sent);
  }

  lemma RoundKeeps(c: Cluster, l: nat, id: nat)
    requires l < |c.servers| && id < c.sent && id in c.appends
    ensures id in OnReplicate(c, l).appends && OnReplicate(c, l).appends[id] == c.appends[id]
  {
  }

  lemma RoundSpreads(c: Cluster, d: Cluster, n: nat, l: nat, lo: nat, hi: nat, t: nat, x: Command)
    requires Shaped(d, n) && n >= 3 && l < n && lo <= hi <= n && !(lo <= l < hi) && hi - lo == n / 2
    requires Filled(d.servers[l], t, x) && d.servers[l].commitIndex == 0 && Leads(d.servers[l], n)
    requires forall w :: lo <= w < hi ==> Blank(d.servers[w]) && d.servers[w].currentTerm == t
    requires SameElsewhere(c, d, l, lo, hi) && d.appends == c.appends && d.sent == c.sent
    ensures Spreading(c, OnReplicate(d, l), n, l, lo, lo, hi, t, x)
  {
    assert d.servers[l].log[1..] == [Entry(t, x)];
    forall w: nat | w < n && w != l ensures InFlight(OnReplicate(d, l), c.sent, l, w, Full(t, l, x)) {
      RoundSends(d, n, l, w);
    }
    forall id: nat | id in c.appends && id < c.sent
      ensures id in OnReplicate(d, l).appends && OnReplicate(d, l).appends[id] == c.appends[id]
    {
      RoundKeeps(d, l, id);
    }
  }

  /** Leader l commits an entry that the servers from lo to hi accept. */
  lemma Commits(r: Run, c: Cluster, n: nat, l: nat, lo: nat, hi: nat, t: nat, x: Command) returns (q: Run, d: Cluster)
    requires EndsIn(r, c) && Shaped(c, n) && n >= 3 && l < n && lo <= hi <= n && !(lo <= l < hi) && hi - lo == n / 2
    requires Blank(c.servers[l]) && Leads(c.servers[l], n) && c.servers[l].currentTerm == t
    requires forall w :: lo <= w < hi ==> Blank(c.servers[w]) && c.servers[w].currentTerm == t
    ensures EndsIn(q, d) && Spreading(c, d, n, l, lo, hi, hi, t, x)
  {
    q := Grow(r, c, Submit(l, x));
    d := OnSubmit(c, l, x);
    RoundSpreads(c, d, n, l, lo, hi, t, x);
    q := Grow(q, d, Replicate(l));
    d := OnReplicate(d, l);
    q, d := AllAcks(q, c, d, n, l, lo, lo, hi, t, x);
  }

  // ---------- The stale requests ----------

  /** A request that carries nothing. */
  function Nothing(t: nat, l: nat): AppendArgs { AppendArgs(t, l, 0, 0, [], 0) }

  /** Before it has any entry, leader l sends a round of requests, which the network delays. */
  lemma Delayed(r: Run, c: Cluster, n: nat, l: nat, t: nat) returns (q: Run, d: Cluster)
    requires EndsIn(r, c) && Shaped(c, n) && l < n
    requires Blank(c.servers[l]) && Leads(c.servers[l], n) && c.servers[l].currentTerm == t
    ensures EndsIn(q, d) && Shaped(d, n) && SameElsewhere(c, d, l, 0, 0) && d.sent == c.sent + n
    ensures Blank(d.servers[l]) && d.servers[l].currentTerm == t && Leads(d.servers[l], n)
    ensures forall w: nat :: w < n && w != l ==> InFlight(d, c.sent, l, w, Nothing(t, l))
  {
    q := Grow(r, c, Replicate(l));
    d := OnReplicate(c, l);
    assert d.servers[l].matchIndex == c.servers[l].matchIndex && d.servers[l].nextIndex == c.servers[l].nextIndex;
    forall w: nat | w < n && w != l ensures InFlight(d, c.sent, l, w, Nothing(t, l)) {
      RoundSends(c, n, l, w);
    }
  }

  /** The server has committed nothing, whatever its log. */
  predicate Rooted(s: Server, t: nat) {
    |s.log| > 0 && s.log[0] == Placeholder && s.currentTerm == t && s.commitIndex == 0
  }

  /** The servers from lo to v have lost the entry again, and stale requests for those from v to hi are on their way. */
  ghost predicate Erasing(c: Cluster, d: Cluster, n: nat, base: nat, l: nat, lo: nat, v: nat, hi: nat, t: nat) {
    && Shaped(d, n) && SameElsewhere(c, d, lo, lo, hi) && lo <= v <= hi <= n
    && (forall w :: v <= w < hi ==> Rooted(d.servers[w], t) && InFlight(d, base, l, w, Nothing(t, l)))
    && (forall w :: lo <= w < v ==> Blank(d.servers[w]) && d.servers[w].currentTerm == t)
  }

  lemma Erased(s: Server, t: nat, l: nat)
    requires Rooted(s, t)
    ensures var f := AppendEntries(s, Nothing(t, l)).0; Blank(f) && f.currentTerm == t && Alike(s, f)
  {
    assert s.log[..1] + [] == Old;
  }

  lemma OneErased(c: Cluster, d: Cluster, n: nat, base: nat, l: nat, lo: nat, v: nat, hi: nat, t: nat)
    requires Erasing(c, d, n, base, l, lo, v, hi, t) && v < hi
    ensures AppendPending(d, base + v) && Erasing(c, OnDeliverAppend(d, base + v), n, base, l, lo, v + 1, hi, t)
  {
    Erased(d.servers[v], t, l);
  }

  /** The delayed requests arrive. */
  lemma {:induction false} AllErased(r: Run, c: Cluster, d: Cluster, n: nat, base: nat, l: nat, lo: nat, v: nat,
                                     hi: nat, t: nat)
    returns (q: Run, e: Cluster)
    requires EndsIn(r, d) && Erasing(c, d, n, base, l, lo, v, hi, t)
    ensures EndsIn(q, e) && Erasing(c, e, n, base, l, lo, hi, hi, t)
    decreases hi - v
  {
    q, e := r, d;
    if v < hi {
      OneErased(c, d, n, base, l, lo, v, hi, t);
      q := Grow(r, d, DeliverAppend(base + v));
      q, e := AllErased(q, c, OnDeliverAppend(d, base + v), n, base, l, lo, v + 1, hi, t);
    }
  }

  // ---------- Together ----------

  function Start(n: nat): Cluster {
    Cluster(seq(n, i requires 0 <= i < n => Fresh(i, n, None)), map[], map[], 0)
  }

  /** Server 0 has committed the entry of term 2; all others have empty logs, and none is beyond term 2. */
  ghost predicate Forgotten(c: Cluster, n: nat, x: Command) {
    && Shaped(c, n) && n >= 3 && Filled(c.servers[0], 2, x) && c.servers[0].commitIndex == 1
    && (forall i :: 0 < i < n ==> Blank(c.servers[i]) && c.servers[i].currentTerm <= 2)
    && c.servers[n - 1].currentTerm == 1 && c.servers[n - 1].role == Follower
  }

  /** The delayed requests are still on their way after the commit. */
  lemma StillInFlight(c1: Cluster, c2: Cluster, c3: Cluster, n: nat, hi: nat, x: Command)
    requires Spreading(c2, c3, n, 0, 1, hi, hi, 2, x) && c2.sent == c1.sent + n
    requires forall w: nat :: w < n && w != 0 ==> InFlight(c2, c1.sent, 0, w, Nothing(2, 0))
    ensures Erasing(c3, c3, n, c1.sent, 0, 1, 1, hi, 2)
  {
    forall w: nat | 1 <= w < hi ensures Rooted(c3.servers[w], 2) && InFlight(c3, c1.sent, 0, w, Nothing(2, 0)) {
      assert Filled(c3.servers[w], 2, x) && InFlight(c2, c1.sent, 0, w, Nothing(2, 0));
    }
  }

  /** Server 0 commits an entry with the servers up to n / 2, and stale requests erase it there. */
  lemma EntryForgotten(n: nat, x: Command) returns (r: Run, c: Cluster)
    requires n >= 3
    ensures EndsIn(r, c) && Forgotten(c, n, x)
  {
    var c0, hi := Start(n), 1 + n / 2;
    var c1, c2, c3: Cluster;
    r, c1 := Elected(Run([c0], []), c0, n, 0, 1, hi, 2);
    r, c2 := Delayed(r, c1, n, 0, 2);
    r, c3 := Commits(r, c2, n, 0, 1, hi, 2, x);
    StillInFlight(c1, c2, c3, n, hi, x);
    r, c := AllErased(r, c3, c3, n, c1.sent, 0, 1, 1, hi, 2);
    forall i | hi <= i < n ensures c.servers[i] == Fresh(i, n, None) {
      assert c.servers[i] == c3.servers[i] == c2.servers[i] == c1.servers[i] == c0.servers[i];
    }
    assert c.servers[0] == c3.servers[0];
  }

  /** Servers 0 and n - 1 end up with different committed entries at index 1, whatever the size of the cluster. */
  lemma ReorderingBreaksSafety(n: nat, x: Command) returns (r: Run)
    requires n >= 3
    ensures IsRun(r)
    ensures var c := r.states[|r.states| - 1];
            && |c.servers| == n
            && c.servers[0].commitIndex == 1 == c.servers[n - 1].commitIndex
            && |c.servers[0].log| == 2 == |c.servers[n - 1].log|
            && c.servers[0].log[1] != c.servers[n - 1].log[1]
  {
    var c1, c2, c3: Cluster;
    var l, lo := n - 1, n - 1 - n / 2;
    r, c1 := EntryForgotten(n, x);
    r := Grow(r, c1, Timeout(l));
    c2 := OnTimeout(c1, l);
    r, c3 := Elected(r, c2, n, l, lo, l, 3);
    r, c2 := Commits(r, c3, n, l, lo, l, 3, x);
    assert c2.servers[0] == c3.servers[0] == c1.servers[0];
  }
}
