/** What the handlers answer and what the answers do, said without the handlers' own bodies. */
module RaftAnswers {
  import opened RaftTypes
  import opened RaftServer
  import opened RaftCluster
  import opened RaftProtocol
  import opened RaftInvariant
  import opened RaftMajority
  import opened RaftLogs
  import opened RaftSteps
  import opened RaftSafety
  import opened RaftTheorems

  // ---------- Votes ----------

  /** A vote is granted exactly if the request is current, the vote is free and the candidate's log is up to date. */
  lemma VoteGrantedIff(s: Server, l: Log, args: VoteArgs)
    requires s.log != [] && l != [] && args.lastLogIndex == |l| - 1 && args.lastLogTerm == l[|l| - 1].term
    ensures var (f, reply) := RequestVote(s, args);
            && reply.term == s.currentTerm
            && (reply.granted <==> && s.currentTerm <= args.term
                                   && (s.votedFor == NO_VOTE || s.currentTerm < args.term) && UpToDate(l, s.log))
            && f.currentTerm == (if args.term > s.currentTerm then args.term else s.currentTerm)
            && f.votedFor == (if reply.granted then args.candidateId
                              else if args.term > s.currentTerm then NO_VOTE else s.votedFor)
            && f.log == s.log && f.commitIndex == s.commitIndex
            && (args.term > s.currentTerm ==> f.role == Follower) && (args.term <= s.currentTerm ==> f.role == s.role)
            && (reply.granted ==> f.disk == Some(Persisted(args.term, args.candidateId, s.log)))
  {
  }

  // ---------- Rejections ----------

  /** The first index of a term in the log of a server. */
  ghost predicate FirstOf(l: Log, t: nat, k: int) {
    0 <= k < |l| && l[k].term == t && forall j :: 0 <= j < k ==> l[j].term < t
  }

  /**
   A server tells its term as it was; if it rejects a current request it names the end of its log, if that is too
   short, or else the term it has instead and the first index of that term.
   */
  lemma RejectionSaysWhere(r: Run, i: nat, id: nat)
    requires IsRun(r) && i < |r.states| && AppendPending(r.states[i], id)
    ensures var call := r.states[i].appends[id];
            var s, args := r.states[i].servers[call.to], call.args;
            var reply := AppendEntries(s, args).1;
            && reply.term == s.currentTerm && 0 <= args.prevLogIndex
            && (reply.success <==> && s.currentTerm <= args.term && args.prevLogIndex < |s.log|
                                   && s.log[args.prevLogIndex].term == args.prevLogTerm)
            && (!reply.success && s.currentTerm <= args.term ==>
                  if args.prevLogIndex >= |s.log| then reply.conflictTerm == 0 && reply.conflictIndex == |s.log|
                  else && reply.conflictTerm == s.log[args.prevLogIndex].term
                       && FirstOf(s.log, reply.conflictTerm, reply.conflictIndex))
  {
    var h := HistoriesExist(r);
    var c, call := r.states[i], r.states[i].appends[id];
    var s, k := c.servers[call.to], call.args.prevLogIndex;
    assert ClusterBase(c, h[i]);
    assert AppendCallOk(h[i], |c.servers|, call);
    ServerAt(r, h, i, call.to);
    AcceptsIsSuccess(s, call.args);
    if call.args.term >= s.currentTerm && k < |s.log| && s.log[k].term != call.args.prevLogTerm {
      assert ElectionOk(h[i].p, call.args.term);
      FirstIsFirst(h[i].p, s.log, k);
    }
  }

  lemma FirstIsFirst(p: Protocol, l: Log, k: nat)
    requires Base(p) && Canonical(l, p.elections) && 1 <= k < |l|
    ensures FirstOf(l, l[k].term, FirstFor(l, l[k].term))
  {
    var t := l[k].term;
    FirstForPresent(p, l, t, k);
    assert Rooted(l, k, p.elections) && ElectionOk(p, t);
    var e := p.elections[t];
    assert TermsBelow(e.first, t);
    forall x | 0 <= x <= k ensures l[x] == e.log[x] {
      assert l[x] == l[..k + 1][x] == e.log[..k + 1][x];
    }
    forall x | 0 <= x < |e.first| ensures l[x].term < t {
      assert e.first[x] == e.log[x];
    }
    FirstFromSound(l, t, 0);
  }

  // ---------- Counting answers ----------

  /** The answer is to a request of the leader's present term and does not come from a later term. */
  ghost predicate Counted(s: Server, args: AppendArgs, reply: AppendReply) {
    s.role == Leader && s.currentTerm == args.term && reply.term <= s.currentTerm && reply.success
  }

  /** The leader has committed every entry of its term that a majority is known to have. */
  ghost predicate CommitsAll(s: Server) {
    forall k: nat {:trigger Reached(s.matchIndex, k)} ::
      k < |s.log| && s.log[k].term == s.currentTerm && Quorum(Reached(s.matchIndex, k), |s.matchIndex|) ==>
        k <= s.commitIndex
  }

  /** What a counted answer changes on the leader. */
  ghost predicate Updated(s: Server, f: Server, peer: nat, end: int) {
    && peer < |s.matchIndex| == |s.nextIndex|
    && f.matchIndex == s.matchIndex[peer := end] && f.nextIndex == s.nextIndex[peer := end + 1]
    && f.commitIndex >= s.commitIndex
    && f == s.(matchIndex := f.matchIndex, nextIndex := f.nextIndex, commitIndex := f.commitIndex)
  }

  lemma AnswerUpdates(s: Server, peer: nat, args: AppendArgs, reply: AppendReply)
    requires Counted(s, args, reply) && peer < |s.nextIndex| == |s.matchIndex|
    ensures var f := AppendAnswered(s, peer, args, reply);
            && Updated(s, f, peer, args.prevLogIndex + |args.entries|)
            && var m := MajorityIndex(f.matchIndex);
               0 <= m < |f.log| && f.log[m].term == f.currentTerm ==> m <= f.commitIndex
  {
  }

  lemma MajorityInLog(r: Run, h: seq<Aux>, i: nat, id: nat)
    requires Histories(r, h) && i < |r.states| && AppendAnswerable(r.states[i], id)
    requires var call := r.states[i].appends[id]; Counted(r.states[i].servers[call.from], call.args, call.reply)
    ensures var call := r.states[i].appends[id];
            var f := AppendAnswered(r.states[i].servers[call.from], call.to, call.args, call.reply);
            f.matchIndex != [] && 0 <= MajorityIndex(f.matchIndex) < |f.log|
  {
    var c, call := r.states[i], r.states[i].appends[id];
    var s := c.servers[call.from];
    assert ClusterBase(c, h[i]);
    assert AppendCallOk(h[i], |c.servers|, call);
    ServerAt(r, h, i, call.from);
    AnsweredServer(s, c.votes, h[i], call.from, |c.servers|, call.to, call.args, call.reply);
    MajorityIsChosen(AppendAnswered(s, call.to, call.args, call.reply), c.votes, h[i], call.from, |c.servers|);
  }

  /**
   An accepted request sets what is known of the peer to the request's end and of no other, never lowers the commit
   index, and leaves no entry of the leader's term uncommitted that a majority is known to have.
   */
  lemma AnswerCommits(r: Run, i: nat, id: nat)
    requires IsRun(r) && i < |r.states| && AppendAnswerable(r.states[i], id)
    requires var call := r.states[i].appends[id]; Counted(r.states[i].servers[call.from], call.args, call.reply)
    ensures var call := r.states[i].appends[id];
            var s := r.states[i].servers[call.from];
            var f := AppendAnswered(s, call.to, call.args, call.reply);
            Updated(s, f, call.to, call.args.prevLogIndex + |call.args.entries|) && CommitsAll(f)
  {
    var h := HistoriesExist(r);
    var call := r.states[i].appends[id];
    var s := r.states[i].servers[call.from];
    var f := AppendAnswered(s, call.to, call.args, call.reply);
    AnswerUpdates(s, call.to, call.args, call.reply);
    MajorityInLog(r, h, i, id);
    forall k: nat | k < |f.log| && f.log[k].term == f.currentTerm && Quorum(Reached(f.matchIndex, k), |f.matchIndex|)
      ensures k <= f.commitIndex
    {
      ReachedIsCommitted(r, h, i, call.from, f, k);
    }
  }

  lemma ReachedIsCommitted(r: Run, h: seq<Aux>, i: nat, a: nat, f: Server, k: nat)
    requires Histories(r, h) && i < |r.states| && a < |r.states[i].servers| && f.matchIndex != []
    requires f.log == r.states[i].servers[a].log && f.currentTerm == r.states[i].servers[a].currentTerm
    requires k < |f.log| && f.log[k].term == f.currentTerm && Quorum(Reached(f.matchIndex, k), |f.matchIndex|)
    requires var m := MajorityIndex(f.matchIndex);
             0 <= m < |f.log| && (f.log[m].term == f.currentTerm ==> m <= f.commitIndex)
    ensures k <= f.commitIndex
  {
    var m := MajorityIndex(f.matchIndex);
    if k > m {
      MajorityIsLargest(f.matchIndex, k);
    }
    LogTermsAscend(r, i, a, k, m);
  }

  // ---------- Restarting ----------

  /** A restart forgets all but term, vote and log: the server follows, has committed nothing and counts nothing. */
  lemma RestartForgets(r: Run, i: nat, a: nat)
    requires IsRun(r) && i < |r.states| && a < |r.states[i].servers|
    ensures var s, n := r.states[i].servers[a], |r.states[i].servers|;
            && Restart(s).role == Follower && Restart(s).commitIndex == 0 && Restart(s).me == a
            && !Restart(s).asking && Restart(s).votes == 0 && Restart(s).disk == s.disk
            && Restart(s).nextIndex == seq(n, _ => 0) == Restart(s).matchIndex
  {
    var h := HistoriesExist(r);
    ServerAt(r, h, i, a);
  }

  // ---------- Leaders and votes over time ----------

  predicate CrashOf(c: Cluster, e: Event, a: nat)
    requires Enabled(c, e)
  {
    match e
    case Crash(i) => i == a
    case CrashInVote(_, _, p) => p == a
    case CrashInAppend(id) => c.appends[id].to == a
    case _ => false
  }

  ghost predicate StillLeads(s: Server, f: Server) {
    f.role == Leader && f.currentTerm == s.currentTerm && s.log <= f.log
  }

  /** No other server leads the leader's term, so that no request of that term reaches it. */
  lemma NoRivalRequest(c: Cluster, x: Aux, id: nat)
    requires ClusterBase(c, x) && AppendPending(c, id) && c.servers[c.appends[id].to].role == Leader
    ensures c.appends[id].args.term != c.servers[c.appends[id].to].currentTerm
  {
    var call := c.appends[id];
    assert AppendCallOk(x, |c.servers|, call);
    assert ServerOk(c.servers[call.to], c.votes, x, call.to, |c.servers|);
  }

  lemma LeaderOnAppend(s: Server, args: AppendArgs)
    requires s.role == Leader && args.term != s.currentTerm
    ensures var f := AppendEntries(s, args).0; StillLeads(s, f) || f.currentTerm > s.currentTerm
  {
  }

  lemma LeaderOnCall(c: Cluster, x: Aux, e: Event, a: nat)
    requires ClusterBase(c, x) && Enabled(c, e) && a < |c.servers| && c.servers[a].role == Leader
    requires (e.DeliverVote? || e.DeliverAppend?) && c.servers[a].log != []
    ensures a < |Apply(c, e).servers|
    ensures var s, f := c.servers[a], Apply(c, e).servers[a]; StillLeads(s, f) || f.currentTerm > s.currentTerm
  {
    var s := c.servers[a];
    if e.DeliverVote? && e.peer == a {
      VoteOnLeader(s, c.votes[(e.c, e.t, e.peer)].args);
    } else if e.DeliverAppend? && c.appends[e.id].to == a {
      NoRivalRequest(c, x, e.id);
      LeaderOnAppend(s, c.appends[e.id].args);
    }
  }

  lemma LeaderOnAnswer(c: Cluster, e: Event, a: nat)
    requires Enabled(c, e) && a < |c.servers| && c.servers[a].role == Leader && (e.ReturnVote? || e.ReturnAppend?)
    ensures a < |Apply(c, e).servers|
    ensures var s, f := c.servers[a], Apply(c, e).servers[a]; StillLeads(s, f) || f.currentTerm > s.currentTerm
  {
  }

  lemma LeaderOnOther(c: Cluster, e: Event, a: nat)
    requires Enabled(c, e) && a < |c.servers| && c.servers[a].role == Leader && !CrashOf(c, e, a)
    requires !e.DeliverVote? && !e.DeliverAppend? && !e.ReturnVote? && !e.ReturnAppend?
    ensures a < |Apply(c, e).servers| && StillLeads(c.servers[a], Apply(c, e).servers[a])
  {
  }

  lemma LeaderStep(c: Cluster, x: Aux, e: Event, a: nat)
    requires ClusterBase(c, x) && Enabled(c, e) && a < |c.servers| && c.servers[a].role == Leader && !CrashOf(c, e, a)
    ensures a < |Apply(c, e).servers|
    ensures var s, f := c.servers[a], Apply(c, e).servers[a]; StillLeads(s, f) || f.currentTerm > s.currentTerm
  {
    if e.DeliverVote? || e.DeliverAppend? {
      assert ServerOk(c.servers[a], c.votes, x, a, |c.servers|);
      LeaderOnCall(c, x, e, a);
    } else if e.ReturnVote? || e.ReturnAppend? {
      LeaderOnAnswer(c, e, a);
    } else {
      LeaderOnOther(c, e, a);
    }
  }

  lemma VoteOnLeader(s: Server, args: VoteArgs)
    requires s.role == Leader && s.log != []
    ensures var f := RequestVote(s, args).0; StillLeads(s, f) || f.currentTerm > s.currentTerm
  {
  }

  /** A leader leads on and only appends to its log, until it hears of a later term or crashes. */
  lemma LeaderAppendOnly(r: Run, k: nat, a: nat)
    requires IsRun(r) && k < |r.events| && a < |r.states[k].servers| && r.states[k].servers[a].role == Leader
    requires !CrashOf(r.states[k], r.events[k], a)
    ensures a < |r.states[k + 1].servers|
    ensures var s, f := r.states[k].servers[a], r.states[k + 1].servers[a];
            StillLeads(s, f) || f.currentTerm > s.currentTerm
  {
    var h := HistoriesExist(r);
    assert ClusterBase(r.states[k], h[k]);
    LeaderStep(r.states[k], h[k], r.events[k], a);
  }

  lemma {:induction false} BallotsAlong(r: Run, h: seq<Aux>, i: nat, j: nat)
    requires Histories(r, h) && i <= j < |h|
    ensures BallotsStay(h[i].p, h[j].p)
    decreases j - i
  {
    if i < j {
      BallotsAlong(r, h, i, j - 1);
      assert HistoryStep(r, h, j - 1);
      StepBase(r.states[j - 1], h[j - 1], r.events[j - 1]);
    }
  }

  /** Over a whole run, crashes included, a server votes for at most one candidate in a term. */
  lemma OneVotePerTerm(r: Run, i: nat, j: nat, v: nat)
    requires IsRun(r) && i < |r.states| && j < |r.states| && v < |r.states[i].servers| && v < |r.states[j].servers|
    requires r.states[i].servers[v].currentTerm == r.states[j].servers[v].currentTerm
    requires r.states[i].servers[v].votedFor != NO_VOTE && r.states[j].servers[v].votedFor != NO_VOTE
    ensures r.states[i].servers[v].votedFor == r.states[j].servers[v].votedFor
  {
    var h := HistoriesExist(r);
    ServerAt(r, h, i, v);
    ServerAt(r, h, j, v);
    BallotsAlong(r, h, i, |h| - 1);
    BallotsAlong(r, h, j, |h| - 1);
  }
}
