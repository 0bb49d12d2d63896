/**
 Commitment: what keeps `commitIndex` sound.  Every event keeps `ClusterSafe` provided that no accepted
 AppendEntries ends before one that the same follower accepted earlier in the same term.
 */
module RaftSafety {
  import opened RaftTypes
  import opened RaftServer
  import opened RaftCluster
  import opened RaftProtocol
  import opened RaftInvariant
  import opened RaftLogs
  import opened RaftMajority
  import opened RaftSteps

  /**
   The first `k + 1` entries of `l` are committed, either before term t or in term t on a log that server i
   has acknowledged that far.
   */
  ghost predicate CommitOk(p: Protocol, i: nat, t: nat, l: Log, k: int) {
    && 0 <= k < |l|
    && Committed(p, t, l[..k + 1])
    && ((0 < t && Committed(p, t - 1, l[..k + 1])) || Acked(p, i, t, k))
  }

  ghost predicate RequestCommitOk(p: Protocol, args: AppendArgs) {
    && args.term in p.elections
    && 0 <= args.leaderCommit <= args.prevLogIndex + |args.entries| < |p.elections[args.term].log|
    && Committed(p, args.term, p.elections[args.term].log[..args.leaderCommit + 1])
  }

  ghost predicate ServerCommitOk(s: Server, p: Protocol, i: nat) {
    CommitOk(p, i, s.currentTerm, s.log, s.commitIndex)
  }

  ghost predicate ClusterSafe(c: Cluster, a: Aux) {
    && Safe(a.p)
    && (forall i {:trigger ServerCommitOk(c.servers[i], a.p, i)} :: 0 <= i < |c.servers| ==>
          ServerCommitOk(c.servers[i], a.p, i))
    && (forall id {:trigger RequestCommitOk(a.p, c.appends[id].args)} :: id in c.appends ==>
          RequestCommitOk(a.p, c.appends[id].args))
  }

  // ---------- Commitment is stable ----------

  lemma CommitLater(p: Protocol, r: Protocol, i: nat, t: nat, l: Log, k: int)
    requires Later(p, r) && CommitOk(p, i, t, l, k)
    ensures CommitOk(r, i, t, l, k)
  {
    CommittedLater(p, r, t, t, l[..k + 1]);
    if 0 < t && Committed(p, t - 1, l[..k + 1]) {
      CommittedLater(p, r, t - 1, t - 1, l[..k + 1]);
    }
  }

  /** In a later term nothing needs to be acknowledged any more. */
  lemma CommitNextTerm(p: Protocol, i: nat, t: nat, u: nat, l: Log, k: int)
    requires CommitOk(p, i, t, l, k) && t <= u
    ensures CommitOk(p, i, u, l, k)
  {
    if t < u {
      CommittedLater(p, p, t, u - 1, l[..k + 1]);
      CommittedLater(p, p, t, u, l[..k + 1]);
    }
  }

  lemma CommitLonger(p: Protocol, i: nat, t: nat, l: Log, m: Log, k: int)
    requires CommitOk(p, i, t, l, k) && l <= m
    ensures CommitOk(p, i, t, m, k)
  {
    assert m[..k + 1] == l[..k + 1];
  }

  lemma NothingCommitted(p: Protocol, i: nat, t: nat, l: Log)
    requires 0 < t && l != [] && l[0] == Placeholder
    ensures CommitOk(p, i, t, l, 0)
  {
    assert l[..1] == [Placeholder];
  }

  lemma RequestCommitLater(p: Protocol, r: Protocol, args: AppendArgs)
    requires Later(p, r) && RequestCommitOk(p, args)
    ensures RequestCommitOk(r, args)
  {
    var e, f := p.elections[args.term].log, r.elections[args.term].log;
    CommittedLater(p, r, args.term, args.term, e[..args.leaderCommit + 1]);
    assert e == f[..|e|];
    assert f[..args.leaderCommit + 1] == e[..args.leaderCommit + 1];
  }

  /** An event of server i has to look after i and after the requests that it sends. */
  lemma ReassembleSafe(c: Cluster, d: Cluster, a: Aux, b: Aux, i: nat)
    requires ClusterSafe(c, a) && Later(a.p, b.p) && Safe(b.p)
    requires i < |c.servers| && |d.servers| == |c.servers| && d.servers == c.servers[i := d.servers[i]]
    requires ServerCommitOk(d.servers[i], b.p, i)
    requires forall id :: id in d.appends ==>
               || (id in c.appends && d.appends[id].args == c.appends[id].args)
               || RequestCommitOk(b.p, d.appends[id].args)
    ensures ClusterSafe(d, b)
  {
    forall j | 0 <= j < |d.servers| ensures ServerCommitOk(d.servers[j], b.p, j) {
      if j != i {
        var s := c.servers[j];
        assert ServerCommitOk(s, a.p, j);
        CommitLater(a.p, b.p, j, s.currentTerm, s.log, s.commitIndex);
      }
    }
    forall id | id in d.appends ensures RequestCommitOk(b.p, d.appends[id].args) {
      if id in c.appends && d.appends[id].args == c.appends[id].args {
        assert RequestCommitOk(a.p, c.appends[id].args);
        RequestCommitLater(a.p, b.p, c.appends[id].args);
      }
    }
  }

  // ---------- Learning a term, crashing, elections ----------

  lemma LearnSafe(a: Aux, i: nat, t: nat)
    requires Base(a.p) && Safe(a.p) && i < |a.p.term|
    ensures Safe(Learn(a, i, t).p) && Later(a.p, Learn(a, i, t).p)
  {
    if t > a.p.term[i] {
      AdvanceSafe(a.p, i, t);
      AdvanceBase(a.p, i, t);
    }
  }

  lemma LearnCommit(s: Server, a: Aux, i: nat, t: nat)
    requires ServerCommitOk(s, a.p, i) && i < |a.p.term| && Later(a.p, Learn(a, i, t).p) && DiskOk(s)
    requires 0 < s.currentTerm && s.log != [] && s.log[0] == Placeholder
    ensures ServerCommitOk(BecomeFollower(s, t), Learn(a, i, t).p, i)
    ensures ServerCommitOk(Restart(BecomeFollower(s, t)), Learn(a, i, t).p, i)
  {
    var f, b := BecomeFollower(s, t), Learn(a, i, t);
    CommitLater(a.p, b.p, i, s.currentTerm, s.log, s.commitIndex);
    CommitNextTerm(b.p, i, s.currentTerm, f.currentTerm, s.log, s.commitIndex);
    NothingCommitted(b.p, i, f.currentTerm, s.log);
  }

  /** The facts about one server that the commitment lemmas need. */
  lemma ServerFacts(c: Cluster, a: Aux, i: nat)
    requires ClusterBase(c, a) && ClusterSafe(c, a) && i < |c.servers|
    ensures ServerOk(c.servers[i], c.votes, a, i, |c.servers|) && ServerCommitOk(c.servers[i], a.p, i)
    ensures c.servers[i].log != [] && c.servers[i].log[0] == Placeholder
  {
    assert ServerOk(c.servers[i], c.votes, a, i, |c.servers|);
    assert ServerCommitOk(c.servers[i], a.p, i);
    assert Canonical(a.p.log[i], a.p.elections);
  }

  lemma CrashSafe(c: Cluster, a: Aux, i: nat)
    requires ClusterBase(c, a) && ClusterSafe(c, a) && i < |c.servers|
    ensures ClusterSafe(OnCrash(c, i), a)
  {
    ServerFacts(c, a, i);
    NothingCommitted(a.p, i, c.servers[i].currentTerm, c.servers[i].log);
    ReassembleSafe(c, OnCrash(c, i), a, a, i);
  }

  lemma CrashInVoteSafe(c: Cluster, a: Aux, x: nat, t: nat, v: nat)
    requires ClusterBase(c, a) && ClusterSafe(c, a) && VotePending(c, x, t, v)
    ensures ClusterSafe(OnCrashInVote(c, x, t, v), Learn(a, v, t))
  {
    ServerFacts(c, a, v);
    assert VoteCallOk(a, |c.servers|, x, t, v, c.votes[(x, t, v)]);
    LearnSafe(a, v, t);
    LearnCommit(c.servers[v], a, v, t);
    ReassembleSafe(c, OnCrashInVote(c, x, t, v), a, Learn(a, v, t), v);
  }

  lemma CrashInAppendSafe(c: Cluster, a: Aux, id: nat)
    requires ClusterBase(c, a) && ClusterSafe(c, a) && AppendPending(c, id)
    ensures ClusterSafe(OnCrashInAppend(c, id), Learn(a, c.appends[id].to, c.appends[id].args.term))
  {
    var v, t := c.appends[id].to, c.appends[id].args.term;
    ServerFacts(c, a, v);
    LearnSafe(a, v, t);
    LearnCommit(c.servers[v], a, v, t);
    ReassembleSafe(c, OnCrashInAppend(c, id), a, Learn(a, v, t), v);
  }

  lemma TimeoutSafe(c: Cluster, a: Aux, i: nat)
    requires ClusterBase(c, a) && ClusterSafe(c, a) && i < |c.servers|
    ensures ClusterSafe(OnTimeout(c, i), AuxTimeout(c, a, i))
  {
    var s, d, b := c.servers[i], OnTimeout(c, i), AuxTimeout(c, a, i);
    ServerFacts(c, a, i);
    if s.role != Leader {
      BidSafe(a.p, i);
      BidBase(a.p, i);
      CommitLater(a.p, b.p, i, s.currentTerm, s.log, s.commitIndex);
      CommitNextTerm(b.p, i, s.currentTerm, s.currentTerm + 1, s.log, s.commitIndex);
    }
    ReassembleSafe(c, d, a, b, i);
  }

  lemma AskSafe(c: Cluster, a: Aux, i: nat)
    requires ClusterBase(c, a) && ClusterSafe(c, a) && i < |c.servers| && c.servers[i].log != []
    ensures ClusterSafe(OnAsk(c, i), AuxAsk(c, a, i))
  {
    ServerFacts(c, a, i);
    ReassembleSafe(c, OnAsk(c, i), a, AuxAsk(c, a, i), i);
  }

  /** The restriction that RequestVote checks is the protocol's. */
  lemma GrantIsUpToDate(s: Server, l: Log, args: VoteArgs)
    requires s.log != [] && l != [] && args.lastLogIndex == |l| - 1 && args.lastLogTerm == l[|l| - 1].term
    requires RequestVote(s, args).1.granted
    ensures UpToDate(l, s.log) && s.currentTerm <= args.term
    ensures s.votedFor == NO_VOTE || s.currentTerm < args.term
  {
  }

  lemma DeliverVoteProtocol(s: Server, a: Aux, v: nat, args: VoteArgs)
    requires Base(a.p) && Safe(a.p) && v < |a.p.term|
    requires BallotOk(s, v, a.p) && s.currentTerm == a.p.term[v] && s.log == a.p.log[v]
    requires (args.candidateId, args.term) in a.p.bids
    requires var l := a.p.bids[(args.candidateId, args.term)];
             l != [] && args.lastLogIndex == |l| - 1 && args.lastLogTerm == l[|l| - 1].term
    ensures s.log != [] && Safe(AuxDeliverVote(s, a, v, args).p)
  {
    assert Canonical(a.p.log[v], a.p.elections);
    LearnSafe(a, v, args.term);
    LearnFrame(a, v, args.term);
    if RequestVote(s, args).1.granted {
      GrantIsUpToDate(s, a.p.bids[(args.candidateId, args.term)], args);
      VoteSafe(Learn(a, v, args.term).p, v, args.candidateId);
    }
  }

  lemma DeliverVoteSafe(c: Cluster, a: Aux, x: nat, t: nat, v: nat)
    requires ClusterBase(c, a) && ClusterSafe(c, a) && VotePending(c, x, t, v)
    ensures ClusterSafe(OnDeliverVote(c, x, t, v), AuxDeliverVote(c.servers[v], a, v, c.votes[(x, t, v)].args))
  {
    var s, args := c.servers[v], c.votes[(x, t, v)].args;
    var d, b := OnDeliverVote(c, x, t, v), AuxDeliverVote(s, a, v, args);
    ServerFacts(c, a, v);
    assert VoteCallOk(a, |c.servers|, x, t, v, c.votes[(x, t, v)]);
    DeliverVoteProtocol(s, a, v, args);
    DeliverVoteFrame(s, a, v, args);
    DeliverVoteCommit(s, a.p, b.p, v, args);
    ReassembleSafe(c, d, a, b, v);
  }

  lemma DeliverVoteCommit(s: Server, p: Protocol, r: Protocol, v: nat, args: VoteArgs)
    requires ServerCommitOk(s, p, v) && Later(p, r) && s.log != []
    ensures ServerCommitOk(RequestVote(s, args).0, r, v)
  {
    var f := RequestVote(s, args).0;
    CommitLater(p, r, v, s.currentTerm, s.log, s.commitIndex);
    CommitNextTerm(r, v, s.currentTerm, f.currentTerm, s.log, s.commitIndex);
  }

  lemma ReturnVoteSafe(c: Cluster, a: Aux, x: nat, t: nat, v: nat)
    requires ClusterBase(c, a) && ClusterSafe(c, a) && VoteAnswerable(c, x, t, v)
    ensures ClusterSafe(OnReturnVote(c, x, t, v), AuxReturnVote(c, a, x, t, v))
  {
    var s, reply := c.servers[x], c.votes[(x, t, v)].reply;
    var d, b := OnReturnVote(c, x, t, v), AuxReturnVote(c, a, x, t, v);
    ServerFacts(c, a, x);
    assert VoteCallOk(a, |c.servers|, x, t, v, c.votes[(x, t, v)]);
    if reply.term > s.currentTerm {
      LearnSafe(a, x, reply.term);
      LearnCommit(s, a, x, reply.term);
    } else if Counts(s, t, reply) {
      CountFrame(s, c.votes, a, x, |c.servers|, v);
      if s.votes + 1 > |s.nextIndex| / 2 {
        ElectSafe(a.p, x, a.grants[(x, t)] + {v});
      }
      CommitLater(a.p, b.p, x, s.currentTerm, s.log, s.commitIndex);
    }
    ReassembleSafe(c, d, a, b, x);
  }

  // ---------- Appending and replicating ----------

  lemma SubmitSafe(c: Cluster, a: Aux, i: nat, command: Command)
    requires ClusterBase(c, a) && ClusterSafe(c, a) && i < |c.servers|
    ensures ClusterSafe(OnSubmit(c, i, command), AuxSubmit(c, a, i, command))
  {
    var s, d, b := c.servers[i], OnSubmit(c, i, command), AuxSubmit(c, a, i, command);
    ServerFacts(c, a, i);
    if s.role == Leader {
      AppendSafe(a.p, i, command);
      AppendLater(a.p, i, command);
      CommitLater(a.p, b.p, i, s.currentTerm, s.log, s.commitIndex);
      CommitLonger(b.p, i, s.currentTerm, s.log, d.servers[i].log, s.commitIndex);
    }
    ReassembleSafe(c, d, a, b, i);
  }

  lemma ReplicateSafe(c: Cluster, a: Aux, i: nat)
    requires ClusterBase(c, a) && ClusterSafe(c, a) && i < |c.servers| && c.servers[i].role == Leader
    ensures ClusterSafe(OnReplicate(c, i), a)
  {
    var s, d := StartReplication(c.servers[i]), OnReplicate(c, i);
    ServerFacts(c, a, i);
    forall id | id in d.appends && !(id in c.appends && d.appends[id].args == c.appends[id].args)
      ensures RequestCommitOk(a.p, d.appends[id].args)
    {
      assert CallNumber(s, i, |c.servers|, c.sent, id).Some?;
    }
    ReassembleSafe(c, d, a, a, i);
  }

  /** What is committed by term t is in the log of every leader from term t on. */
  lemma CommittedInLeader(p: Protocol, t: nat, l: Log, u: nat)
    requires Base(p) && Safe(p) && Committed(p, t, l) && u in p.elections && t <= u
    ensures l <= p.elections[u].log
  {
    assert ElectionOk(p, u);
    if t < u {
      LeaderCompleteness(p, t, l, u);
    } else if l != [Placeholder] {
      var s: nat, k: nat :| s <= t && CommittedIn(p, s, k, l);
      if s < u {
        assert Committed(p, s, l);
        LeaderCompleteness(p, s, l, u);
      }
    }
  }

  /** An accepted request that does not end too early leaves everything committed in place. */
  lemma AcceptCommit(p: Protocol, i: nat, l: Log, k: int, end: nat)
    requires Base(p) && Safe(p) && CanAccept(p, i, end) && CommitOk(p, i, p.term[i], l, k)
    requires (i, p.term[i]) in p.acks ==> p.acks[(i, p.term[i])] <= end
    ensures CommitOk(p, i, p.term[i], p.elections[p.term[i]].log[..end + 1], k)
  {
    var t, e := p.term[i], p.elections[p.term[i]];
    var m, c := e.log[..end + 1], l[..k + 1];
    CommittedInLeader(p, t, c, t);
    assert k <= end by {
      if !Acked(p, i, t, k) {
        LeaderCompleteness(p, t - 1, c, t);
      }
    }
    assert m[..k + 1] == c;
  }

  lemma AcceptKeepsCommit(p: Protocol, i: nat, l: Log, k: int, end: nat)
    requires Base(p) && Safe(p) && CanAccept(p, i, end) && CommitOk(p, i, p.term[i], l, k)
    requires (i, p.term[i]) in p.acks ==> p.acks[(i, p.term[i])] <= end
    ensures CommitOk(Accept(p, i, end), i, p.term[i], p.elections[p.term[i]].log[..end + 1], k)
  {
    AcceptCommit(p, i, l, k, end);
    AcceptLater(p, i, end);
    CommitLater(p, Accept(p, i, end), i, p.term[i], p.elections[p.term[i]].log[..end + 1], k);
  }

  /** A commit index taken over from the leader. */
  lemma AcceptLeaderCommit(p: Protocol, i: nat, args: AppendArgs, end: nat)
    requires CanAccept(p, i, end) && p.term[i] == args.term
    requires RequestCommitOk(p, args) && end == args.prevLogIndex + |args.entries|
    ensures CommitOk(Accept(p, i, end), i, args.term, p.elections[args.term].log[..end + 1], args.leaderCommit)
  {
    var l, k := p.elections[args.term].log, args.leaderCommit;
    AcceptLater(p, i, end);
    CommittedLater(p, Accept(p, i, end), args.term, args.term, l[..k + 1]);
    assert l[..end + 1][..k + 1] == l[..k + 1];
  }

  /** No shrinking: the request ends no earlier than what the follower acknowledged in this term. */
  ghost predicate NoShrink(s: Server, a: Aux, v: nat, args: AppendArgs) {
    Accepts(s, args) && (v, args.term) in a.p.acks ==> a.p.acks[(v, args.term)] <= args.prevLogIndex + |args.entries|
  }

  lemma DeliverAppendProtocol(s: Server, a: Aux, v: nat, from: nat, args: AppendArgs)
    requires Base(a.p) && Safe(a.p) && v < |a.p.term| && ArgsOk(a.p, from, args)
    requires s.log == a.p.log[v] && s.currentTerm == a.p.term[v] && NoShrink(s, a, v, args)
    ensures Safe(AuxDeliverAppend(s, a, v, from, args).p)
  {
    if args.term >= s.currentTerm {
      var b := Learn(a, v, args.term);
      LearnSafe(a, v, args.term);
      if Accepts(s, args) {
        LearnFrame(a, v, args.term);
        AcceptGuard(a, v, from, args);
        AcceptSafe(b.p, v, args.prevLogIndex + |args.entries|);
      }
    }
  }

  /** Learning the request's term first. */
  lemma LearnedCommit(s: Server, a: Aux, v: nat, args: AppendArgs)
    requires Base(a.p) && Safe(a.p) && v < |a.p.term| && s.currentTerm == a.p.term[v] <= args.term
    requires ServerCommitOk(s, a.p, v) && RequestCommitOk(a.p, args)
    ensures var b := Learn(a, v, args.term);
            && Base(b.p) && Safe(b.p) && RequestCommitOk(b.p, args)
            && CommitOk(b.p, v, args.term, s.log, s.commitIndex)
            && b.p.acks == a.p.acks && b.p.term[v] == args.term
  {
    var b := Learn(a, v, args.term);
    LearnSafe(a, v, args.term);
    LearnFrame(a, v, args.term);
    CommitLater(a.p, b.p, v, s.currentTerm, s.log, s.commitIndex);
    CommitNextTerm(b.p, v, s.currentTerm, args.term, s.log, s.commitIndex);
    RequestCommitLater(a.p, b.p, args);
  }

  lemma DeliverAppendCommit(s: Server, a: Aux, v: nat, from: nat, args: AppendArgs)
    requires Base(a.p) && Safe(a.p) && v < |a.p.term| && ArgsOk(a.p, from, args)
    requires s.log == a.p.log[v] && s.currentTerm == a.p.term[v] && NoShrink(s, a, v, args)
    requires ServerCommitOk(s, a.p, v) && RequestCommitOk(a.p, args)
    ensures ServerCommitOk(AppendEntries(s, args).0, AuxDeliverAppend(s, a, v, from, args).p, v)
  {
    if Accepts(s, args) {
      AcceptedCommit(s, a, v, from, args);
    } else {
      AcceptsIsSuccess(s, args);
      if args.term >= s.currentTerm {
        LearnedCommit(s, a, v, args);
      }
    }
  }

  lemma AcceptedCommit(s: Server, a: Aux, v: nat, from: nat, args: AppendArgs)
    requires Base(a.p) && Safe(a.p) && v < |a.p.term| && ArgsOk(a.p, from, args) && Accepts(s, args)
    requires s.log == a.p.log[v] && s.currentTerm == a.p.term[v] && NoShrink(s, a, v, args)
    requires ServerCommitOk(s, a.p, v) && RequestCommitOk(a.p, args)
    ensures ServerCommitOk(AppendEntries(s, args).0, AuxDeliverAppend(s, a, v, from, args).p, v)
  {
    var p, end := Learn(a, v, args.term).p, args.prevLogIndex + |args.entries|;
    ReadyToAccept(s, a, v, from, args);
    AcceptsCommit(s, p, v, args, end);
    assert AuxDeliverAppend(s, a, v, from, args).p == Accept(p, v, end);
  }

  lemma ReadyToAccept(s: Server, a: Aux, v: nat, from: nat, args: AppendArgs)
    requires Base(a.p) && Safe(a.p) && v < |a.p.term| && ArgsOk(a.p, from, args) && Accepts(s, args)
    requires s.log == a.p.log[v] && s.currentTerm == a.p.term[v] && NoShrink(s, a, v, args)
    requires ServerCommitOk(s, a.p, v) && RequestCommitOk(a.p, args)
    ensures AcceptReady(s, Learn(a, v, args.term).p, v, args, args.prevLogIndex + |args.entries|)
  {
    LearnedCommit(s, a, v, args);
    AcceptGuard(a, v, from, args);
  }

  /** The request passes the check, ends late enough, and its commit index is sound. */
  ghost predicate AcceptReady(s: Server, p: Protocol, v: nat, args: AppendArgs, end: int) {
    && Accepts(s, args) && end == args.prevLogIndex + |args.entries|
    && Base(p) && Safe(p) && CanAccept(p, v, end) && p.term[v] == args.term
    && ((v, args.term) in p.acks ==> p.acks[(v, args.term)] <= end)
    && s.log[..args.prevLogIndex + 1] + args.entries == p.elections[args.term].log[..end + 1]
    && RequestCommitOk(p, args) && CommitOk(p, v, args.term, s.log, s.commitIndex)
  }

  lemma AcceptsCommit(s: Server, p: Protocol, v: nat, args: AppendArgs, end: nat)
    requires AcceptReady(s, p, v, args, end)
    ensures ServerCommitOk(AppendEntries(s, args).0, Accept(p, v, end), v)
  {
    AcceptsIsSuccess(s, args);
    if args.leaderCommit > s.commitIndex {
      AcceptLeaderCommit(p, v, args, end);
    } else {
      AcceptKeepsCommit(p, v, s.log, s.commitIndex, end);
    }
  }

  lemma DeliverAppendSafe(c: Cluster, a: Aux, id: nat)
    requires ClusterBase(c, a) && ClusterSafe(c, a) && AppendPending(c, id)
    requires AppendCallOk(a, |c.servers|, c.appends[id])
    requires NoShrink(c.servers[c.appends[id].to], a, c.appends[id].to, c.appends[id].args)
    ensures var call := c.appends[id];
            ClusterSafe(OnDeliverAppend(c, id), AuxDeliverAppend(c.servers[call.to], a, call.to, call.from, call.args))
  {
    var call := c.appends[id];
    var s := c.servers[call.to];
    ServerFacts(c, a, call.to);
    assert RequestCommitOk(a.p, call.args);
    DeliverAppendProtocol(s, a, call.to, call.from, call.args);
    DeliverAppendCommit(s, a, call.to, call.from, call.args);
    DeliverAppendFrame(s, a, call.to, call.from, call.args);
    ReassembleSafe(c, OnDeliverAppend(c, id), a, AuxDeliverAppend(s, a, call.to, call.from, call.args), call.to);
  }

  /** Section 5.4.2: an index of the leader's own term that a majority has reached is chosen. */
  lemma MajorityIsChosen(s: Server, calls: map<(nat, nat, nat), VoteCall>, a: Aux, i: nat, n: nat)
    requires ServerOk(s, calls, a, i, n) && Base(a.p) && s.role == Leader && |a.p.term| == n > 0
    ensures 0 <= MajorityIndex(s.matchIndex) < |s.log|
    ensures var m := MajorityIndex(s.matchIndex);
            0 < m && s.log[m].term == s.currentTerm ==> CommitOk(a.p, i, s.currentTerm, s.log, m)
  {
    var m, t := MajorityIndex(s.matchIndex), s.currentTerm;
    var q := MajorityReached(s.matchIndex);
    forall j | 0 <= j < n ensures 0 <= s.matchIndex[j] < |s.log| {
      assert MatchOk(a.p, j, t, s.matchIndex[j]);
    }
    if 0 < m && s.log[m].term == t {
      assert ElectionOk(a.p, t);
      assert TermsBelow(a.p.elections[t].first, t);
      assert Own(a.p, t, m);
      forall j | j in q ensures Acked(a.p, j, t, m) {
        assert MatchOk(a.p, j, t, s.matchIndex[j]);
      }
      assert AllAcked(a.p, q, t, m);
      assert CommittedIn(a.p, t, m, s.log[..m + 1]);
    }
  }

  lemma AnsweredCommit(s: Server, calls: map<(nat, nat, nat), VoteCall>, a: Aux, i: nat, n: nat,
                       peer: nat, args: AppendArgs, reply: AppendReply)
    requires ServerOk(s, calls, a, i, n) && Base(a.p) && |a.p.term| == n && peer < n && reply.term <= s.currentTerm
    requires ArgsOk(a.p, i, args) && AppendReplyOk(a.p, peer, args, reply) && ServerCommitOk(s, a.p, i)
    ensures ServerCommitOk(AppendAnswered(s, peer, args, reply), a.p, i)
  {
    if !ContextLost(s, Leader, args.term) && reply.success {
      var match_ := args.prevLogIndex + |args.entries|;
      var r := s.(matchIndex := s.matchIndex[peer := match_], nextIndex := s.nextIndex[peer := match_ + 1]);
      AnsweredServer(s, calls, a, i, n, peer, args, reply);
      assert ServerOk(r, calls, a, i, n) by {
        forall q | 0 <= q < n ensures MatchOk(a.p, q, r.currentTerm, r.matchIndex[q]) {
          assert MatchOk(a.p, q, s.currentTerm, s.matchIndex[q]);
        }
      }
      MajorityIsChosen(r, calls, a, i, n);
    }
  }

  lemma ReturnAppendSafe(c: Cluster, a: Aux, id: nat)
    requires ClusterBase(c, a) && ClusterSafe(c, a) && AppendAnswerable(c, id)
    ensures ClusterSafe(OnReturnAppend(c, id), Learn(a, c.appends[id].from, c.appends[id].reply.term))
  {
    var call := c.appends[id];
    var s, b := c.servers[call.from], Learn(a, call.from, call.reply.term);
    ServerFacts(c, a, call.from);
    assert AppendCallOk(a, |c.servers|, call);
    LearnSafe(a, call.from, call.reply.term);
    if call.reply.term > s.currentTerm {
      LearnCommit(s, a, call.from, call.reply.term);
    } else {
      AnsweredCommit(s, c.votes, a, call.from, |c.servers|, call.to, call.args, call.reply);
    }
    ReassembleSafe(c, OnReturnAppend(c, id), a, b, call.from);
  }
}
