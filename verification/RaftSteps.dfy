/** Every event of the cluster keeps `ClusterBase`, under any loss, delay and reordering. */
module RaftSteps {
  import opened RaftTypes
  import opened RaftServer
  import opened RaftCluster
  import opened RaftProtocol
  import opened RaftInvariant
  import opened RaftLogs

  ghost function Learn(a: Aux, i: nat, t: nat): Aux
    requires i < |a.p.term|
  {
    if t > a.p.term[i] then a.(p := Advance(a.p, i, t)) else a
  }

  // ---------- Learning a term, crashing ----------

  lemma LearnFrame(a: Aux, i: nat, t: nat)
    requires Base(a.p) && i < |a.p.term|
    ensures Base(Learn(a, i, t).p) && Frame(a, Learn(a, i, t), i)
  {
    if t > a.p.term[i] {
      AdvanceBase(a.p, i, t);
    }
  }

  /** A server that learns of a term follows it without a vote, whether or not it then crashes. */
  lemma LearnServer(s: Server, calls: map<(nat, nat, nat), VoteCall>, calls': map<(nat, nat, nat), VoteCall>,
                    a: Aux, i: nat, n: nat, t: nat)
    requires ServerOk(s, calls, a, i, n) && BallotsOk(a.p) && t >= s.currentTerm
    ensures ServerOk(BecomeFollower(s, t), calls', Learn(a, i, t), i, n)
    ensures ServerOk(Restart(BecomeFollower(s, t)), calls', Learn(a, i, t), i, n)
  {
  }

  lemma RestartServer(s: Server, calls: map<(nat, nat, nat), VoteCall>, calls': map<(nat, nat, nat), VoteCall>,
                      a: Aux, i: nat, n: nat)
    requires ServerOk(s, calls, a, i, n)
    ensures ServerOk(Restart(s), calls', a, i, n)
  {
  }

  lemma CrashBase(c: Cluster, a: Aux, i: nat)
    requires ClusterBase(c, a) && i < |c.servers|
    ensures ClusterBase(OnCrash(c, i), a)
  {
    assert ServerOk(c.servers[i], c.votes, a, i, |c.servers|);
    RestartServer(c.servers[i], c.votes, c.votes, a, i, |c.servers|);
    Reassemble(c, OnCrash(c, i), a, a, i);
  }

  /** The state after a request made server v learn term t, with or without a crash. */
  lemma CrashInVoteBase(c: Cluster, a: Aux, x: nat, t: nat, v: nat)
    requires ClusterBase(c, a) && VotePending(c, x, t, v)
    ensures ClusterBase(OnCrashInVote(c, x, t, v), Learn(a, v, t)) && Frame(a, Learn(a, v, t), v)
  {
    var s, d := c.servers[v], OnCrashInVote(c, x, t, v);
    assert ServerOk(s, c.votes, a, v, |c.servers|);
    LearnFrame(a, v, t);
    assert VoteCallOk(a, |c.servers|, x, t, v, c.votes[(x, t, v)]);
    if t >= s.currentTerm {
      LearnServer(s, c.votes, d.votes, a, v, |c.servers|, t);
    } else {
      RestartServer(s, c.votes, d.votes, a, v, |c.servers|);
    }
    Reassemble(c, d, a, Learn(a, v, t), v);
  }

  lemma CrashInAppendBase(c: Cluster, a: Aux, id: nat)
    requires ClusterBase(c, a) && AppendPending(c, id)
    ensures var b := Learn(a, c.appends[id].to, c.appends[id].args.term);
            ClusterBase(OnCrashInAppend(c, id), b) && Frame(a, b, c.appends[id].to)
  {
    var d, v, t := OnCrashInAppend(c, id), c.appends[id].to, c.appends[id].args.term;
    assert ServerOk(c.servers[v], c.votes, a, v, |c.servers|);
    LearnFrame(a, v, t);
    if t >= c.servers[v].currentTerm {
      LearnServer(c.servers[v], c.votes, c.votes, a, v, |c.servers|, t);
    } else {
      RestartServer(c.servers[v], c.votes, c.votes, a, v, |c.servers|);
    }
    Reassemble(c, d, a, Learn(a, v, t), v);
  }

  // ---------- Standing for election ----------

  lemma BidFrame(a: Aux, i: nat)
    requires Base(a.p) && i < |a.p.term|
    ensures var b := Aux(Bid(a.p, i), a.grants[(i, a.p.term[i] + 1) := {}]);
            Base(b.p) && Frame(a, b, i)
  {
    BidBase(a.p, i);
  }

  lemma TimeoutServer(s: Server, calls: map<(nat, nat, nat), VoteCall>, a: Aux, i: nat, n: nat)
    requires ServerOk(s, calls, a, i, n) && Base(a.p) && s.role != Leader
    requires forall t, v :: (i, t, v) in calls ==> t <= s.currentTerm
    ensures ServerOk(ElectionTimeout(s), calls, Aux(Bid(a.p, i), a.grants[(i, s.currentTerm + 1) := {}]), i, n)
  {
    assert s.currentTerm + 1 in a.p.elections ==> ElectionOk(a.p, s.currentTerm + 1);
  }

  ghost function AuxTimeout(c: Cluster, a: Aux, i: nat): Aux
    requires i < |c.servers| && i < |a.p.term| && |a.p.log| == |a.p.term|
  {
    if c.servers[i].role == Leader then a
    else Aux(Bid(a.p, i), a.grants[(i, c.servers[i].currentTerm + 1) := {}])
  }

  lemma TimeoutBase(c: Cluster, a: Aux, i: nat)
    requires ClusterBase(c, a) && i < |c.servers|
    ensures ClusterBase(OnTimeout(c, i), AuxTimeout(c, a, i)) && Frame(a, AuxTimeout(c, a, i), i)
  {
    var d, b := OnTimeout(c, i), AuxTimeout(c, a, i);
    if c.servers[i].role != Leader {
      assert ServerOk(c.servers[i], c.votes, a, i, |c.servers|);
      BidFrame(a, i);
      forall t, v | (i, t, v) in c.votes ensures t <= c.servers[i].currentTerm {
        assert VoteCallOk(a, |c.servers|, i, t, v, c.votes[(i, t, v)]);
      }
      TimeoutServer(c.servers[i], c.votes, a, i, |c.servers|);
      Reassemble(c, d, a, b, i);
    } else {
      assert d == c;
    }
  }

  lemma AskServer(s: Server, calls: map<(nat, nat, nat), VoteCall>, a: Aux, i: nat, n: nat)
    requires ServerOk(s, calls, a, i, n) && s.log != [] && s.asking && i < n
    ensures if s.role == Candidate
            then ServerOk(StartElection(s), calls + Requests(s, i, n), a.(grants := a.grants[(i,
                  s.currentTerm) := {i}]), i, n)
            else ServerOk(StartElection(s), calls, a, i, n)
  {
  }

  ghost function AuxAsk(c: Cluster, a: Aux, i: nat): Aux
    requires i < |c.servers|
  {
    var s := c.servers[i];
    if s.role == Candidate then a.(grants := a.grants[(i, s.currentTerm) := {i}]) else a
  }

  lemma AskCalls(c: Cluster, a: Aux, i: nat)
    requires i < |c.servers| && c.servers[i].log != [] && ServerOk(c.servers[i], c.votes, a, i, |c.servers|)
    ensures NewCallsOk(c, OnAsk(c, i), AuxAsk(c, a, i), i)
  {
    var d, b, s := OnAsk(c, i), AuxAsk(c, a, i), c.servers[i];
    forall x, t, v | (x, t, v) in d.votes && !((x, t, v) in c.votes && d.votes[(x, t, v)] == c.votes[(x, t, v)])
      ensures x == i && VoteCallOk(b, |d.servers|, x, t, v, d.votes[(x, t, v)])
    {
      assert (x, t, v) in Requests(s, i, |c.servers|);
    }
  }

  lemma AskFrame(c: Cluster, a: Aux, i: nat)
    requires i < |c.servers|
    ensures Frame(a, AuxAsk(c, a, i), i)
  {
  }

  lemma AskBase(c: Cluster, a: Aux, i: nat)
    requires ClusterBase(c, a) && i < |c.servers| && c.servers[i].asking && c.servers[i].log != []
    ensures ClusterBase(OnAsk(c, i), AuxAsk(c, a, i)) && Frame(a, AuxAsk(c, a, i), i)
  {
    var d, b, s := OnAsk(c, i), AuxAsk(c, a, i), c.servers[i];
    assert ServerOk(s, c.votes, a, i, |c.servers|);
    AskServer(s, c.votes, a, i, |c.servers|);
    AskCalls(c, a, i);
    AskFrame(c, a, i);
    Reassemble(c, d, a, b, i);
  }

  // ---------- Voting ----------

  lemma VoteFrame(a: Aux, v: nat, x: nat)
    requires Base(a.p) && v < |a.p.term|
    requires (v, a.p.term[v]) !in a.p.ballots && (x, a.p.term[v]) in a.p.bids
    ensures var b := a.(p := Vote(a.p, v, x)); Base(b.p) && Frame(a, b, v)
  {
    VoteBase(a.p, v, x);
  }

  lemma VoteServer(s: Server, calls: map<(nat, nat, nat), VoteCall>, a: Aux, v: nat, n: nat, x: nat)
    requires ServerOk(s, calls, a, v, n) && s.votedFor == NO_VOTE
    ensures ServerOk(Persist(s.(votedFor := x)), calls, a.(p := Vote(a.p, v, x)), v, n)
  {
    if s.role == Leader {
      forall q | 0 <= q < n ensures MatchOk(Vote(a.p, v, x), q, s.currentTerm, s.matchIndex[q]) {
        assert MatchOk(a.p, q, s.currentTerm, s.matchIndex[q]);
      }
    }
  }

  lemma FrameTwice(a: Aux, b: Aux, d: Aux, i: nat)
    requires Frame(a, b, i) && Frame(b, d, i)
    ensures Frame(a, d, i)
  {
    forall t | t in a.p.elections ensures Grown(a.p.elections[t], d.p.elections[t]) {
      assert Grown(a.p.elections[t], b.p.elections[t]) && Grown(b.p.elections[t], d.p.elections[t]);
    }
  }

  lemma FewerCalls(s: Server, calls: map<(nat, nat, nat), VoteCall>, calls': map<(nat, nat, nat), VoteCall>,
                   a: Aux, v: nat, n: nat)
    requires ServerOk(s, calls, a, v, n)
    requires forall t, w :: (v, t, w) in calls' ==> (v, t, w) in calls
    ensures ServerOk(s, calls', a, v, n)
  {
  }

  ghost function AuxDeliverVote(s: Server, a: Aux, v: nat, args: VoteArgs): Aux
    requires v < |a.p.term| && s.log != []
  {
    var b := Learn(a, v, args.term);
    if RequestVote(s, args).1.granted then b.(p := Vote(b.p, v, args.candidateId)) else b
  }

  /** What RequestVote does to the voter, in protocol terms. */
  lemma DeliverVoteServer(s: Server, calls: map<(nat, nat, nat), VoteCall>, a: Aux, v: nat, n: nat, args: VoteArgs)
    requires ServerOk(s, calls, a, v, n) && s.log != [] && BallotsOk(a.p)
    ensures ServerOk(RequestVote(s, args).0, calls, AuxDeliverVote(s, a, v, args), v, n)
  {
    if args.term >= s.currentTerm {
      var b, f := Learn(a, v, args.term), if args.term > s.currentTerm then BecomeFollower(s, args.term) else s;
      assert ServerOk(f, calls, b, v, n) by {
        LearnServer(s, calls, calls, a, v, n, args.term);
      }
      if RequestVote(s, args).1.granted {
        VoteServer(f, calls, b, v, n, args.candidateId);
      }
    }
  }

  lemma DeliverVoteFrame(s: Server, a: Aux, v: nat, args: VoteArgs)
    requires v < |a.p.term| && BallotOk(s, v, a.p) && s.currentTerm == a.p.term[v] && s.log != [] && Base(a.p)
    requires (args.candidateId, args.term) in a.p.bids
    ensures var d := AuxDeliverVote(s, a, v, args); Base(d.p) && Frame(a, d, v)
  {
    LearnFrame(a, v, args.term);
    if RequestVote(s, args).1.granted {
      var b := Learn(a, v, args.term);
      VoteFrame(b, v, args.candidateId);
      FrameTwice(a, b, b.(p := Vote(b.p, v, args.candidateId)), v);
    }
  }

  lemma DeliverVoteBase(c: Cluster, a: Aux, x: nat, t: nat, v: nat)
    requires ClusterBase(c, a) && VotePending(c, x, t, v)
    ensures var b := AuxDeliverVote(c.servers[v], a, v, c.votes[(x, t, v)].args);
            ClusterBase(OnDeliverVote(c, x, t, v), b) && Frame(a, b, v)
  {
    var args := c.votes[(x, t, v)].args;
    var d, b := OnDeliverVote(c, x, t, v), AuxDeliverVote(c.servers[v], a, v, args);
    assert ServerOk(c.servers[v], c.votes, a, v, |c.servers|);
    assert VoteCallOk(a, |c.servers|, x, t, v, c.votes[(x, t, v)]);
    DeliverVoteServer(c.servers[v], c.votes, a, v, |c.servers|, args);
    DeliverVoteFrame(c.servers[v], a, v, args);
    FewerCalls(d.servers[v], c.votes, d.votes, b, v, |c.servers|);
    VoteCallLater(a, b, v, |c.servers|, x, t, v, c.votes[(x, t, v)]);
    assert NewCallsOk(c, d, b, v);
    Reassemble(c, d, a, b, v);
  }

  // ---------- Counting votes ----------

  /** The candidate counts the vote of v and, with a majority, wins. */
  ghost function AuxCount(s: Server, a: Aux, x: nat, v: nat): Aux
    requires (x, s.currentTerm) in a.grants && x < |a.p.term| && |a.p.log| == |a.p.term| && a.p.log[x] != []
  {
    var b := a.(grants := a.grants[(x, s.currentTerm) := a.grants[(x, s.currentTerm)] + {v}]);
    if s.votes + 1 > |s.nextIndex| / 2 then b.(p := Elect(b.p, x, b.grants[(x, s.currentTerm)])) else b
  }

  predicate Counts(s: Server, t: nat, reply: VoteReply) {
    reply.term <= s.currentTerm && !ContextLost(s, Candidate, t) && reply.granted
  }

  lemma CountFrame(s: Server, calls: map<(nat, nat, nat), VoteCall>, a: Aux, x: nat, n: nat, v: nat)
    requires ServerOk(s, calls, a, x, n) && Base(a.p) && |a.p.term| == n && s.role == Candidate
    requires (x, s.currentTerm, v) in calls && v < n
    requires (v, s.currentTerm) in a.p.ballots && a.p.ballots[(v, s.currentTerm)] == x
    ensures Base(AuxCount(s, a, x, v).p) && Frame(a, AuxCount(s, a, x, v), x)
    ensures s.votes + 1 > n / 2 ==> CanWin(a.p, x, a.grants[(x, s.currentTerm)] + {v})
  {
    if s.votes + 1 > n / 2 {
      CountWins(s, calls, a, x, n, v);
      ElectBase(a.p, x, a.grants[(x, s.currentTerm)] + {v});
    }
  }

  /** With this vote the candidate has a majority, and nobody has won the term before. */
  lemma CountWins(s: Server, calls: map<(nat, nat, nat), VoteCall>, a: Aux, x: nat, n: nat, v: nat)
    requires ServerOk(s, calls, a, x, n) && Base(a.p) && |a.p.term| == n && s.role == Candidate
    requires (x, s.currentTerm, v) in calls && v < n && s.votes + 1 > n / 2
    requires (v, s.currentTerm) in a.p.ballots && a.p.ballots[(v, s.currentTerm)] == x
    ensures CanWin(a.p, x, a.grants[(x, s.currentTerm)] + {v})
  {
    var g := a.grants[(x, s.currentTerm)] + {v};
    assert Quorum(g, n);
    if s.currentTerm in a.p.elections {
      OneWinner(a.p, s.currentTerm, x, g);
    }
  }

  lemma CountServer(s: Server, calls: map<(nat, nat, nat), VoteCall>, a: Aux, x: nat, n: nat, v: nat, reply: VoteReply)
    requires ServerOk(s, calls, a, x, n) && Base(a.p) && |a.p.term| == n
    requires (x, s.currentTerm, v) in calls && v < n && Counts(s, s.currentTerm, reply)
    requires (v, s.currentTerm) in a.p.ballots && a.p.ballots[(v, s.currentTerm)] == x
    ensures ServerOk(VoteAnswered(s, s.currentTerm, reply), calls - {(x, s.currentTerm, v)}, AuxCount(s, a, x, v), x, n)
  {
  }

  ghost function AuxReturnVote(c: Cluster, a: Aux, x: nat, t: nat, v: nat): Aux
    requires VoteAnswerable(c, x, t, v) && ClusterBase(c, a)
  {
    var s, reply := c.servers[x], c.votes[(x, t, v)].reply;
    assert ServerOk(s, c.votes, a, x, |c.servers|);
    if reply.term > s.currentTerm then Learn(a, x, reply.term)
    else if Counts(s, t, reply) then AuxCount(s, a, x, v)
    else a
  }

  lemma ReturnVoteBase(c: Cluster, a: Aux, x: nat, t: nat, v: nat)
    requires ClusterBase(c, a) && VoteAnswerable(c, x, t, v)
    ensures ClusterBase(OnReturnVote(c, x, t, v), AuxReturnVote(c, a, x, t, v))
    ensures Frame(a, AuxReturnVote(c, a, x, t, v), x)
  {
    var s, reply := c.servers[x], c.votes[(x, t, v)].reply;
    var d, b := OnReturnVote(c, x, t, v), AuxReturnVote(c, a, x, t, v);
    assert ServerOk(s, c.votes, a, x, |c.servers|) && VoteCallOk(a, |c.servers|, x, t, v, c.votes[(x, t, v)]);
    if reply.term > s.currentTerm {
      LearnFrame(a, x, reply.term);
      LearnServer(s, c.votes, d.votes, a, x, |c.servers|, reply.term);
    } else if Counts(s, t, reply) {
      CountFrame(s, c.votes, a, x, |c.servers|, v);
      CountServer(s, c.votes, a, x, |c.servers|, v, reply);
    } else {
      FewerCalls(s, c.votes, d.votes, a, x, |c.servers|);
    }
    Reassemble(c, d, a, b, x);
  }

  // ---------- Appending and replicating ----------

  lemma AppendFrame(a: Aux, i: nat, command: Command)
    requires Base(a.p) && CanAppend(a.p, i)
    ensures var b := a.(p := Append(a.p, i, command)); Base(b.p) && Frame(a, b, i)
  {
    AppendBase(a.p, i, command);
  }

  lemma SubmitServer(s: Server, calls: map<(nat, nat, nat), VoteCall>, a: Aux, i: nat, n: nat, command: Command)
    requires ServerOk(s, calls, a, i, n) && s.role == Leader && CanAppend(a.p, i) && AcksOk(a.p)
    ensures ServerOk(Start(s, command), calls, a.(p := Append(a.p, i, command)), i, n)
  {
    var p := Append(a.p, i, command);
    forall q | 0 <= q < n ensures MatchOk(p, q, s.currentTerm, s.matchIndex[q]) {
      assert MatchOk(a.p, q, s.currentTerm, s.matchIndex[q]);
    }
  }

  ghost function AuxSubmit(c: Cluster, a: Aux, i: nat, command: Command): Aux
    requires ClusterBase(c, a) && i < |c.servers|
  {
    assert ServerOk(c.servers[i], c.votes, a, i, |c.servers|);
    if c.servers[i].role == Leader then a.(p := Append(a.p, i, command)) else a
  }

  lemma SubmitBase(c: Cluster, a: Aux, i: nat, command: Command)
    requires ClusterBase(c, a) && i < |c.servers|
    ensures ClusterBase(OnSubmit(c, i, command), AuxSubmit(c, a, i, command))
    ensures Frame(a, AuxSubmit(c, a, i, command), i)
  {
    var d, b, s := OnSubmit(c, i, command), AuxSubmit(c, a, i, command), c.servers[i];
    assert ServerOk(s, c.votes, a, i, |c.servers|);
    if s.role == Leader {
      AppendFrame(a, i, command);
      SubmitServer(s, c.votes, a, i, |c.servers|, command);
      Reassemble(c, d, a, b, i);
    } else {
      assert d == c;
    }
  }

  lemma ReplicateServer(s: Server, calls: map<(nat, nat, nat), VoteCall>, a: Aux, i: nat, n: nat)
    requires ServerOk(s, calls, a, i, n) && i < n && s.role == Leader
    ensures ServerOk(StartReplication(s), calls, a, i, n)
  {
    var r := StartReplication(s);
    forall q | 0 <= q < n ensures MatchOk(a.p, q, r.currentTerm, r.matchIndex[q]) {
      assert MatchOk(a.p, q, s.currentTerm, s.matchIndex[q]);
    }
  }

  /** A leader's request for a peer exists, and is a slice of its log down to the end. */
  lemma RequestOk(s: Server, calls: map<(nat, nat, nat), VoteCall>, a: Aux, i: nat, n: nat, peer: nat)
    requires ServerOk(s, calls, a, i, n) && s.role == Leader && peer < n && Base(a.p)
    ensures ReplicationRequest(s, peer).Some? && ArgsOk(a.p, i, ReplicationRequest(s, peer).value)
  {
    assert ElectionOk(a.p, s.currentTerm);
    var prev := s.nextIndex[peer] - 1;
    assert s.log[prev + 1..] == s.log[prev + 1..|s.log|];
  }

  lemma ReplicateCalls(c: Cluster, a: Aux, i: nat)
    requires Base(a.p) && i < |c.servers| && c.servers[i].role == Leader
    requires ServerOk(StartReplication(c.servers[i]), c.votes, a, i, |c.servers|)
    ensures NewCallsOk(c, OnReplicate(c, i), a, i)
  {
    var d, s := OnReplicate(c, i), StartReplication(c.servers[i]);
    forall id | id in Round(s, i, |c.servers|, c.sent)
      ensures id < d.sent && AppendCallOk(a, |c.servers|, Round(s, i, |c.servers|, c.sent)[id])
    {
      RoundCall(s, c.votes, a, i, |c.servers|, c.sent, id);
    }
  }

  lemma RoundCall(s: Server, calls: map<(nat, nat, nat), VoteCall>, a: Aux, i: nat, n: nat, base: nat, id: nat)
    requires ServerOk(s, calls, a, i, n) && s.role == Leader && i < n && Base(a.p) && id in Round(s, i, n, base)
    ensures id < base + n && AppendCallOk(a, n, Round(s, i, n, base)[id])
  {
    assert CallNumber(s, i, n, base, id).Some?;
    RequestOk(s, calls, a, i, n, id - base);
  }

  lemma ReplicateBase(c: Cluster, a: Aux, i: nat)
    requires ClusterBase(c, a) && i < |c.servers| && c.servers[i].role == Leader
    ensures ClusterBase(OnReplicate(c, i), a)
  {
    assert ServerOk(c.servers[i], c.votes, a, i, |c.servers|);
    ReplicateServer(c.servers[i], c.votes, a, i, |c.servers|);
    ReplicateCalls(c, a, i);
    Reassemble(c, OnReplicate(c, i), a, a, i);
  }

  lemma AcceptFrame(a: Aux, i: nat, end: nat)
    requires Base(a.p) && CanAccept(a.p, i, end)
    ensures var b := a.(p := Accept(a.p, i, end)); Base(b.p) && Frame(a, b, i)
  {
    AcceptBase(a.p, i, end);
  }

  /** The request is current and passes the consistency check. */
  predicate Accepts(s: Server, args: AppendArgs) {
    && s.currentTerm <= args.term
    && 0 <= args.prevLogIndex < |s.log| && s.log[args.prevLogIndex].term == args.prevLogTerm
  }

  lemma AcceptsIsSuccess(s: Server, args: AppendArgs)
    ensures AppendEntries(s, args).1.success <==> Accepts(s, args)
    ensures Accepts(s, args) ==>
              && var r := AppendEntries(s, args).0;
                 var l := s.log[..args.prevLogIndex + 1] + args.entries;
                 && r == Persist(BecomeFollower(s, args.term).(log := l)).(commitIndex := r.commitIndex)
                 && r.commitIndex == (if args.leaderCommit > s.commitIndex then args.leaderCommit else s.commitIndex)
    ensures s.currentTerm <= args.term && !Accepts(s, args) ==> AppendEntries(s, args).0 == BecomeFollower(s, args.term)
    ensures args.term < s.currentTerm ==> AppendEntries(s, args).0 == s
  {
  }

  /** What AppendEntries does, in protocol terms. */
  ghost function AuxDeliverAppend(s: Server, a: Aux, v: nat, from: nat, args: AppendArgs): Aux
    requires v < |a.p.term| && |a.p.log| == |a.p.term| && ArgsOk(a.p, from, args)
  {
    if args.term < a.p.term[v] then a
    else
      var b := Learn(a, v, args.term);
      if Accepts(s, args) then b.(p := Accept(b.p, v, args.prevLogIndex + |args.entries|)) else b
  }

  /** The consistency check passes: the protocol event is an Accept. */
  lemma AcceptGuard(a: Aux, v: nat, from: nat, args: AppendArgs)
    requires Base(a.p) && v < |a.p.term| && a.p.term[v] <= args.term && ArgsOk(a.p, from, args)
    requires args.prevLogIndex < |a.p.log[v]| && a.p.log[v][args.prevLogIndex].term == args.prevLogTerm
    ensures var b, end := Learn(a, v, args.term), args.prevLogIndex + |args.entries|;
            && CanAccept(b.p, v, end)
            && a.p.log[v][..args.prevLogIndex + 1] + args.entries == b.p.elections[args.term].log[..end + 1]
  {
    AppendAgrees(a.p, a.p.log[v], from, args);
  }

  lemma AcceptServer(f: Server, calls: map<(nat, nat, nat), VoteCall>, b: Aux, v: nat, n: nat, end: nat, l: Log, k: int)
    requires ServerOk(f, calls, b, v, n) && f.role == Follower
    requires CanAccept(b.p, v, end) && l == b.p.elections[f.currentTerm].log[..end + 1]
    ensures ServerOk(Persist(f.(log := l)).(commitIndex := k), calls, b.(p := Accept(b.p, v, end)), v, n)
  {
  }

  lemma DeliverAppendServer(s: Server, calls: map<(nat, nat, nat), VoteCall>, a: Aux, v: nat, n: nat,
                            from: nat, args: AppendArgs)
    requires ServerOk(s, calls, a, v, n) && Base(a.p) && ArgsOk(a.p, from, args)
    ensures ServerOk(AppendEntries(s, args).0, calls, AuxDeliverAppend(s, a, v, from, args), v, n)
  {
    AcceptsIsSuccess(s, args);
    if args.term >= s.currentTerm {
      var f, b := BecomeFollower(s, args.term), Learn(a, v, args.term);
      LearnServer(s, calls, calls, a, v, n, args.term);
      if Accepts(s, args) {
        AcceptGuard(a, v, from, args);
        var r := AppendEntries(s, args).0;
        AcceptServer(f, calls, b, v, n, args.prevLogIndex + |args.entries|, r.log, r.commitIndex);
      }
    }
  }

  lemma DeliverAppendFrame(s: Server, a: Aux, v: nat, from: nat, args: AppendArgs)
    requires Base(a.p) && v < |a.p.term| && ArgsOk(a.p, from, args)
    requires s.log == a.p.log[v] && s.currentTerm == a.p.term[v]
    ensures var b := AuxDeliverAppend(s, a, v, from, args); Base(b.p) && Frame(a, b, v)
  {
    if Accepts(s, args) {
      ReadyToLearn(s, a, v, from, args);
      AcceptedFrame(s, a, v, from, args);
    } else {
      RejectedFrame(s, a, v, from, args);
    }
  }

  lemma RejectedFrame(s: Server, a: Aux, v: nat, from: nat, args: AppendArgs)
    requires Base(a.p) && v < |a.p.term| && ArgsOk(a.p, from, args) && !Accepts(s, args)
    ensures var b := AuxDeliverAppend(s, a, v, from, args); Base(b.p) && Frame(a, b, v)
  {
    LearnFrame(a, v, args.term);
    assert args.term < a.p.term[v] ==> Learn(a, v, args.term) == a;
  }

  lemma AcceptedFrame(s: Server, a: Aux, v: nat, from: nat, args: AppendArgs)
    requires v < |a.p.term| && |a.p.log| == |a.p.term| && ArgsOk(a.p, from, args) && Accepts(s, args)
    requires s.currentTerm == a.p.term[v] && LearnReady(a, v, args.term, args.prevLogIndex + |args.entries|)
    ensures var b := AuxDeliverAppend(s, a, v, from, args); Base(b.p) && Frame(a, b, v)
  {
    LearnThenAccept(a, v, args.term, args.prevLogIndex + |args.entries|);
    AuxAccepted(s, a, v, from, args);
  }

  lemma ReadyToLearn(s: Server, a: Aux, v: nat, from: nat, args: AppendArgs)
    requires Base(a.p) && v < |a.p.term| && ArgsOk(a.p, from, args) && Accepts(s, args)
    requires s.log == a.p.log[v] && s.currentTerm == a.p.term[v]
    ensures LearnReady(a, v, args.term, args.prevLogIndex + |args.entries|)
  {
    LearnFrame(a, v, args.term);
    AcceptGuard(a, v, from, args);
  }

  lemma AuxAccepted(s: Server, a: Aux, v: nat, from: nat, args: AppendArgs)
    requires v < |a.p.term| && |a.p.log| == |a.p.term| && ArgsOk(a.p, from, args)
    requires Accepts(s, args) && s.currentTerm == a.p.term[v]
    requires CanAccept(Learn(a, v, args.term).p, v, args.prevLogIndex + |args.entries|)
    ensures var b := Learn(a, v, args.term);
            AuxDeliverAppend(s, a, v, from, args) == b.(p := Accept(b.p, v, args.prevLogIndex + |args.entries|))
  {
  }

  ghost predicate LearnReady(a: Aux, v: nat, term: nat, end: nat) {
    v < |a.p.term| && var b := Learn(a, v, term); Base(b.p) && Frame(a, b, v) && CanAccept(b.p, v, end)
  }

  lemma LearnThenAccept(a: Aux, v: nat, term: nat, end: nat)
    requires LearnReady(a, v, term, end)
    ensures var b := Learn(a, v, term); var d := b.(p := Accept(b.p, v, end)); Base(d.p) && Frame(a, d, v)
  {
    var b := Learn(a, v, term);
    AcceptFrame(b, v, end);
    FrameTwice(a, b, b.(p := Accept(b.p, v, end)), v);
  }

  lemma DeliverAppendReply(s: Server, a: Aux, v: nat, from: nat, args: AppendArgs)
    requires v < |a.p.term| && |a.p.log| == |a.p.term| && Base(a.p) && ArgsOk(a.p, from, args)
    requires s.log == a.p.log[v] && s.currentTerm == a.p.term[v]
    ensures var b := AuxDeliverAppend(s, a, v, from, args);
            Later(a.p, b.p) ==> AppendReplyOk(b.p, v, args, AppendEntries(s, args).1)
  {
    var b := AuxDeliverAppend(s, a, v, from, args);
    AcceptsIsSuccess(s, args);
    if Later(a.p, b.p) && !AppendEntries(s, args).1.success {
      RejectionOk(a.p, s, v, from, args);
    }
  }

  lemma DeliverAppendBase(c: Cluster, a: Aux, id: nat)
    requires ClusterBase(c, a) && AppendPending(c, id)
    requires AppendCallOk(a, |c.servers|, c.appends[id])
    ensures var call := c.appends[id];
            var b := AuxDeliverAppend(c.servers[call.to], a, call.to, call.from, call.args);
            ClusterBase(OnDeliverAppend(c, id), b) && Frame(a, b, call.to)
  {
    var call := c.appends[id];
    var s := c.servers[call.to];
    var d, b := OnDeliverAppend(c, id), AuxDeliverAppend(s, a, call.to, call.from, call.args);
    assert ServerOk(s, c.votes, a, call.to, |c.servers|);
    DeliverAppendServer(s, c.votes, a, call.to, |c.servers|, call.from, call.args);
    DeliverAppendFrame(s, a, call.to, call.from, call.args);
    DeliverAppendCalls(c, a, id, b);
    Reassemble(c, d, a, b, call.to);
  }

  lemma DeliverAppendCalls(c: Cluster, a: Aux, id: nat, b: Aux)
    requires AppendPending(c, id) && AppendCallOk(a, |c.servers|, c.appends[id]) && id < c.sent
    requires var call := c.appends[id];
             var s := c.servers[call.to];
             && call.to < |a.p.term| && |a.p.log| == |a.p.term| && Base(a.p)
             && s.log == a.p.log[call.to] && s.currentTerm == a.p.term[call.to]
             && b == AuxDeliverAppend(s, a, call.to, call.from, call.args) && Frame(a, b, call.to)
    ensures NewCallsOk(c, OnDeliverAppend(c, id), b, c.appends[id].to)
  {
    var call := c.appends[id];
    DeliverAppendReply(c.servers[call.to], a, call.to, call.from, call.args);
    ArgsLater(a.p, b.p, call.from, call.args);
  }

  lemma AnsweredServer(s: Server, calls: map<(nat, nat, nat), VoteCall>, a: Aux, i: nat, n: nat,
                       peer: nat, args: AppendArgs, reply: AppendReply)
    requires ServerOk(s, calls, a, i, n) && Base(a.p) && peer < n && reply.term <= s.currentTerm
    requires ArgsOk(a.p, i, args) && AppendReplyOk(a.p, peer, args, reply)
    ensures ServerOk(AppendAnswered(s, peer, args, reply), calls, a, i, n)
  {
    if !ContextLost(s, Leader, args.term) {
      var r := AppendAnswered(s, peer, args, reply);
      if !reply.success {
        BacktrackIsConflictIndex(a.p, s.log, peer, args, reply, s.nextIndex[peer]);
      }
      forall q | 0 <= q < n ensures MatchOk(a.p, q, r.currentTerm, r.matchIndex[q]) {
        assert MatchOk(a.p, q, s.currentTerm, s.matchIndex[q]);
      }
    }
  }

  lemma ReturnAppendBase(c: Cluster, a: Aux, id: nat)
    requires ClusterBase(c, a) && AppendAnswerable(c, id)
    ensures var b := Learn(a, c.appends[id].from, c.appends[id].reply.term);
            ClusterBase(OnReturnAppend(c, id), b) && Frame(a, b, c.appends[id].from)
  {
    var call := c.appends[id];
    var s, d, b := c.servers[call.from], OnReturnAppend(c, id), Learn(a, call.from, call.reply.term);
    assert ServerOk(s, c.votes, a, call.from, |c.servers|) && AppendCallOk(a, |c.servers|, call);
    LearnFrame(a, call.from, call.reply.term);
    if call.reply.term > s.currentTerm {
      LearnServer(s, c.votes, c.votes, a, call.from, |c.servers|, call.reply.term);
    } else {
      AnsweredServer(s, c.votes, a, call.from, |c.servers|, call.to, call.args, call.reply);
    }
    Reassemble(c, d, a, b, call.from);
  }
}
