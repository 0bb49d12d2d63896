/**
 Ties the cluster to the protocol: what every server and every call in flight promises about the
 history.  `ClusterBase` holds in every run.
 */
module RaftInvariant {
  import opened RaftTypes
  import opened RaftServer
  import opened RaftCluster
  import opened RaftProtocol

  /** The protocol's history, and for each (candidate, term) the servers whose votes were counted. */
  datatype Aux = Aux(p: Protocol, grants: map<(nat, nat), set<nat>>)

  // ---------- Servers ----------

  /** A crash loses nothing that matters: the disk holds the term, the vote and the log. */
  ghost predicate DiskOk(s: Server) {
    var r := Restart(s);
    r.currentTerm == s.currentTerm && r.votedFor == s.votedFor && r.log == s.log
  }

  ghost predicate BallotOk(s: Server, i: nat, p: Protocol) {
    if s.votedFor == NO_VOTE then (i, s.currentTerm) !in p.ballots
    else (i, s.currentTerm) in p.ballots && p.ballots[(i, s.currentTerm)] == s.votedFor
  }

  /** The vote counter equals the number of distinct servers that granted their vote. */
  ghost predicate CountOk(s: Server, calls: map<(nat, nat, nat), VoteCall>, a: Aux, i: nat, n: nat) {
    var key := (i, s.currentTerm);
    && key in a.grants
    && (forall v :: v in a.grants[key] ==>
          v < n && (v, s.currentTerm) in a.p.ballots && a.p.ballots[(v, s.currentTerm)] == i)
    && (forall v :: (i, s.currentTerm, v) in calls ==> v !in a.grants[key] && !s.asking)
    && (if s.asking then a.grants[key] == {} else s.votes == |a.grants[key]|)
  }

  ghost predicate CandidateOk(s: Server, i: nat, p: Protocol) {
    && (i, s.currentTerm) in p.bids && p.bids[(i, s.currentTerm)] == s.log
    && !(s.currentTerm in p.elections && p.elections[s.currentTerm].leader == i)
    && s.votedFor == i
  }

  /** A leader never claims more of a peer than the peer acknowledged, and never looks outside its log. */
  ghost predicate LeaderOk(s: Server, i: nat, p: Protocol) {
    && s.currentTerm in p.elections
    && p.elections[s.currentTerm].leader == i
    && p.elections[s.currentTerm].log == s.log
    && s.log != [] && Acked(p, i, s.currentTerm, |s.log| - 1)
    && (forall q :: 0 <= q < |s.matchIndex| ==> MatchOk(p, q, s.currentTerm, s.matchIndex[q]))
    && (forall q :: 0 <= q < |s.nextIndex| ==> 1 <= s.nextIndex[q] <= |s.log|)
  }

  ghost predicate MatchOk(p: Protocol, q: nat, t: nat, m: int) {
    0 <= m && (m == 0 || Acked(p, q, t, m))
  }

  ghost predicate ServerOk(s: Server, calls: map<(nat, nat, nat), VoteCall>, a: Aux, i: nat, n: nat) {
    && s.me == i && |s.nextIndex| == |s.matchIndex| == n
    && i < |a.p.term| && i < |a.p.log|
    && a.p.term[i] == s.currentTerm && a.p.log[i] == s.log && 0 < s.currentTerm
    && DiskOk(s)
    && BallotOk(s, i, a.p)
    && (s.role == Candidate ==> CandidateOk(s, i, a.p) && CountOk(s, calls, a, i, n))
    && (s.role == Leader ==> LeaderOk(s, i, a.p))
  }

  // ---------- Calls ----------

  ghost predicate VoteCallOk(a: Aux, n: nat, x: nat, t: nat, v: nat, call: VoteCall) {
    && x < n && v < n && v != x
    && (x, t) in a.p.bids && a.p.bids[(x, t)] != []
    && match call
       case VoteAsked(args) =>
         var l := a.p.bids[(x, t)];
         args == VoteArgs(t, x, |l| - 1, l[|l| - 1].term)
       case VoteReplied(reply) =>
         reply.granted ==> (v, t) in a.p.ballots && a.p.ballots[(v, t)] == x
  }

  /** The request is a slice of its leader's log that runs at least to where the leader's term began. */
  ghost predicate ArgsOk(p: Protocol, from: nat, args: AppendArgs) {
    && args.term in p.elections && args.leaderId == from
    && var e := p.elections[args.term];
       var end := args.prevLogIndex + |args.entries|;
       && e.leader == from
       && 0 <= args.prevLogIndex && |e.first| <= end + 1 <= |e.log|
       && args.entries == e.log[args.prevLogIndex + 1..end + 1]
       && args.prevLogTerm == e.log[args.prevLogIndex].term
  }

  ghost predicate AppendReplyOk(p: Protocol, to: nat, args: AppendArgs, reply: AppendReply)
  {
    && (reply.success ==>
          0 <= args.prevLogIndex && Acked(p, to, args.term, args.prevLogIndex + |args.entries|))
    && (!reply.success && reply.term <= args.term ==>
          && 1 <= reply.conflictIndex <= args.prevLogIndex
          && (reply.conflictTerm != INVALID_TERM ==>
                reply.conflictTerm in p.elections && reply.conflictIndex == |p.elections[reply.conflictTerm].first|))
  }

  ghost predicate AppendCallOk(a: Aux, n: nat, call: AppendCall) {
    && call.from < n && call.to < n && call.to != call.from
    && ArgsOk(a.p, call.from, call.args)
    && (call.AppendReplied? ==> AppendReplyOk(a.p, call.to, call.args, call.reply))
  }

  ghost predicate CallsOk(c: Cluster, a: Aux) {
    && (forall x, t, v {:trigger VoteCallOk(a, |c.servers|, x, t, v, c.votes[(x, t, v)])} :: (x, t, v) in c.votes ==>
          VoteCallOk(a, |c.servers|, x, t, v, c.votes[(x, t, v)]))
    && (forall id {:trigger AppendCallOk(a, |c.servers|, c.appends[id])} :: id in c.appends ==>
          id < c.sent && AppendCallOk(a, |c.servers|, c.appends[id]))
  }

  ghost predicate ClusterBase(c: Cluster, a: Aux) {
    && 0 < |c.servers| == |a.p.term|
    && Base(a.p)
    && (forall i {:trigger ServerOk(c.servers[i], c.votes, a, i, |c.servers|)} :: 0 <= i < |c.servers| ==>
          ServerOk(c.servers[i], c.votes, a, i, |c.servers|))
    && CallsOk(c, a)
  }

  // ---------- What an event of server i leaves alone ----------

  /** From `a` to `b` only server i acted. */
  ghost predicate Frame(a: Aux, b: Aux, i: nat) {
    && Later(a.p, b.p) && |b.p.log| == |a.p.log|
    && (forall j :: 0 <= j < |a.p.term| && j != i ==> b.p.term[j] == a.p.term[j])
    && (forall j :: 0 <= j < |a.p.log| && j != i ==> b.p.log[j] == a.p.log[j])
    && (forall k :: k in a.p.bids ==> k in b.p.bids && b.p.bids[k] == a.p.bids[k])
    && (forall k :: k in a.p.ballots ==> k in b.p.ballots && b.p.ballots[k] == a.p.ballots[k])
    && (forall j, t :: (j, t) in b.p.ballots && j != i ==> (j, t) in a.p.ballots)
    && (forall j, t :: (j, t) in a.grants && j != i ==> (j, t) in b.grants && b.grants[(j, t)] == a.grants[(j, t)])
    && (forall t :: t in b.p.elections ==> t in a.p.elections || b.p.elections[t].leader == i)
    && (forall t :: t in a.p.elections && a.p.elections[t].leader != i ==> b.p.elections[t].log == a.p.elections[t].log)
  }

  /** Another server's part of the invariant survives. */
  lemma OtherServer(s: Server, calls: map<(nat, nat, nat), VoteCall>, calls': map<(nat, nat, nat), VoteCall>,
                    a: Aux, b: Aux, i: nat, j: nat, n: nat)
    requires Frame(a, b, i) && j != i
    requires forall t, v :: (j, t, v) in calls' ==> (j, t, v) in calls
    requires ServerOk(s, calls, a, j, n)
    ensures ServerOk(s, calls', b, j, n)
  {
    if s.role == Leader {
      forall q | 0 <= q < |s.matchIndex| ensures MatchOk(b.p, q, s.currentTerm, s.matchIndex[q]) {
        assert MatchOk(a.p, q, s.currentTerm, s.matchIndex[q]);
      }
    }
  }

  lemma VoteCallLater(a: Aux, b: Aux, i: nat, n: nat, x: nat, t: nat, v: nat, call: VoteCall)
    requires Frame(a, b, i) && VoteCallOk(a, n, x, t, v, call)
    ensures VoteCallOk(b, n, x, t, v, call)
  {
  }

  lemma ArgsLater(p: Protocol, r: Protocol, from: nat, args: AppendArgs)
    requires Later(p, r) && ArgsOk(p, from, args)
    ensures ArgsOk(r, from, args)
  {
    var e, f := p.elections[args.term].log, r.elections[args.term].log;
    assert e == f[..|e|];
    assert f[args.prevLogIndex + 1..args.prevLogIndex + |args.entries| + 1]
        == e[args.prevLogIndex + 1..args.prevLogIndex + |args.entries| + 1];
  }

  lemma AppendCallLater(a: Aux, b: Aux, n: nat, call: AppendCall)
    requires Later(a.p, b.p) && AppendCallOk(a, n, call)
    ensures AppendCallOk(b, n, call)
  {
    ArgsLater(a.p, b.p, call.from, call.args);
  }

  /** The calls that an event of server i leaves behind are old ones or in order. */
  ghost predicate NewCallsOk(c: Cluster, d: Cluster, b: Aux, i: nat) {
    && (forall j, t, v :: (j, t, v) in d.votes && j != i ==> (j, t, v) in c.votes)
    && (forall x, t, v :: (x, t, v) in d.votes ==>
          || ((x, t, v) in c.votes && d.votes[(x, t, v)] == c.votes[(x, t, v)])
          || VoteCallOk(b, |d.servers|, x, t, v, d.votes[(x, t, v)]))
    && (forall id :: id in d.appends ==>
          || (id in c.appends && d.appends[id] == c.appends[id])
          || (id < d.sent && AppendCallOk(b, |d.servers|, d.appends[id])))
  }

  /** To keep `ClusterBase`, an event of server i has to look after i and after the calls that it changes. */
  lemma Reassemble(c: Cluster, d: Cluster, a: Aux, b: Aux, i: nat)
    requires ClusterBase(c, a) && Frame(a, b, i) && Base(b.p)
    requires i < |c.servers| && |d.servers| == |c.servers| && d.servers == c.servers[i := d.servers[i]]
    requires c.sent <= d.sent
    requires ServerOk(d.servers[i], d.votes, b, i, |d.servers|)
    requires NewCallsOk(c, d, b, i)
    ensures ClusterBase(d, b)
  {
    forall j | 0 <= j < |d.servers| ensures ServerOk(d.servers[j], d.votes, b, j, |d.servers|) {
      if j != i {
        OtherServer(c.servers[j], c.votes, d.votes, a, b, i, j, |c.servers|);
      }
    }
    ReassembleCalls(c, d, a, b, i);
  }

  lemma ReassembleCalls(c: Cluster, d: Cluster, a: Aux, b: Aux, i: nat)
    requires CallsOk(c, a) && Frame(a, b, i) && |d.servers| == |c.servers| && c.sent <= d.sent
    requires NewCallsOk(c, d, b, i)
    ensures CallsOk(d, b)
  {
    forall x, t, v | (x, t, v) in d.votes ensures VoteCallOk(b, |d.servers|, x, t, v, d.votes[(x, t, v)]) {
      if (x, t, v) in c.votes && d.votes[(x, t, v)] == c.votes[(x, t, v)] {
        VoteCallLater(a, b, i, |c.servers|, x, t, v, c.votes[(x, t, v)]);
      }
    }
    forall id | id in d.appends ensures id < d.sent && AppendCallOk(b, |d.servers|, d.appends[id]) {
      if id in c.appends && d.appends[id] == c.appends[id] {
        AppendCallLater(a, b, |c.servers|, c.appends[id]);
      }
    }
  }
}
