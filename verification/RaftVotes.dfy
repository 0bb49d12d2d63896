/** A candidate's integer counter counts each voter once, although replies are late, lost or stale. */
module RaftVotes {
  import opened RaftTypes
  import opened RaftServer
  import opened RaftCluster
  import opened RaftProtocol
  import opened RaftInvariant
  import opened RaftSteps
  import opened RaftTheorems

  // ---------- Who voted ----------

  /** At or before state k, server v had voted for a in term t. */
  ghost predicate HadVoted(r: Run, k: nat, v: nat, t: nat, a: nat) {
    exists j: nat :: j <= k && j < |r.states| && v < |r.states[j].servers|
      && r.states[j].servers[v].currentTerm == t && r.states[j].servers[v].votedFor == a
  }

  lemma BallotsOnVote(s: Server, a: Aux, w: nat, args: VoteArgs, v: nat, t: nat)
    requires w < |a.p.term| && s.log != [] && s.currentTerm == a.p.term[w]
    requires (v, t) in AuxDeliverVote(s, a, w, args).p.ballots && (v, t) !in a.p.ballots
    ensures v == w && t == AuxDeliverVote(s, a, w, args).p.term[w]
  {
  }

  lemma BallotsElsewhere(c: Cluster, a: Aux, e: Event)
    requires ClusterBase(c, a) && Enabled(c, e) && !e.Timeout? && !e.DeliverVote?
    ensures NextAux(c, a, e).p.ballots == a.p.ballots
  {
    if e.DeliverAppend? {
      var call := c.appends[e.id];
      assert AppendCallOk(a, |c.servers|, call);
      BallotsOnAppend(c.servers[call.to], a, call.to, call.from, call.args);
    } else if e.ReturnVote? {
      BallotsOnCount(c, a, e.c, e.t, e.peer);
    }
  }

  lemma BallotsOnAppend(s: Server, a: Aux, v: nat, from: nat, args: AppendArgs)
    requires v < |a.p.term| && |a.p.log| == |a.p.term| && ArgsOk(a.p, from, args)
    ensures AuxDeliverAppend(s, a, v, from, args).p.ballots == a.p.ballots
  {
  }

  lemma BallotsOnCount(c: Cluster, a: Aux, x: nat, t: nat, v: nat)
    requires VoteAnswerable(c, x, t, v) && ClusterBase(c, a)
    ensures AuxReturnVote(c, a, x, t, v).p.ballots == a.p.ballots
  {
  }

  /** A vote enters the history in the voter's current term. */
  lemma BallotsStep(c: Cluster, a: Aux, e: Event, v: nat, t: nat)
    requires ClusterBase(c, a) && Enabled(c, e)
    requires (v, t) in NextAux(c, a, e).p.ballots && (v, t) !in a.p.ballots
    ensures v < |NextAux(c, a, e).p.term| && t == NextAux(c, a, e).p.term[v]
  {
    match e
    case Timeout(i) => assert ServerOk(c.servers[i], c.votes, a, i, |c.servers|);
    case DeliverVote(x, u, w) =>
      assert ServerOk(c.servers[w], c.votes, a, w, |c.servers|);
      BallotsOnVote(c.servers[w], a, w, c.votes[(x, u, w)].args, v, t);
    case _ => BallotsElsewhere(c, a, e);
  }

  lemma {:induction false} BallotsWitnessed(r: Run, h: seq<Aux>, k: nat, v: nat, t: nat)
    requires Histories(r, h) && k < |h| && (v, t) in h[k].p.ballots
    ensures HadVoted(r, k, v, t, h[k].p.ballots[(v, t)])
    decreases k
  {
    if k > 0 {
      BallotOrigin(r, h, k, v, t);
      if (v, t) in h[k - 1].p.ballots {
        BallotsWitnessed(r, h, k - 1, v, t);
      } else {
        NewBallotWitnessed(r, h, k, v, t);
      }
    }
  }

  /** A vote in the history was there before, or is of the voter's current term. */
  lemma BallotOrigin(r: Run, h: seq<Aux>, k: nat, v: nat, t: nat)
    requires Histories(r, h) && 0 < k < |h| && (v, t) in h[k].p.ballots
    ensures if (v, t) in h[k - 1].p.ballots then h[k].p.ballots[(v, t)] == h[k - 1].p.ballots[(v, t)]
            else v < |h[k].p.term| && t == h[k].p.term[v]
  {
    assert HistoryStep(r, h, k - 1);
    if (v, t) in h[k - 1].p.ballots {
      StepBase(r.states[k - 1], h[k - 1], r.events[k - 1]);
    } else {
      BallotsStep(r.states[k - 1], h[k - 1], r.events[k - 1], v, t);
    }
  }

  lemma NewBallotWitnessed(r: Run, h: seq<Aux>, k: nat, v: nat, t: nat)
    requires Histories(r, h) && k < |h| && (v, t) in h[k].p.ballots && v < |h[k].p.term| && t == h[k].p.term[v]
    ensures HadVoted(r, k, v, t, h[k].p.ballots[(v, t)])
  {
    assert ClusterBase(r.states[k], h[k]);
    ServerAt(r, h, k, v);
  }

  // ---------- Whose votes were counted ----------

  /** Event j brings candidate a the granted vote of v for term t, while a still stands in that term. */
  ghost predicate CountedAt(r: Run, j: nat, a: nat, t: nat, v: nat) {
    && j < |r.events| <= |r.states| && r.events[j] == ReturnVote(a, t, v) && VoteAnswerable(r.states[j], a, t, v)
    && Counts(r.states[j].servers[a], t, r.states[j].votes[(a, t, v)].reply)
  }

  ghost predicate CountedBefore(r: Run, k: nat, a: nat, t: nat, v: nat) {
    exists j: nat :: j < k && CountedAt(r, j, a, t, v)
  }

  lemma CountedNow(r: Run, k: nat, a: nat, t: nat, v: nat)
    requires k > 0
    ensures CountedBefore(r, k, a, t, v) <==> CountedBefore(r, k - 1, a, t, v) || CountedAt(r, k - 1, a, t, v)
  {
  }

  /** A vote is counted only while the candidate is in that term. */
  lemma CountedInTerm(r: Run, h: seq<Aux>, j: nat, k: nat, a: nat, t: nat, v: nat)
    requires Histories(r, h) && j <= k < |r.states| && CountedAt(r, j, a, t, v) && a < |r.states[k].servers|
    ensures t <= r.states[k].servers[a].currentTerm
  {
    ServerAt(r, h, j, a);
    ServerAt(r, h, k, a);
    LaterAlong(h, j, k);
  }

  predicate About(e: Event, a: nat) {
    (e.Timeout? && e.i == a) || (e.Ask? && e.i == a) || (e.ReturnVote? && e.c == a)
  }

  lemma CandidateOnVote(s: Server, args: VoteArgs)
    requires s.log != [] && (s.role == Candidate ==> s.votedFor != NO_VOTE) && RequestVote(s, args).0.role == Candidate
    ensures RequestVote(s, args).0 == s
  {
  }

  lemma CandidateOnAppend(s: Server, args: AppendArgs)
    requires AppendEntries(s, args).0.role == Candidate
    ensures AppendEntries(s, args).0 == s
  {
  }

  lemma CandidateOnAnswer(s: Server, peer: nat, args: AppendArgs, reply: AppendReply)
    requires peer < |s.nextIndex| == |s.matchIndex| && AppendAnswered(s, peer, args, reply).role == Candidate
    ensures AppendAnswered(s, peer, args, reply) == s
  {
  }

  lemma CandidateOnCall(c: Cluster, x: Aux, e: Event, a: nat)
    requires ClusterBase(c, x) && Enabled(c, e) && a < |c.servers|
    requires e.DeliverVote? || e.DeliverAppend? || e.ReturnAppend?
    requires ServerOk(c.servers[a], c.votes, x, a, |c.servers|)
    requires a < |Apply(c, e).servers| && Apply(c, e).servers[a].role == Candidate
    ensures Apply(c, e).servers[a] == c.servers[a]
  {
    var s := c.servers[a];
    match e
    case DeliverVote(y, t, p) =>
      if p == a {
        CandidateOnVote(s, c.votes[(y, t, p)].args);
      }
    case DeliverAppend(id) =>
      if c.appends[id].to == a {
        CandidateOnAppend(s, c.appends[id].args);
      }
    case ReturnAppend(id) =>
      if c.appends[id].from == a {
        CandidateOnAnswer(s, c.appends[id].to, c.appends[id].args, c.appends[id].reply);
      }
  }

  lemma CandidateOnOther(c: Cluster, e: Event, a: nat)
    requires Enabled(c, e) && a < |c.servers| && !About(e, a)
    requires !(e.DeliverVote? || e.DeliverAppend? || e.ReturnAppend?)
    requires a < |Apply(c, e).servers| && Apply(c, e).servers[a].role == Candidate
    ensures Apply(c, e).servers[a] == c.servers[a]
  {
  }

  /** A candidate that stays one is left alone by all events but these. */
  lemma CandidateStays(c: Cluster, x: Aux, e: Event, a: nat)
    requires ClusterBase(c, x) && Enabled(c, e) && a < |c.servers| && !About(e, a)
    requires a < |Apply(c, e).servers| && Apply(c, e).servers[a].role == Candidate
    ensures Apply(c, e).servers[a] == c.servers[a]
  {
    if e.DeliverVote? || e.DeliverAppend? || e.ReturnAppend? {
      assert ServerOk(c.servers[a], c.votes, x, a, |c.servers|);
      CandidateOnCall(c, x, e, a);
    } else {
      CandidateOnOther(c, e, a);
    }
  }

  lemma GrantsStay(c: Cluster, x: Aux, e: Event, a: nat, t: nat)
    requires ClusterBase(c, x) && Enabled(c, e) && !About(e, a)
    ensures (a, t) in NextAux(c, x, e).grants <==> (a, t) in x.grants
    ensures (a, t) in x.grants ==> NextAux(c, x, e).grants[(a, t)] == x.grants[(a, t)]
  {
    if e.DeliverAppend? {
      var call := c.appends[e.id];
      assert AppendCallOk(x, |c.servers|, call);
      GrantsOnAppend(c.servers[call.to], x, call.to, call.from, call.args);
    }
  }

  lemma GrantsOnAppend(s: Server, x: Aux, v: nat, from: nat, args: AppendArgs)
    requires v < |x.p.term| && |x.p.log| == |x.p.term| && ArgsOk(x.p, from, args)
    ensures AuxDeliverAppend(s, x, v, from, args).grants == x.grants
  {
  }

  /** The history's grants are the candidate's own vote and the replies counted so far. */
  ghost predicate GrantsOk(r: Run, h: seq<Aux>, k: nat, a: nat)
    requires k < |r.states| && k < |h| && a < |r.states[k].servers|
  {
    var s := r.states[k].servers[a];
    s.role == Candidate ==>
      && (a, s.currentTerm) in h[k].grants
      && (forall v :: v in h[k].grants[(a, s.currentTerm)] <==>
            (!s.asking && v == a) || CountedBefore(r, k, a, s.currentTerm, v))
      && (s.asking ==> h[k].grants[(a, s.currentTerm)] == {})
  }

  lemma GrantsOnOther(r: Run, h: seq<Aux>, k: nat, a: nat)
    requires Histories(r, h) && 0 < k < |r.states| && a < |r.states[k].servers| && a < |r.states[k - 1].servers|
    requires GrantsOk(r, h, k - 1, a) && !About(r.events[k - 1], a)
    ensures GrantsOk(r, h, k, a)
  {
    var c, e, s := r.states[k - 1], r.events[k - 1], r.states[k].servers[a];
    if s.role == Candidate {
      assert HistoryStep(r, h, k - 1);
      CandidateStays(c, h[k - 1], e, a);
      GrantsStay(c, h[k - 1], e, a, s.currentTerm);
      forall v ensures CountedBefore(r, k, a, s.currentTerm, v) <==> CountedBefore(r, k - 1, a, s.currentTerm, v) {
        CountedNow(r, k, a, s.currentTerm, v);
      }
    }
  }

  lemma GrantsOnTimeout(r: Run, h: seq<Aux>, k: nat, a: nat)
    requires Histories(r, h) && 0 < k < |r.states| && a < |r.states[k].servers| && a < |r.states[k - 1].servers|
    requires r.events[k - 1] == Timeout(a)
    ensures GrantsOk(r, h, k, a)
  {
    var c, s := r.states[k - 1], r.states[k].servers[a];
    assert HistoryStep(r, h, k - 1);
    if s.role == Candidate {
      forall v ensures !CountedBefore(r, k, a, s.currentTerm, v) {
        if CountedBefore(r, k, a, s.currentTerm, v) {
          var j: nat :| j < k && CountedAt(r, j, a, s.currentTerm, v);
          CountedInTerm(r, h, j, k - 1, a, s.currentTerm, v);
        }
      }
    }
  }

  lemma GrantsOnAsk(r: Run, h: seq<Aux>, k: nat, a: nat)
    requires Histories(r, h) && 0 < k < |r.states| && a < |r.states[k].servers| && a < |r.states[k - 1].servers|
    requires r.events[k - 1] == Ask(a) && GrantsOk(r, h, k - 1, a)
    ensures GrantsOk(r, h, k, a)
  {
    var s := r.states[k].servers[a];
    assert HistoryStep(r, h, k - 1);
    if s.role == Candidate {
      forall v ensures !CountedBefore(r, k, a, s.currentTerm, v) {
        CountedNow(r, k, a, s.currentTerm, v);
      }
    }
  }

  lemma GrantsOnReturn(r: Run, h: seq<Aux>, k: nat, a: nat)
    requires Histories(r, h) && 0 < k < |r.states| && a < |r.states[k].servers| && a < |r.states[k - 1].servers|
    requires r.events[k - 1].ReturnVote? && r.events[k - 1].c == a && GrantsOk(r, h, k - 1, a)
    ensures GrantsOk(r, h, k, a)
  {
    var c, e, s := r.states[k - 1], r.events[k - 1], r.states[k].servers[a];
    assert HistoryStep(r, h, k - 1);
    assert ClusterBase(c, h[k - 1]);
    assert ServerOk(c.servers[a], c.votes, h[k - 1], a, |c.servers|);
    if s.role == Candidate {
      forall v ensures CountedBefore(r, k, a, s.currentTerm, v) <==>
                       CountedBefore(r, k - 1, a, s.currentTerm, v) || CountedAt(r, k - 1, a, s.currentTerm, v) {
        CountedNow(r, k, a, s.currentTerm, v);
      }
    }
  }

  lemma {:induction false} GrantsAlong(r: Run, h: seq<Aux>, k: nat, a: nat)
    requires Histories(r, h) && k < |r.states| && a < |r.states[k].servers|
    ensures GrantsOk(r, h, k, a)
    decreases k
  {
    if k > 0 {
      var e := r.events[k - 1];
      assert Enabled(r.states[k - 1], e) && r.states[k] == Apply(r.states[k - 1], e);
      GrantsAlong(r, h, k - 1, a);
      if !About(e, a) {
        GrantsOnOther(r, h, k, a);
      } else if e.Timeout? {
        GrantsOnTimeout(r, h, k, a);
      } else if e.Ask? {
        GrantsOnAsk(r, h, k, a);
      } else {
        GrantsOnReturn(r, h, k, a);
      }
    }
  }

  /**
   A candidate's counter is the number of servers whose granted replies it has counted in its term, itself included.
   */
  lemma VoteCounterIsExact(r: Run, k: nat, a: nat) returns (voters: set<nat>)
    requires IsRun(r) && k < |r.states| && a < |r.states[k].servers|
    requires r.states[k].servers[a].role == Candidate && !r.states[k].servers[a].asking
    ensures |voters| == r.states[k].servers[a].votes
    ensures var t := r.states[k].servers[a].currentTerm;
            forall v :: v in voters <==> v == a || CountedBefore(r, k, a, t, v)
    ensures forall v :: v in voters ==> HadVoted(r, k, v, r.states[k].servers[a].currentTerm, a)
  {
    var h := HistoriesExist(r);
    ServerAt(r, h, k, a);
    GrantsAlong(r, h, k, a);
    var t := r.states[k].servers[a].currentTerm;
    voters := h[k].grants[(a, t)];
    forall v | v in voters ensures HadVoted(r, k, v, t, a) {
      BallotsWitnessed(r, h, k, v, t);
    }
  }
}
