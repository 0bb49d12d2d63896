/**
 The replication protocol with the network and the leaders' bookkeeping stripped away: only terms,
 logs and the history of what was promised.  Six events act on it; the cluster of `RaftCluster` performs
 nothing else.  `Base` is kept by every event; `Safe` is kept as long as a follower never
 accepts, within one term, a request that ends before one it already accepted.
 */
module RaftProtocol {
  import opened RaftTypes

  /** A won election: the voters, the winner's log when it won and its log now. */
  datatype Election = Election(leader: nat, voters: set<nat>, first: Log, log: Log)

  /**
   `term[i]` and `log[i]` belong to server i.  The maps are history: elections by term, the candidate
   that (server, term) voted for, the log that (candidate, term) stood for election with, and
   the last index that (server, term) acknowledged.
   */
  datatype Protocol = Protocol(
    term: seq<nat>,
    log: seq<Log>,
    elections: map<nat, Election>,
    ballots: map<(nat, nat), nat>,
    bids: map<(nat, nat), Log>,
    acks: map<(nat, nat), nat>)

  // ---------- Base invariant: Election Safety and Log Matching ----------

  /** Every entry of `l` sits where the leader of its term put it, on top of the same prefix. */
  ghost predicate Canonical(l: Log, elections: map<nat, Election>) {
    && l != [] && l[0] == Placeholder
    && forall j {:trigger Rooted(l, j, elections)} :: 1 <= j < |l| ==> Rooted(l, j, elections)
  }

  ghost predicate Rooted(l: Log, j: nat, elections: map<nat, Election>)
    requires j < |l|
  {
    && l[j].term in elections
    && j < |elections[l[j].term].log|
    && l[..j + 1] == elections[l[j].term].log[..j + 1]
  }

  ghost predicate TermsBelow(l: Log, t: nat) {
    forall j :: 0 <= j < |l| ==> l[j].term < t
  }

  ghost predicate ElectionOk(p: Protocol, t: nat)
    requires t in p.elections
  {
    var e := p.elections[t];
    && 0 < t
    && e.leader < |p.term|
    && Quorum(e.voters, |p.term|)
    && (forall v :: v in e.voters ==> (v, t) in p.ballots && p.ballots[(v, t)] == e.leader)
    && (e.leader, t) in p.bids && p.bids[(e.leader, t)] == e.first
    && e.first <= e.log
    && Canonical(e.log, p.elections)
    && (forall k :: |e.first| <= k < |e.log| ==> e.log[k].term == t)
  }

  ghost predicate ServersOk(p: Protocol) {
    && |p.log| == |p.term|
    && forall i :: 0 <= i < |p.term| ==> Canonical(p.log[i], p.elections) && TermsBelow(p.log[i], p.term[i] + 1)
  }

  ghost predicate BallotsOk(p: Protocol) {
    forall i, t :: (i, t) in p.ballots ==>
      i < |p.term| && t <= p.term[i] && (p.ballots[(i, t)], t) in p.bids
  }

  ghost predicate BidsOk(p: Protocol) {
    forall c, t :: (c, t) in p.bids ==>
      && c < |p.term| && t <= p.term[c]
      && Canonical(p.bids[(c, t)], p.elections) && TermsBelow(p.bids[(c, t)], t)
  }

  ghost predicate AcksOk(p: Protocol) {
    forall i, t :: (i, t) in p.acks ==>
      && i < |p.term| && t <= p.term[i]
      && t in p.elections && p.acks[(i, t)] < |p.elections[t].log|
  }

  ghost predicate Base(p: Protocol) {
    && ServersOk(p)
    && BallotsOk(p)
    && BidsOk(p)
    && AcksOk(p)
    && forall t {:trigger ElectionOk(p, t)} :: t in p.elections ==> ElectionOk(p, t)
  }

  // ---------- Safety invariant: Leader Completeness ----------

  /** The entry at index k was created in term t. */
  ghost predicate Own(p: Protocol, t: nat, k: nat) {
    t in p.elections && |p.elections[t].first| <= k < |p.elections[t].log|
  }

  ghost predicate Acked(p: Protocol, i: nat, t: nat, k: nat) {
    (i, t) in p.acks && p.acks[(i, t)] >= k
  }

  /** A majority has left term t without acknowledging index k: it can never be committed in t. */
  ghost predicate Dead(p: Protocol, t: nat, k: nat) {
    exists q :: Quorum(q, |p.term|) && NeverAcked(p, q, t, k)
  }

  ghost predicate NeverAcked(p: Protocol, q: set<nat>, t: nat, k: nat) {
    forall i :: i in q ==> i < |p.term| && p.term[i] > t && !Acked(p, i, t, k)
  }

  /** `l` starts with the log of term t through index k. */
  ghost predicate Holds(p: Protocol, t: nat, k: nat, l: Log)
    requires Own(p, t, k)
  {
    k < |l| && p.elections[t].log[..k + 1] == l[..k + 1]
  }

  /** Either `l` holds entry k of term t, or that entry can never be committed in term t. */
  ghost predicate Kept(p: Protocol, t: nat, k: nat, l: Log)
    requires Own(p, t, k)
  {
    Holds(p, t, k, l) || Dead(p, t, k)
  }

  ghost predicate LeadersKeep(p: Protocol) {
    forall t: nat, u: nat, k: nat :: Own(p, t, k) && u in p.elections && t < u ==> Kept(p, t, k, p.elections[u].first)
  }

  ghost predicate AckersKeep(p: Protocol) {
    forall i: nat, t: nat, k: nat :: i < |p.log| && Own(p, t, k) && Acked(p, i, t, k) ==> Kept(p, t, k, p.log[i])
  }

  ghost predicate BidsKeep(p: Protocol) {
    forall i: nat, t: nat, u: nat, k: nat :: (i, u) in p.ballots && (p.ballots[(i, u)], u) in p.bids && t < u
          && Own(p, t, k) && Acked(p, i, t, k)
      ==> Kept(p, t, k, p.bids[(p.ballots[(i, u)], u)])
  }

  ghost predicate Safe(p: Protocol) {
    LeadersKeep(p) && AckersKeep(p) && BidsKeep(p)
  }

  // ---------- What time does to the invariant ----------

  /** `r` is a later state: terms grow, leaders' logs grow, and acknowledgements of past terms are closed. */
  ghost predicate Later(p: Protocol, r: Protocol) {
    && |r.term| == |p.term|
    && (forall i :: 0 <= i < |p.term| ==> p.term[i] <= r.term[i])
    && (forall t :: t in p.elections ==> t in r.elections && Grown(p.elections[t], r.elections[t]))
    && (forall i: nat, t: nat, k: nat :: i < |p.term| && t < p.term[i] && Acked(r, i, t, k) ==> Acked(p, i, t, k))
    && (forall i: nat, t: nat, k: nat :: Acked(p, i, t, k) ==> Acked(r, i, t, k))
  }

  ghost predicate Grown(e: Election, f: Election) {
    f.leader == e.leader && f.voters == e.voters && f.first == e.first && e.log <= f.log
  }

  lemma CanonicalLater(p: Protocol, r: Protocol, l: Log)
    requires Later(p, r) && Canonical(l, p.elections)
    ensures Canonical(l, r.elections)
  {
    forall j | 1 <= j < |l| ensures Rooted(l, j, r.elections) {
      assert Rooted(l, j, p.elections);
      var e, f := p.elections[l[j].term].log, r.elections[l[j].term].log;
      assert f[..j + 1] == f[..|e|][..j + 1];
    }
  }

  lemma DeadLater(p: Protocol, r: Protocol, t: nat, k: nat)
    requires Later(p, r) && Dead(p, t, k)
    ensures Dead(r, t, k)
  {
    var q :| Quorum(q, |p.term|) && NeverAcked(p, q, t, k);
    assert NeverAcked(r, q, t, k);
  }

  lemma KeptLater(p: Protocol, r: Protocol, t: nat, k: nat, l: Log)
    requires Later(p, r) && Own(p, t, k) && Kept(p, t, k, l)
    ensures Own(r, t, k) && Kept(r, t, k, l)
  {
    var e, f := p.elections[t].log, r.elections[t].log;
    assert f[..k + 1] == f[..|e|][..k + 1];
    if Dead(p, t, k) {
      DeadLater(p, r, t, k);
    }
  }

  lemma CanonicalPrefix(l: Log, n: nat, elections: map<nat, Election>)
    requires Canonical(l, elections) && 0 < n <= |l|
    ensures Canonical(l[..n], elections)
  {
    forall j | 1 <= j < n ensures Rooted(l[..n], j, elections) {
      assert Rooted(l, j, elections);
      assert l[..n][..j + 1] == l[..j + 1];
    }
  }

  // ---------- Events ----------

  /** Server i learns of term t. */
  function Advance(p: Protocol, i: nat, t: nat): (r: Protocol)
    requires i < |p.term|
  {
    p.(term := p.term[i := t])
  }

  /** Server i stands for election in the next term and votes for itself. */
  function Bid(p: Protocol, i: nat): (r: Protocol)
    requires i < |p.term| && |p.log| == |p.term|
  {
    var t := p.term[i] + 1;
    p.(term := p.term[i := t], bids := p.bids[(i, t) := p.log[i]], ballots := p.ballots[(i, t) := i])
  }

  /** Server v votes for c in v's current term. */
  function Vote(p: Protocol, v: nat, c: nat): (r: Protocol)
    requires v < |p.term|
  {
    p.(ballots := p.ballots[(v, p.term[v]) := c])
  }

  /** Candidate c wins its current term with the votes of `voters`. */
  function Elect(p: Protocol, c: nat, voters: set<nat>): (r: Protocol)
    requires c < |p.term| && |p.log| == |p.term| && p.log[c] != []
  {
    var l := p.log[c];
    p.(elections := p.elections[p.term[c] := Election(c, voters, l, l)],
       acks := p.acks[(c, p.term[c]) := |l| - 1])
  }

  /** Leader c appends an entry of its own term. */
  function Append(p: Protocol, c: nat, command: Command): (r: Protocol)
    requires c < |p.term| && |p.log| == |p.term| && p.term[c] in p.elections
  {
    var t := p.term[c];
    var l := p.log[c] + [LogEntry(t, Some(command))];
    p.(log := p.log[c := l], elections := p.elections[t := p.elections[t].(log := l)],
       acks := p.acks[(c, t) := |l| - 1])
  }

  /** Follower i replaces its log by the first `end + 1` entries of its leader's log and says so. */
  function Accept(p: Protocol, i: nat, end: nat): (r: Protocol)
    requires i < |p.term| && |p.log| == |p.term|
    requires p.term[i] in p.elections && end < |p.elections[p.term[i]].log|
  {
    var t := p.term[i];
    p.(log := p.log[i := p.elections[t].log[..end + 1]],
       acks := p.acks[(i, t) := if (i, t) in p.acks && p.acks[(i, t)] > end then p.acks[(i, t)] else end])
  }

  /** The vote restriction of section 5.4.1: `l` is at least as up to date as `mine`. */
  predicate UpToDate(l: Log, mine: Log)
    requires l != [] && mine != []
  {
    var theirs, own := l[|l| - 1].term, mine[|mine| - 1].term;
    if own != theirs then own < theirs else |mine| <= |l|
  }

  // ---------- Each event keeps Base ----------

  lemma AdvanceBase(p: Protocol, i: nat, t: nat)
    requires Base(p) && i < |p.term| && p.term[i] <= t
    ensures Later(p, Advance(p, i, t)) && Base(Advance(p, i, t))
  {
    var r := Advance(p, i, t);
    forall u | u in r.elections ensures ElectionOk(r, u) {
      assert ElectionOk(p, u);
    }
  }

  lemma BidBase(p: Protocol, i: nat)
    requires Base(p) && i < |p.term|
    ensures Later(p, Bid(p, i)) && Base(Bid(p, i))
  {
    var r := Bid(p, i);
    BidKeepsElections(p, i);
  }

  lemma BidKeepsElections(p: Protocol, i: nat)
    requires Base(p) && i < |p.term|
    ensures forall u {:trigger ElectionOk(Bid(p, i), u)} :: u in Bid(p, i).elections ==> ElectionOk(Bid(p, i), u)
  {
    var r := Bid(p, i);
    forall u | u in r.elections ensures ElectionOk(r, u) {
      assert ElectionOk(p, u);
    }
  }

  lemma VoteBase(p: Protocol, v: nat, c: nat)
    requires Base(p) && v < |p.term|
    requires (v, p.term[v]) !in p.ballots && (c, p.term[v]) in p.bids
    ensures Later(p, Vote(p, v, c)) && Base(Vote(p, v, c))
  {
    var r := Vote(p, v, c);
    forall u | u in r.elections ensures ElectionOk(r, u) {
      assert ElectionOk(p, u);
    }
  }

  /** Section 5.2: a second winner of a term would share a voter with the first. */
  lemma OneWinner(p: Protocol, t: nat, c: nat, voters: set<nat>)
    requires Base(p) && t in p.elections && Quorum(voters, |p.term|)
    requires forall v :: v in voters ==> (v, t) in p.ballots && p.ballots[(v, t)] == c
    ensures p.elections[t].leader == c
  {
    assert ElectionOk(p, t);
    var v := QuorumsMeet(voters, p.elections[t].voters, |p.term|);
  }

  ghost predicate CanWin(p: Protocol, c: nat, voters: set<nat>) {
    && c < |p.term| && |p.log| == |p.term| && p.log[c] != []
    && 0 < p.term[c] && p.term[c] !in p.elections
    && (c, p.term[c]) in p.bids && p.bids[(c, p.term[c])] == p.log[c]
    && Quorum(voters, |p.term|)
    && (forall v :: v in voters ==> (v, p.term[c]) in p.ballots && p.ballots[(v, p.term[c])] == c)
  }

  lemma ElectBase(p: Protocol, c: nat, voters: set<nat>)
    requires Base(p) && CanWin(p, c, voters)
    ensures Later(p, Elect(p, c, voters)) && Base(Elect(p, c, voters))
  {
    var r := Elect(p, c, voters);
    ElectLater(p, c, voters);
    ServersLater(p, r);
    BidsLater(p, r);
    assert ElectionOk(r, p.term[c]);
    forall u | u in r.elections ensures ElectionOk(r, u) {
      if u != p.term[c] {
        ElectionLater(p, r, u);
      }
    }
  }

  lemma ElectLater(p: Protocol, c: nat, voters: set<nat>)
    requires AcksOk(p) && CanWin(p, c, voters)
    ensures Later(p, Elect(p, c, voters))
  {
  }

  ghost predicate CanAppend(p: Protocol, c: nat) {
    && c < |p.term| && |p.log| == |p.term|
    && p.term[c] in p.elections && p.elections[p.term[c]].leader == c
    && p.log[c] == p.elections[p.term[c]].log
  }

  lemma AppendBase(p: Protocol, c: nat, command: Command)
    requires Base(p) && CanAppend(p, c)
    ensures Later(p, Append(p, c, command)) && Base(Append(p, c, command))
  {
    var r, t := Append(p, c, command), p.term[c];
    AppendLater(p, c, command);
    BidsLater(p, r);
    AppendServers(p, c, command);
    assert AcksOk(r) by {
      assert |p.log[c]| <= |r.log[c]|;
    }
    forall u | u in r.elections ensures ElectionOk(r, u) {
      if u != t {
        ElectionLater(p, r, u);
      } else {
        AppendElection(p, c, command);
      }
    }
  }

  lemma AppendServers(p: Protocol, c: nat, command: Command)
    requires Base(p) && CanAppend(p, c)
    ensures ServersOk(Append(p, c, command))
  {
    var r := Append(p, c, command);
    AppendLater(p, c, command);
    AppendCanonical(p, r, c);
    forall i | 0 <= i < |r.term| ensures Canonical(r.log[i], r.elections) && TermsBelow(r.log[i], r.term[i] + 1) {
      if i != c {
        CanonicalLater(p, r, p.log[i]);
      }
    }
  }

  lemma AppendElection(p: Protocol, c: nat, command: Command)
    requires Base(p) && CanAppend(p, c)
    ensures ElectionOk(Append(p, c, command), p.term[c])
  {
    var r := Append(p, c, command);
    assert ElectionOk(p, p.term[c]);
    AppendLater(p, c, command);
    AppendCanonical(p, r, c);
    assert p.log[c] <= r.log[c];
  }

  lemma AppendLater(p: Protocol, c: nat, command: Command)
    requires Base(p) && CanAppend(p, c)
    ensures Later(p, Append(p, c, command))
  {
    assert AcksOk(p);
    assert p.log[c] <= Append(p, c, command).log[c];
  }

  lemma AppendCanonical(p: Protocol, r: Protocol, c: nat)
    requires Base(p) && CanAppend(p, c) && Later(p, r) && |r.log| == |r.term|
    requires p.term[c] in r.elections && r.elections[p.term[c]].log == r.log[c]
    requires |r.log[c]| == |p.log[c]| + 1 && p.log[c] <= r.log[c] && r.log[c][|p.log[c]|].term == p.term[c]
    ensures Canonical(r.log[c], r.elections)
  {
    var l := r.log[c];
    CanonicalLater(p, r, p.log[c]);
    forall j | 1 <= j < |l| ensures Rooted(l, j, r.elections) {
      if j < |p.log[c]| {
        assert Rooted(p.log[c], j, r.elections);
        assert l[..j + 1] == p.log[c][..j + 1];
      }
    }
  }

  ghost predicate CanAccept(p: Protocol, i: nat, end: nat) {
    && i < |p.term| && |p.log| == |p.term|
    && p.term[i] in p.elections && end < |p.elections[p.term[i]].log|
    && |p.elections[p.term[i]].first| <= end + 1
  }

  lemma AcceptBase(p: Protocol, i: nat, end: nat)
    requires Base(p) && CanAccept(p, i, end)
    ensures Later(p, Accept(p, i, end)) && Base(Accept(p, i, end))
  {
    var r, t := Accept(p, i, end), p.term[i];
    AcceptLater(p, i, end);
    assert ServersOk(r) by {
      assert ElectionOk(p, t);
      CanonicalPrefix(p.elections[t].log, end + 1, p.elections);
      LeaderTerms(p, t);
    }
    forall u | u in r.elections ensures ElectionOk(r, u) {
      assert ElectionOk(p, u);
    }
  }

  lemma AcceptLater(p: Protocol, i: nat, end: nat)
    requires CanAccept(p, i, end)
    ensures Later(p, Accept(p, i, end))
  {
  }

  lemma ServersLater(p: Protocol, r: Protocol)
    requires ServersOk(p) && Later(p, r) && r.log == p.log
    ensures ServersOk(r)
  {
    forall i | 0 <= i < |r.term| ensures Canonical(r.log[i], r.elections) {
      CanonicalLater(p, r, p.log[i]);
    }
  }

  lemma BidsLater(p: Protocol, r: Protocol)
    requires BidsOk(p) && Later(p, r) && r.bids == p.bids
    ensures BidsOk(r)
  {
    forall c, t | (c, t) in r.bids ensures Canonical(r.bids[(c, t)], r.elections) {
      CanonicalLater(p, r, p.bids[(c, t)]);
    }
  }

  lemma ElectionLater(p: Protocol, r: Protocol, u: nat)
    requires u in p.elections && ElectionOk(p, u) && Later(p, r)
    requires r.elections[u].log == p.elections[u].log && r.ballots == p.ballots && r.bids == p.bids
    ensures ElectionOk(r, u)
  {
    CanonicalLater(p, r, p.elections[u].log);
  }

  lemma LeaderTerms(p: Protocol, t: nat)
    requires Base(p) && t in p.elections
    ensures TermsBelow(p.elections[t].log, t + 1)
  {
    assert ElectionOk(p, t);
    assert TermsBelow(p.elections[t].first, t);
  }

  // ---------- Each event keeps Safe ----------

  lemma LeadersSame(p: Protocol, r: Protocol)
    requires Base(p) && LeadersKeep(p) && Later(p, r) && r.elections == p.elections
    ensures LeadersKeep(r)
  {
    forall t: nat, u: nat, k: nat | Own(r, t, k) && u in r.elections && t < u
      ensures Kept(r, t, k, r.elections[u].first)
    {
      assert Own(p, t, k);
      KeptLater(p, r, t, k, p.elections[u].first);
    }
  }

  lemma AckersSame(p: Protocol, r: Protocol)
    requires Base(p) && AckersKeep(p) && Later(p, r)
    requires r.elections == p.elections && r.acks == p.acks && r.log == p.log
    ensures AckersKeep(r)
  {
    forall i: nat, t: nat, k: nat | i < |r.log| && Own(r, t, k) && Acked(r, i, t, k)
      ensures Kept(r, t, k, r.log[i])
    {
      assert Own(p, t, k) && Acked(p, i, t, k);
      KeptLater(p, r, t, k, p.log[i]);
    }
  }

  /** What a vote cast in the past requires of its candidate stays true. */
  lemma BidKept(p: Protocol, r: Protocol, i: nat, t: nat, u: nat, k: nat)
    requires Base(p) && BidsKeep(p) && Later(p, r)
    requires (i, u) in p.ballots && t < u && Own(p, t, k) && Acked(p, i, t, k)
    ensures Own(r, t, k) && Kept(r, t, k, p.bids[(p.ballots[(i, u)], u)])
  {
    KeptLater(p, r, t, k, p.bids[(p.ballots[(i, u)], u)]);
  }

  lemma AdvanceSafe(p: Protocol, i: nat, t: nat)
    requires Base(p) && Safe(p) && i < |p.term| && p.term[i] <= t
    ensures Safe(Advance(p, i, t))
  {
    var r := Advance(p, i, t);
    AdvanceBase(p, i, t);
    LeadersSame(p, r);
    AckersSame(p, r);
    forall i: nat, t: nat, u: nat, k: nat | (i, u) in r.ballots && (r.ballots[(i, u)], u) in r.bids && t < u
        && Own(r, t, k) && Acked(r, i, t, k)
      ensures Kept(r, t, k, r.bids[(r.ballots[(i, u)], u)])
    {
      assert Own(p, t, k) && Acked(p, i, t, k);
      BidKept(p, r, i, t, u, k);
    }
  }

  lemma BidSafe(p: Protocol, i: nat)
    requires Base(p) && Safe(p) && i < |p.term|
    ensures Safe(Bid(p, i))
  {
    var r := Bid(p, i);
    BidBase(p, i);
    LeadersSame(p, r);
    AckersSame(p, r);
    forall j: nat, t: nat, u: nat, k: nat | (j, u) in r.ballots && (r.ballots[(j, u)], u) in r.bids && t < u
        && Own(r, t, k) && Acked(r, j, t, k)
      ensures Kept(r, t, k, r.bids[(r.ballots[(j, u)], u)])
    {
      assert Own(p, t, k) && Acked(p, j, t, k);
      if (j, u) == (i, p.term[i] + 1) {
        KeptLater(p, r, t, k, p.log[i]);
      } else {
        BidKept(p, r, j, t, u, k);
      }
    }
  }

  /** Section 5.4.1: a candidate that is as up to date as v holds whatever v acknowledged and may be committed. */
  lemma VotedForHolder(p: Protocol, v: nat, c: nat, t: nat, k: nat)
    requires Base(p) && Safe(p) && v < |p.term| && (c, p.term[v]) in p.bids
    requires UpToDate(p.bids[(c, p.term[v])], p.log[v])
    requires t < p.term[v] && Own(p, t, k) && Acked(p, v, t, k)
    ensures Kept(p, t, k, p.bids[(c, p.term[v])])
  {
    assert Kept(p, t, k, p.log[v]);
    if Holds(p, t, k, p.log[v]) {
      UpToDateHolds(p, t, k, p.log[v], p.bids[(c, p.term[v])]);
    }
  }

  lemma UpToDateHolds(p: Protocol, t: nat, k: nat, mine: Log, l: Log)
    requires Base(p) && LeadersKeep(p) && Own(p, t, k)
    requires Canonical(mine, p.elections) && Canonical(l, p.elections)
    requires UpToDate(l, mine) && Holds(p, t, k, mine)
    ensures Kept(p, t, k, l)
  {
    HolderTerm(p, t, k, mine);
    if l[|l| - 1].term == t {
      assert Rooted(l, |l| - 1, p.elections);
      assert p.elections[t].log[..|l|][..k + 1] == p.elections[t].log[..k + 1];
    } else {
      LastLeaderHolds(p, l, t, k);
    }
  }

  lemma HolderTerm(p: Protocol, t: nat, k: nat, l: Log)
    requires Base(p) && Own(p, t, k) && Canonical(l, p.elections) && Holds(p, t, k, l)
    ensures 0 < t <= l[|l| - 1].term
  {
    assert ElectionOk(p, t);
    assert l[k] == l[..k + 1][k] == p.elections[t].log[k];
    TermsSorted(p, l, k, |l| - 1);
  }

  /** A log that ends with an entry of a later term contains what that term's leader started from. */
  lemma LastLeaderHolds(p: Protocol, l: Log, t: nat, k: nat)
    requires Base(p) && LeadersKeep(p) && Own(p, t, k)
    requires |l| > 1 && Canonical(l, p.elections) && l[|l| - 1].term > t
    ensures Kept(p, t, k, l)
  {
    var u := l[|l| - 1].term;
    assert Rooted(l, |l| - 1, p.elections);
    assert ElectionOk(p, u);
    var e := p.elections[u];
    assert l == e.log[..|l|];
    assert TermsBelow(e.first, u);
    assert e.first == e.log[..|e.first|];
    assert Kept(p, t, k, e.first);
    if Holds(p, t, k, e.first) {
      assert l[..k + 1] == e.first[..k + 1];
    }
  }

  /** Terms never decrease along a log. */
  lemma TermsSorted(p: Protocol, l: Log, i: nat, j: nat)
    requires Base(p) && Canonical(l, p.elections) && i <= j < |l|
    ensures l[i].term <= l[j].term
  {
    if 0 < j {
      assert Rooted(l, j, p.elections);
      LeaderTerms(p, l[j].term);
      assert l[i] == l[..j + 1][i] == p.elections[l[j].term].log[i];
    }
  }

  lemma VoteSafe(p: Protocol, v: nat, c: nat)
    requires Base(p) && Safe(p) && v < |p.term|
    requires (v, p.term[v]) !in p.ballots && (c, p.term[v]) in p.bids
    requires UpToDate(p.bids[(c, p.term[v])], p.log[v])
    ensures Safe(Vote(p, v, c))
  {
    var r := Vote(p, v, c);
    VoteBase(p, v, c);
    LeadersSame(p, r);
    AckersSame(p, r);
    forall i: nat, t: nat, u: nat, k: nat | (i, u) in r.ballots && (r.ballots[(i, u)], u) in r.bids && t < u
        && Own(r, t, k) && Acked(r, i, t, k)
      ensures Kept(r, t, k, r.bids[(r.ballots[(i, u)], u)])
    {
      assert Own(p, t, k) && Acked(p, i, t, k);
      if (i, u) == (v, p.term[v]) {
        VotedForHolder(p, v, c, t, k);
        KeptLater(p, r, t, k, p.bids[(c, p.term[v])]);
      } else {
        BidKept(p, r, i, t, u, k);
      }
    }
  }

  /** Section 5.4.3: a new leader holds every entry of an earlier term that may be committed. */
  lemma WinnerKeeps(p: Protocol, c: nat, voters: set<nat>, t: nat, k: nat)
    requires Base(p) && Safe(p) && CanWin(p, c, voters)
    requires t < p.term[c] && Own(p, t, k)
    ensures Kept(p, t, k, p.log[c])
  {
    if v :| v in voters && Acked(p, v, t, k) {
      assert (v, p.term[c]) in p.ballots;
    } else {
      assert NeverAcked(p, voters, t, k);
    }
  }

  lemma ElectSafe(p: Protocol, c: nat, voters: set<nat>)
    requires Base(p) && Safe(p) && CanWin(p, c, voters)
    ensures Safe(Elect(p, c, voters))
  {
    var r := Elect(p, c, voters);
    ElectBase(p, c, voters);
    ElectLeadersKeep(p, c, voters);
    forall i: nat, t: nat, k: nat | i < |r.log| && Own(r, t, k) && Acked(r, i, t, k)
      ensures Kept(r, t, k, r.log[i])
    {
      assert Own(p, t, k) && Acked(p, i, t, k);
      KeptLater(p, r, t, k, p.log[i]);
    }
    forall i: nat, t: nat, u: nat, k: nat | (i, u) in r.ballots && (r.ballots[(i, u)], u) in r.bids && t < u
        && Own(r, t, k) && Acked(r, i, t, k)
      ensures Kept(r, t, k, r.bids[(r.ballots[(i, u)], u)])
    {
      assert Own(p, t, k) && Acked(p, i, t, k);
      BidKept(p, r, i, t, u, k);
    }
  }

  lemma ElectLeadersKeep(p: Protocol, c: nat, voters: set<nat>)
    requires Base(p) && Safe(p) && CanWin(p, c, voters)
    ensures LeadersKeep(Elect(p, c, voters))
  {
    var r := Elect(p, c, voters);
    ElectBase(p, c, voters);
    forall t: nat, u: nat, k: nat | Own(r, t, k) && u in r.elections && t < u
      ensures Kept(r, t, k, r.elections[u].first)
    {
      assert Own(p, t, k);
      if u == p.term[c] {
        WinnerKeeps(p, c, voters, t, k);
      }
      KeptLater(p, r, t, k, r.elections[u].first);
    }
  }

  lemma AppendSafe(p: Protocol, c: nat, command: Command)
    requires Base(p) && Safe(p) && CanAppend(p, c)
    ensures Safe(Append(p, c, command))
  {
    var r := Append(p, c, command);
    AppendBase(p, c, command);
    AppendLeadersKeep(p, c, command);
    AppendAckersKeep(p, c, command);
    forall i: nat, t: nat, u: nat, k: nat | (i, u) in r.ballots && (r.ballots[(i, u)], u) in r.bids && t < u
        && Own(r, t, k) && Acked(r, i, t, k)
      ensures Kept(r, t, k, r.bids[(r.ballots[(i, u)], u)])
    {
      assert Own(p, t, k) && Acked(p, i, t, k);
      BidKept(p, r, i, t, u, k);
    }
  }

  lemma AppendLeadersKeep(p: Protocol, c: nat, command: Command)
    requires Base(p) && Safe(p) && CanAppend(p, c)
    ensures LeadersKeep(Append(p, c, command))
  {
    var r := Append(p, c, command);
    AppendBase(p, c, command);
    forall t: nat, u: nat, k: nat | Own(r, t, k) && u in r.elections && t < u
      ensures Kept(r, t, k, r.elections[u].first)
    {
      if Own(p, t, k) {
        KeptLater(p, r, t, k, p.elections[u].first);
      } else {
        // the new entry: the voters of term u have left term t for good
        assert ElectionOk(p, u);
        assert NeverAcked(r, p.elections[u].voters, t, k);
      }
    }
  }

  lemma AppendAckersKeep(p: Protocol, c: nat, command: Command)
    requires Base(p) && Safe(p) && CanAppend(p, c)
    ensures AckersKeep(Append(p, c, command))
  {
    var r := Append(p, c, command);
    AppendBase(p, c, command);
    forall i: nat, t: nat, k: nat | i < |r.log| && Own(r, t, k) && Acked(r, i, t, k)
      ensures Kept(r, t, k, r.log[i])
    {
      if (i, t) != (c, p.term[c]) {
        assert Own(p, t, k) && Acked(p, i, t, k);
        assert r.log[i][..|p.log[i]|] == p.log[i];
        KeptLonger(p, t, k, p.log[i], r.log[i]);
        KeptLater(p, r, t, k, r.log[i]);
      }
    }
  }

  lemma KeptLonger(p: Protocol, t: nat, k: nat, l: Log, m: Log)
    requires Own(p, t, k) && Kept(p, t, k, l) && l <= m
    ensures Kept(p, t, k, m)
  {
    if Holds(p, t, k, l) {
      assert m[..|l|][..k + 1] == m[..k + 1];
    }
  }

  lemma AcceptSafe(p: Protocol, i: nat, end: nat)
    requires Base(p) && Safe(p) && CanAccept(p, i, end)
    requires (i, p.term[i]) in p.acks ==> p.acks[(i, p.term[i])] <= end
    ensures Safe(Accept(p, i, end))
  {
    var r := Accept(p, i, end);
    AcceptBase(p, i, end);
    LeadersSame(p, r);
    AcceptAckersKeep(p, i, end);
    forall j: nat, t: nat, u: nat, k: nat | (j, u) in r.ballots && (r.ballots[(j, u)], u) in r.bids && t < u
        && Own(r, t, k) && Acked(r, j, t, k)
      ensures Kept(r, t, k, r.bids[(r.ballots[(j, u)], u)])
    {
      assert Own(p, t, k) && Acked(p, j, t, k);
      BidKept(p, r, j, t, u, k);
    }
  }

  lemma AcceptAckersKeep(p: Protocol, i: nat, end: nat)
    requires Base(p) && Safe(p) && CanAccept(p, i, end)
    requires (i, p.term[i]) in p.acks ==> p.acks[(i, p.term[i])] <= end
    ensures AckersKeep(Accept(p, i, end))
  {
    var r, e := Accept(p, i, end), p.elections[p.term[i]];
    AcceptBase(p, i, end);
    forall j: nat, t: nat, k: nat | j < |r.log| && Own(r, t, k) && Acked(r, j, t, k)
      ensures Kept(r, t, k, r.log[j])
    {
      assert Own(p, t, k);
      if (j, t) == (i, p.term[i]) {
        assert k <= end && e.log[..end + 1][..k + 1] == e.log[..k + 1];
      } else {
        assert Acked(p, j, t, k);
        if j == i {
          // an earlier term: the new leader's starting log keeps entry k
          assert ElectionOk(p, p.term[i]);
          assert e.first <= r.log[i];
          KeptLonger(p, t, k, e.first, r.log[i]);
        }
        KeptLater(p, r, t, k, r.log[j]);
      }
    }
  }

  // ---------- Committed entries ----------

  /** Entry k of term t is on a majority, acknowledged in term t itself (section 5.4.2). */
  ghost predicate Chosen(p: Protocol, t: nat, k: nat) {
    Own(p, t, k) && exists q :: Quorum(q, |p.term|) && AllAcked(p, q, t, k)
  }

  ghost predicate AllAcked(p: Protocol, q: set<nat>, t: nat, k: nat) {
    forall i :: i in q ==> Acked(p, i, t, k)
  }

  /** `l` lies below an entry chosen in term t. */
  ghost predicate CommittedIn(p: Protocol, t: nat, k: nat, l: Log) {
    Chosen(p, t, k) && |l| <= k + 1 && l <= p.elections[t].log
  }

  /** `l` is final: only the placeholder, or below a chosen entry of some term up to `t`. */
  ghost predicate Committed(p: Protocol, t: nat, l: Log) {
    l == [Placeholder] || exists u: nat, k: nat :: u <= t && CommittedIn(p, u, k, l)
  }

  lemma ChosenLives(p: Protocol, t: nat, k: nat)
    requires Chosen(p, t, k)
    ensures !Dead(p, t, k)
  {
    if Dead(p, t, k) {
      var a :| Quorum(a, |p.term|) && AllAcked(p, a, t, k);
      var b :| Quorum(b, |p.term|) && NeverAcked(p, b, t, k);
      var i := QuorumsMeet(a, b, |p.term|);
    }
  }

  lemma ChosenHeld(p: Protocol, t: nat, k: nat, u: nat)
    requires LeadersKeep(p) && Chosen(p, t, k) && u in p.elections && t < u
    ensures Holds(p, t, k, p.elections[u].first)
  {
    ChosenLives(p, t, k);
    assert Kept(p, t, k, p.elections[u].first);
  }

  /** Leader Completeness: a leader of a later term starts with every committed entry. */
  lemma LeaderCompleteness(p: Protocol, t: nat, l: Log, u: nat)
    requires Base(p) && Safe(p) && Committed(p, t, l)
    requires u in p.elections && t < u
    ensures l <= p.elections[u].first
  {
    assert ElectionOk(p, u);
    if l != [Placeholder] {
      var s: nat, k: nat :| s <= t && CommittedIn(p, s, k, l);
      ChosenHeld(p, s, k, u);
      assert l == p.elections[s].log[..k + 1][..|l|];
    }
  }

  /** State Machine Safety: of two committed logs, one extends the other. */
  lemma CommittedAgree(p: Protocol, t: nat, l: Log, u: nat, m: Log)
    requires Base(p) && Safe(p) && Committed(p, t, l) && Committed(p, u, m)
    ensures l <= m || m <= l
  {
    if l == [Placeholder] {
      CommittedStart(p, u, m);
    } else if m == [Placeholder] {
      CommittedStart(p, t, l);
    } else {
      var s: nat, j: nat :| s <= t && CommittedIn(p, s, j, l);
      var v: nat, k: nat :| v <= u && CommittedIn(p, v, k, m);
      if s == v {
        PrefixesComparable(l, m, p.elections[s].log);
      } else if s < v {
        assert Committed(p, s, l);
        LeaderCompleteness(p, s, l, v);
        assert ElectionOk(p, v);
        PrefixesComparable(l, m, p.elections[v].log);
      } else {
        assert Committed(p, v, m);
        LeaderCompleteness(p, v, m, s);
        assert ElectionOk(p, s);
        PrefixesComparable(l, m, p.elections[s].log);
      }
    }
  }

  lemma PrefixesComparable(l: Log, m: Log, whole: Log)
    requires l <= whole && m <= whole
    ensures l <= m || m <= l
  {
    if |l| <= |m| {
      assert l == m[..|l|];
    } else {
      assert m == l[..|m|];
    }
  }

  lemma CommittedStart(p: Protocol, t: nat, l: Log)
    requires Base(p) && Committed(p, t, l)
    ensures [Placeholder] <= l || l <= [Placeholder]
  {
    if l != [Placeholder] {
      var s: nat, k: nat :| s <= t && CommittedIn(p, s, k, l);
      assert ElectionOk(p, s);
    }
  }

  lemma CommittedLater(p: Protocol, r: Protocol, t: nat, u: nat, l: Log)
    requires Later(p, r) && Committed(p, t, l) && t <= u
    ensures Committed(r, u, l)
  {
    if l != [Placeholder] {
      var s: nat, k: nat :| s <= t && CommittedIn(p, s, k, l);
      var q :| Quorum(q, |p.term|) && AllAcked(p, q, s, k);
      assert AllAcked(r, q, s, k);
      assert CommittedIn(r, s, k, l);
    }
  }
}
