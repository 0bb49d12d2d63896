/**
 A cluster of Raft servers on a network that loses, delays and reorders calls but does not duplicate them.
 A call that is never delivered, or whose reply is never returned, is a lost one.
 */
module RaftCluster {
  import opened RaftTypes
  import opened RaftServer

  datatype VoteCall = VoteAsked(args: VoteArgs) | VoteReplied(reply: VoteReply)

  datatype AppendCall =
    | AppendSent(from: nat, to: nat, args: AppendArgs)
    | AppendReplied(from: nat, to: nat, args: AppendArgs, reply: AppendReply)

  /**
   Vote calls in flight are named by (candidate, term, peer); AppendEntries calls are numbered in the
   order in which they were sent, and `sent` is above every number used.
   */
  datatype Cluster = Cluster(
    servers: seq<Server>,
    votes: map<(nat, nat, nat), VoteCall>,
    appends: map<nat, AppendCall>,
    sent: nat)

  datatype Event =
    | Timeout(i: nat)                                // the election timer of i fires
    | Ask(i: nat)                                    // the election goroutine of i runs
    | DeliverVote(c: nat, t: nat, peer: nat)         // a RequestVote reaches the peer
    | ReturnVote(c: nat, t: nat, peer: nat)          // its reply reaches the candidate
    | Submit(i: nat, command: Command)               // a client calls Start on i
    | Replicate(i: nat)                              // leader i starts a round of replication
    | DeliverAppend(id: nat)                         // an AppendEntries reaches the peer
    | ReturnAppend(id: nat)                          // its reply reaches the leader
    | Crash(i: nat)                                  // i stops and restarts from its disk
    | CrashInVote(c: nat, t: nat, peer: nat)         // the peer crashes between the two saves of RequestVote
    | CrashInAppend(id: nat)                         // the peer crashes between the two saves of AppendEntries

  predicate Init(c: Cluster) {
    && 0 < |c.servers|
    && (forall i :: 0 <= i < |c.servers| ==> c.servers[i] == Fresh(i, |c.servers|, None))
    && c.votes == map[] && c.appends == map[]
  }

  predicate Enabled(c: Cluster, e: Event) {
    match e
    case Timeout(i) => i < |c.servers|
    case Ask(i) => i < |c.servers| && c.servers[i].asking && c.servers[i].log != []
    case DeliverVote(x, t, p) => VotePending(c, x, t, p)
    case ReturnVote(x, t, p) => VoteAnswerable(c, x, t, p)
    case Submit(i, _) => i < |c.servers|
    case Replicate(i) => i < |c.servers| && c.servers[i].role == Leader
    case DeliverAppend(id) => AppendPending(c, id)
    case ReturnAppend(id) => AppendAnswerable(c, id)
    case Crash(i) => i < |c.servers|
    case CrashInVote(x, t, p) => VotePending(c, x, t, p)
    case CrashInAppend(id) => AppendPending(c, id)
  }

  predicate VotePending(c: Cluster, x: nat, t: nat, p: nat) {
    p < |c.servers| && (x, t, p) in c.votes && c.votes[(x, t, p)].VoteAsked? && c.servers[p].log != []
  }

  predicate VoteAnswerable(c: Cluster, x: nat, t: nat, p: nat) {
    x < |c.servers| && (x, t, p) in c.votes && c.votes[(x, t, p)].VoteReplied?
  }

  predicate AppendAnswerable(c: Cluster, id: nat) {
    && id in c.appends && c.appends[id].AppendReplied?
    && var a := c.appends[id];
       && a.from < |c.servers|
       && a.to < |c.servers[a.from].nextIndex| == |c.servers[a.from].matchIndex|
  }

  predicate AppendPending(c: Cluster, id: nat) {
    id in c.appends && c.appends[id].AppendSent? && c.appends[id].to < |c.servers|
  }

  function Requests(s: Server, i: nat, n: nat): map<(nat, nat, nat), VoteCall>
    requires s.log != []
  {
    map p: nat | p < n && p != i :: (i, s.currentTerm, p) := VoteAsked(VoteRequest(s))
  }

  /** Call number `id` of a round numbered from `base`, if the round has it. */
  function CallNumber(s: Server, i: nat, n: nat, base: nat, id: nat): Option<AppendCall> {
    if base <= id < base + n && id - base != i && ReplicationRequest(s, id - base).Some? then
      Some(AppendSent(i, id - base, ReplicationRequest(s, id - base).value))
    else None
  }

  function Round(s: Server, i: nat, n: nat, base: nat): map<nat, AppendCall> {
    map id: nat | base <= id < base + n && CallNumber(s, i, n, base, id).Some? :: CallNumber(s, i, n, base, id).value
  }

  function OnTimeout(c: Cluster, i: nat): Cluster
    requires i < |c.servers|
  {
    c.(servers := c.servers[i := ElectionTimeout(c.servers[i])])
  }

  function OnAsk(c: Cluster, i: nat): Cluster
    requires i < |c.servers| && c.servers[i].log != []
  {
    var s := c.servers[i];
    c.(servers := c.servers[i := StartElection(s)],
       votes := if s.role == Candidate then c.votes + Requests(s, i, |c.servers|) else c.votes)
  }

  function OnDeliverVote(c: Cluster, x: nat, t: nat, p: nat): Cluster
    requires VotePending(c, x, t, p)
  {
    var (s, reply) := RequestVote(c.servers[p], c.votes[(x, t, p)].args);
    c.(servers := c.servers[p := s], votes := c.votes[(x, t, p) := VoteReplied(reply)])
  }

  function OnReturnVote(c: Cluster, x: nat, t: nat, p: nat): Cluster
    requires VoteAnswerable(c, x, t, p)
  {
    c.(servers := c.servers[x := VoteAnswered(c.servers[x], t, c.votes[(x, t, p)].reply)],
       votes := c.votes - {(x, t, p)})
  }

  function OnSubmit(c: Cluster, i: nat, command: Command): Cluster
    requires i < |c.servers|
  {
    c.(servers := c.servers[i := Start(c.servers[i], command)])
  }

  function OnReplicate(c: Cluster, i: nat): Cluster
    requires i < |c.servers|
  {
    var s := StartReplication(c.servers[i]);
    c.(servers := c.servers[i := s],
       appends := c.appends + Round(s, i, |c.servers|, c.sent),
       sent := c.sent + |c.servers|)
  }

  function OnDeliverAppend(c: Cluster, id: nat): Cluster
    requires AppendPending(c, id)
  {
    var a := c.appends[id];
    var (s, reply) := AppendEntries(c.servers[a.to], a.args);
    c.(servers := c.servers[a.to := s], appends := c.appends[id := AppendReplied(a.from, a.to, a.args, reply)])
  }

  function OnReturnAppend(c: Cluster, id: nat): Cluster
    requires AppendAnswerable(c, id)
  {
    var a := c.appends[id];
    c.(servers := c.servers[a.from := AppendAnswered(c.servers[a.from], a.to, a.args, a.reply)],
       appends := c.appends - {id})
  }

  function OnCrash(c: Cluster, i: nat): Cluster
    requires i < |c.servers|
  {
    c.(servers := c.servers[i := Restart(c.servers[i])])
  }

  function OnCrashInVote(c: Cluster, x: nat, t: nat, p: nat): Cluster
    requires VotePending(c, x, t, p)
  {
    c.(servers := c.servers[p := Restart(BecomeFollower(c.servers[p], c.votes[(x, t, p)].args.term))],
       votes := c.votes - {(x, t, p)})
  }

  function OnCrashInAppend(c: Cluster, id: nat): Cluster
    requires AppendPending(c, id)
  {
    var a := c.appends[id];
    c.(servers := c.servers[a.to := Restart(BecomeFollower(c.servers[a.to], a.args.term))],
       appends := c.appends - {id})
  }

  function Apply(c: Cluster, e: Event): Cluster
    requires Enabled(c, e)
  {
    match e
    case Timeout(i) => OnTimeout(c, i)
    case Ask(i) => OnAsk(c, i)
    case DeliverVote(x, t, p) => OnDeliverVote(c, x, t, p)
    case ReturnVote(x, t, p) => OnReturnVote(c, x, t, p)
    case Submit(i, command) => OnSubmit(c, i, command)
    case Replicate(i) => OnReplicate(c, i)
    case DeliverAppend(id) => OnDeliverAppend(c, id)
    case ReturnAppend(id) => OnReturnAppend(c, id)
    case Crash(i) => OnCrash(c, i)
    case CrashInVote(x, t, p) => OnCrashInVote(c, x, t, p)
    case CrashInAppend(id) => OnCrashInAppend(c, id)
  }

  /** A run: states[k+1] follows from states[k] by events[k]. */
  datatype Run = Run(states: seq<Cluster>, events: seq<Event>)

  ghost predicate IsRun(r: Run) {
    && |r.states| == |r.events| + 1
    && Init(r.states[0])
    && forall k :: 0 <= k < |r.events| ==>
          Enabled(r.states[k], r.events[k]) && r.states[k + 1] == Apply(r.states[k], r.events[k])
  }

  ghost predicate EndsIn(r: Run, c: Cluster) {
    IsRun(r) && r.states[|r.states| - 1] == c
  }
}
