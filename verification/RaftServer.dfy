/**
 One Raft server as a value, and what each of its handlers does to it.  A handler holds the server's
 lock throughout, so each is one atomic step.  Compaction is off: index i of `log` is log index i.
 */
module RaftServer {
  import opened RaftTypes
  import opened Sorting

  datatype Role = Follower | Candidate | Leader

  datatype Persisted = Persisted(currentTerm: nat, votedFor: int, log: Log)

  /**
   `disk` is what was saved last.  `asking` says that the goroutine which runs the election of
   `currentTerm` has been spawned and has not run; `votes` is that goroutine's counter.
   */
  datatype Server = Server(
    me: nat,
    role: Role,
    currentTerm: nat,
    votedFor: int,
    log: Log,
    nextIndex: seq<int>,
    matchIndex: seq<int>,
    commitIndex: int,
    disk: Option<Persisted>,
    asking: bool,
    votes: nat)

  datatype VoteArgs = VoteArgs(term: nat, candidateId: nat, lastLogIndex: int, lastLogTerm: nat)

  datatype VoteReply = VoteReply(term: nat, granted: bool)

  datatype AppendArgs = AppendArgs(
    term: nat, leaderId: nat, prevLogIndex: int, prevLogTerm: nat, entries: seq<LogEntry>, leaderCommit: int)

  datatype AppendReply = AppendReply(term: nat, success: bool, conflictIndex: int, conflictTerm: nat)

  /** A server that has never run before. */
  function Fresh(me: nat, n: nat, disk: Option<Persisted>): Server {
    Server(me, Follower, 1, NO_VOTE, [Placeholder], seq(n, _ => 0), seq(n, _ => 0), 0, disk, false, 0)
  }

  /** Crash and restart: everything is lost except the disk. */
  function Restart(s: Server): Server {
    var f := Fresh(s.me, |s.nextIndex|, s.disk);
    match s.disk
    case None => f
    case Some(d) => f.(currentTerm := d.currentTerm, votedFor := d.votedFor, log := d.log)
  }

  function Persist(s: Server): Server {
    s.(disk := Some(Persisted(s.currentTerm, s.votedFor, s.log)))
  }

  predicate ContextLost(s: Server, role: Role, term: nat) {
    !(s.currentTerm == term && s.role == role)
  }

  // ---------- Roles ----------

  function BecomeFollower(s: Server, term: nat): Server {
    if term < s.currentTerm then s
    else
      var r := s.(role := Follower, currentTerm := term,
                  votedFor := if term > s.currentTerm then NO_VOTE else s.votedFor);
      if s.currentTerm != term then Persist(r) else r
  }

  function BecomeCandidate(s: Server): Server {
    if s.role == Leader then s
    else Persist(s.(currentTerm := s.currentTerm + 1, role := Candidate, votedFor := s.me))
  }

  function BecomeLeader(s: Server): Server {
    if s.role != Candidate then s
    else s.(role := Leader,
            nextIndex := seq(|s.nextIndex|, _ => |s.log|),
            matchIndex := seq(|s.matchIndex|, _ => 0))
  }

  // ---------- Election ----------

  /** The election timer fires. */
  function ElectionTimeout(s: Server): Server {
    if s.role != Leader then BecomeCandidate(s).(asking := true, votes := 0) else s
  }

  /** The request that a candidate sends to each of its peers. */
  function VoteRequest(s: Server): VoteArgs
    requires s.log != []
  {
    VoteArgs(s.currentTerm, s.me, |s.log| - 1, s.log[|s.log| - 1].term)
  }

  /** The election goroutine runs: it counts the server's own vote and asks every peer. */
  function StartElection(s: Server): Server {
    if s.role == Candidate then s.(asking := false, votes := 1) else s.(asking := false)
  }

  predicate MoreUpToDate(log: Log, candidateIndex: int, candidateTerm: nat)
    requires log != []
  {
    var last := |log| - 1;
    if log[last].term != candidateTerm then log[last].term > candidateTerm else last > candidateIndex
  }

  function RequestVote(s: Server, args: VoteArgs): (r: (Server, VoteReply))
    requires s.log != []
  {
    var no := VoteReply(s.currentTerm, false);
    if args.term < s.currentTerm then (s, no)
    else
      var f := if args.term > s.currentTerm then BecomeFollower(s, args.term) else s;
      if f.votedFor != NO_VOTE then (f, no)
      else if MoreUpToDate(f.log, args.lastLogIndex, args.lastLogTerm) then (f, no)
      else (Persist(f.(votedFor := args.candidateId)), no.(granted := true))
  }

  function VoteAnswered(s: Server, term: nat, reply: VoteReply): Server {
    if reply.term > s.currentTerm then BecomeFollower(s, reply.term)
    else if ContextLost(s, Candidate, term) then s
    else if !reply.granted then s
    else
      var r := s.(votes := s.votes + 1);
      if r.votes > |s.nextIndex| / 2 then BecomeLeader(r) else r
  }

  // ---------- Replication ----------

  /** A client's command: appended if this server is leader. */
  function Start(s: Server, command: Command): Server {
    if s.role != Leader then s
    else Persist(s.(log := s.log + [LogEntry(s.currentTerm, Some(command))]))
  }

  /** The first index of `term` at or after i; 0 if an entry of a higher term or the end comes first. */
  function FirstFrom(log: Log, term: nat, i: nat): nat
    requires i <= |log|
    decreases |log| - i
  {
    if i == |log| || log[i].term > term then INVALID_INDEX
    else if log[i].term == term then i
    else FirstFrom(log, term, i + 1)
  }

  function FirstFor(log: Log, term: nat): nat {
    FirstFrom(log, term, 0)
  }

  function AppendEntries(s: Server, args: AppendArgs): (r: (Server, AppendReply)) {
    var no := AppendReply(s.currentTerm, false, 0, INVALID_TERM);
    if args.term < s.currentTerm then (s, no)
    else
      var f := BecomeFollower(s, args.term);
      if args.prevLogIndex >= |f.log| then (f, no.(conflictTerm := INVALID_TERM, conflictIndex := |f.log|))
      else if args.prevLogIndex < 0 then (f, no)
      else if f.log[args.prevLogIndex].term != args.prevLogTerm then
        var t := f.log[args.prevLogIndex].term;
        (f, no.(conflictTerm := t, conflictIndex := FirstFor(f.log, t)))
      else
        var g := Persist(f.(log := f.log[..args.prevLogIndex + 1] + args.entries));
        (if args.leaderCommit > g.commitIndex then g.(commitIndex := args.leaderCommit) else g,
         no.(success := true))
  }

  /** A round of replication starts: the leader counts itself. */
  function StartReplication(s: Server): Server {
    if s.role != Leader || s.me >= |s.nextIndex| || s.me >= |s.matchIndex| then s
    else s.(matchIndex := s.matchIndex[s.me := |s.log| - 1], nextIndex := s.nextIndex[s.me := |s.log|])
  }

  /** The request for one peer carries the whole rest of the log; None where the source would panic. */
  function ReplicationRequest(s: Server, peer: nat): Option<AppendArgs> {
    if peer < |s.nextIndex| && 0 <= s.nextIndex[peer] - 1 < |s.log| then
      var prev := s.nextIndex[peer] - 1;
      Some(AppendArgs(s.currentTerm, s.me, prev, s.log[prev].term, s.log[prev + 1..], s.commitIndex))
    else None
  }

  /** The largest index that a majority of `matchIndex` has reached. */
  function MajorityIndex(matchIndex: seq<int>): int
    requires matchIndex != []
  {
    Sorted(matchIndex)[(|matchIndex| - 1) / 2]
  }

  /** Where the leader looks next after a rejection. */
  function Backtrack(log: Log, next: int, reply: AppendReply): int {
    var jump :=
      if reply.conflictTerm == INVALID_TERM then reply.conflictIndex
      else if FirstFor(log, reply.conflictTerm) != INVALID_INDEX then FirstFor(log, reply.conflictTerm)
      else reply.conflictIndex;
    if jump > next then next else jump
  }

  function AppendAnswered(s: Server, peer: nat, args: AppendArgs, reply: AppendReply): Server
    requires peer < |s.nextIndex| == |s.matchIndex|
  {
    if reply.term > s.currentTerm then BecomeFollower(s, reply.term)
    else if ContextLost(s, Leader, args.term) then s
    else if !reply.success then
      s.(nextIndex := s.nextIndex[peer := Backtrack(s.log, s.nextIndex[peer], reply)])
    else
      var match_ := args.prevLogIndex + |args.entries|;
      var r := s.(matchIndex := s.matchIndex[peer := match_], nextIndex := s.nextIndex[peer := match_ + 1]);
      var m := MajorityIndex(r.matchIndex);
      if m > r.commitIndex && 0 <= m < |r.log| && r.log[m].term == r.currentTerm then r.(commitIndex := m) else r
  }
}
