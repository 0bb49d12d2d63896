/** From every reachable state any majority can elect one of its members, by its own votes and without a crash. */
module RaftElection {
  import opened Sets
  import opened RaftTypes
  import opened RaftServer
  import opened RaftCluster
  import opened RaftProtocol
  import opened RaftTheorems
  import opened RaftAnswers
  import opened RaftRuns

  ghost predicate Members(q: set<nat>, c: Cluster) {
    forall v :: v in q ==> v < |c.servers|
  }

  /** The member is in this term and does not lead. */
  predicate Trails(s: Server, t: nat) {
    s.currentTerm == t && s.role != Leader
  }

  lemma {:induction false} HighestTerm(c: Cluster, q: set<nat>) returns (b: nat)
    requires q != {} && Members(q, c)
    ensures b in q && forall v :: v in q ==> c.servers[v].currentTerm <= c.servers[b].currentTerm
    decreases |q|
  {
    b := Pick(q);
    if q != {b} {
      var rest := q - {b};
      var d := HighestTerm(c, rest);
      assert forall v :: v in q ==> v == b || v in rest;
      if c.servers[b].currentTerm < c.servers[d].currentTerm {
        b := d;
      }
    }
  }

  lemma {:induction false} BestLog(c: Cluster, q: set<nat>) returns (b: nat)
    requires q != {} && Members(q, c) && Sound(c)
    ensures b in q && forall v :: v in q ==> UpToDate(c.servers[b].log, c.servers[v].log)
    decreases |q|
  {
    b := Pick(q);
    if q != {b} {
      var rest := q - {b};
      var d := BestLog(c, rest);
      assert forall v :: v in q ==> v == b || v in rest;
      if !UpToDate(c.servers[b].log, c.servers[d].log) {
        b := d;
      }
    }
  }

  lemma TwoMembers(q: set<nat>, n: nat, b: nat) returns (v: nat)
    requires Quorum(q, n) && n >= 2 && b in q
    ensures v in q && v != b
  {
    assert q != {b};
    v :| v in q && v != b;
  }

  // ---------- Asking for votes ----------

  ghost predicate Requested(c: Cluster, a: nat, t: nat, v: nat, l: Log) {
    l != [] && (a, t, v) in c.votes && c.votes[(a, t, v)] == VoteAsked(VoteArgs(t, a, |l| - 1, l[|l| - 1].term))
  }

  /** Server a has just stood for election in term t and has asked everyone. */
  ghost predicate Stands(c: Cluster, d: Cluster, a: nat, t: nat) {
    && |d.servers| == |c.servers| && a < |c.servers| && d.appends == c.appends && d.sent == c.sent
    && d.servers == c.servers[a := d.servers[a]] && d.servers[a].log == c.servers[a].log
    && d.servers[a].currentTerm == t && d.servers[a].role == Candidate && d.servers[a].votes == 1
    && forall v: nat :: v < |c.servers| && v != a ==> Requested(d, a, t, v, d.servers[a].log)
  }

  lemma StandsUp(c: Cluster, a: nat)
    requires Sound(c) && a < |c.servers| && c.servers[a].role != Leader
    ensures Enabled(c, Timeout(a)) && Enabled(OnTimeout(c, a), Ask(a))
    ensures Stands(c, OnAsk(OnTimeout(c, a), a), a, c.servers[a].currentTerm + 1)
  {
    var b := OnTimeout(c, a);
    var d, s := OnAsk(b, a), b.servers[a];
    forall v: nat | v < |c.servers| && v != a ensures Requested(d, a, s.currentTerm, v, s.log) {
      assert (a, s.currentTerm, v) in Requests(s, a, |c.servers|);
    }
  }

  lemma Stand(r: Run, c: Cluster, a: nat) returns (z: Run, d: Cluster)
    requires EndsIn(r, c) && Sound(c) && a < |c.servers| && c.servers[a].role != Leader
    ensures EndsIn(z, d) && GoesOn(r, z) && Stands(c, d, a, c.servers[a].currentTerm + 1)
  {
    StandsUp(c, a);
    var y := Grow(r, c, Timeout(a));
    z := Grow(y, OnTimeout(c, a), Ask(a));
    d := OnAsk(OnTimeout(c, a), a);
    GoesOnAndOn(r, y, z);
  }

  // ---------- No member leads ----------

  /** The members in `todo` have not yet heard of term t, in which v stands. */
  ghost predicate Toppling(d: Cluster, q: set<nat>, v: nat, t: nat, l: Log, todo: set<nat>) {
    && Members(q, d) && Sound(d) && v in q && v !in todo && todo <= q
    && (forall p :: p in q && p !in todo ==> Trails(d.servers[p], t))
    && (forall p :: p in todo ==> d.servers[p].currentTerm < t && Requested(d, v, t, p, l))
  }

  lemma ToppleOne(d: Cluster, q: set<nat>, v: nat, t: nat, l: Log, todo: set<nat>, p: nat)
    requires Toppling(d, q, v, t, l, todo) && p in todo
    ensures VotePending(d, v, t, p) && Toppling(OnDeliverVote(d, v, t, p), q, v, t, l, todo - {p})
  {
    VoteGrantedIff(d.servers[p], l, d.votes[(v, t, p)].args);
    var e := OnDeliverVote(d, v, t, p);
    VoteKeepsShape(d.servers[p], d.votes[(v, t, p)].args);
    forall x | x in todo - {p} ensures e.servers[x].currentTerm < t && Requested(e, v, t, x, l) {
      assert Requested(d, v, t, x, l);
    }
  }

  lemma VoteKeepsShape(s: Server, args: VoteArgs)
    requires s.log != []
    ensures var f := RequestVote(s, args).0;
            f.me == s.me && f.nextIndex == s.nextIndex && f.matchIndex == s.matchIndex && f.log == s.log
  {
  }

  lemma {:induction false} ToppleAll(r: Run, d: Cluster, q: set<nat>, v: nat, t: nat, l: Log, todo: set<nat>)
    returns (z: Run, e: Cluster)
    requires EndsIn(r, d) && Toppling(d, q, v, t, l, todo)
    ensures EndsIn(z, e) && GoesOn(r, z) && Toppling(e, q, v, t, l, {}) && |e.servers| == |d.servers|
    decreases |todo|
  {
    if todo == {} {
      z, e := r, d;
    } else {
      var p := Pick(todo);
      ToppleOne(d, q, v, t, l, todo, p);
      var y := Grow(r, d, DeliverVote(v, t, p));
      z, e := ToppleAll(y, OnDeliverVote(d, v, t, p), q, v, t, l, todo - {p});
      GoesOnAndOn(r, y, z);
    }
  }

  /** The member with the highest term stands for election, and everyone else follows. */
  lemma Topple(r: Run, c: Cluster, q: set<nat>, v: nat) returns (z: Run, e: Cluster)
    requires EndsIn(r, c) && Members(q, c) && v in q && c.servers[v].role != Leader
    requires forall p :: p in q ==> c.servers[p].currentTerm <= c.servers[v].currentTerm
    ensures EndsIn(z, e) && GoesOn(r, z) && |e.servers| == |c.servers|
    ensures forall p :: p in q ==> Trails(e.servers[p], c.servers[v].currentTerm + 1)
  {
    RunIsSound(r, c);
    var t := c.servers[v].currentTerm + 1;
    var y, d := Stand(r, c, v);
    RunIsSound(y, d);
    z, e := ToppleAll(y, d, q, v, t, d.servers[v].log, q - {v});
    GoesOnAndOn(r, y, z);
  }

  // ---------- A leader makes itself heard ----------

  /** What leader a sends to p in a round of replication. */
  ghost function RequestTo(s: Server, p: nat): AppendArgs
    requires p < |s.nextIndex| && 0 < s.nextIndex[p] <= |s.log|
  {
    var prev := s.nextIndex[p] - 1;
    AppendArgs(s.currentTerm, s.me, prev, s.log[prev].term, s.log[prev + 1..], s.commitIndex)
  }

  /** The leader can build a request for each peer. */
  ghost predicate Commands(c: Cluster, a: nat) {
    && a < |c.servers| && c.servers[a].role == Leader && Sound(c)
    && forall p {:trigger c.servers[a].nextIndex[p]} :: 0 <= p < |c.servers| ==>
         0 < c.servers[a].nextIndex[p] <= |c.servers[a].log|
  }

  lemma LeaderCommands(r: Run, c: Cluster, a: nat)
    requires EndsIn(r, c) && a < |c.servers| && c.servers[a].role == Leader
    ensures Commands(c, a)
  {
    RunIsSound(r, c);
    forall p | 0 <= p < |c.servers| ensures 0 < c.servers[a].nextIndex[p] <= |c.servers[a].log| {
      LeaderNeverPanics(r, |r.events|, a, p);
    }
  }

  /** The request to p is on its way. */
  ghost predicate Dispatched(b: Cluster, id: nat, a: nat, p: nat, args: AppendArgs) {
    p < |b.servers| && id in b.appends && b.appends[id] == AppendSent(a, p, args)
  }

  lemma RequestOf(c: Cluster, a: nat, p: nat)
    requires Commands(c, a) && p < |c.servers| && p != a
    ensures ReplicationRequest(StartReplication(c.servers[a]), p) == Some(RequestTo(c.servers[a], p))
  {
    var s := StartReplication(c.servers[a]);
    assert s.nextIndex[p] == c.servers[a].nextIndex[p] && s.log == c.servers[a].log;
  }

  lemma RoundHas(s: Server, a: nat, n: nat, base: nat, p: nat)
    requires p < n && p != a && ReplicationRequest(s, p).Some?
    ensures base + p in Round(s, a, n, base)
    ensures Round(s, a, n, base)[base + p] == AppendSent(a, p, ReplicationRequest(s, p).value)
  {
    assert CallNumber(s, a, n, base, base + p) == Some(AppendSent(a, p, ReplicationRequest(s, p).value));
  }

  lemma RequestIsSent(c: Cluster, a: nat, p: nat, s: Server, args: AppendArgs)
    requires a < |c.servers| && p < |c.servers| && p != a
    requires s == StartReplication(c.servers[a]) && ReplicationRequest(s, p) == Some(args)
    ensures Dispatched(OnReplicate(c, a), c.sent + p, a, p, args)
  {
    RoundHas(s, a, |c.servers|, c.sent, p);
  }

  /** The request to p has arrived, and its answer is on its way back. */
  ghost predicate Delivered(c: Cluster, d: Cluster, a: nat, p: nat)
    requires Commands(c, a) && p < |c.servers|
  {
    var args := RequestTo(c.servers[a], p);
    Arrived(c.servers[a := StartReplication(c.servers[a])], d, c.sent + p, a, p, args)
  }

  ghost predicate Arrived(servers: seq<Server>, d: Cluster, id: nat, a: nat, p: nat, args: AppendArgs)
    requires p < |servers|
  {
    var (f, reply) := AppendEntries(servers[p], args);
    && d.servers == servers[p := f]
    && id in d.appends && d.appends[id] == AppendReplied(a, p, args, reply)
  }

  lemma SendRound(r: Run, c: Cluster, a: nat, p: nat) returns (y: Run, b: Cluster)
    requires EndsIn(r, c) && Commands(c, a) && p < |c.servers| && p != a
    ensures EndsIn(y, b) && GoesOn(r, y) && AllBelow(y, c.sent + p)
    ensures b.servers == c.servers[a := StartReplication(c.servers[a])]
    ensures Dispatched(b, c.sent + p, a, p, RequestTo(c.servers[a], p))
  {
    y := Replicates(r, c, a, c.sent + p);
    b := OnReplicate(c, a);
    RequestOf(c, a, p);
    RequestIsSent(c, a, p, StartReplication(c.servers[a]), RequestTo(c.servers[a], p));
  }

  lemma Replicates(r: Run, c: Cluster, a: nat, s: nat) returns (y: Run)
    requires EndsIn(r, c) && a < |c.servers| && c.servers[a].role == Leader && c.sent <= s
    ensures EndsIn(y, OnReplicate(c, a)) && GoesOn(r, y) && AllBelow(y, s)
  {
    DeliveredBelow(r);
    y := Grow(r, c, Replicate(a));
  }

  lemma DeliverNext(y: Run, b: Cluster, id: nat, a: nat, p: nat, args: AppendArgs) returns (z: Run, d: Cluster)
    requires EndsIn(y, b) && Dispatched(b, id, a, p, args) && AllBelow(y, id)
    ensures EndsIn(z, d) && GoesOn(y, z) && Arrived(b.servers, d, id, a, p, args)
  {
    z := Grow(y, b, DeliverAppend(id));
    d := OnDeliverAppend(b, id);
  }

  /** A round of replication, of which the request to p arrives. */
  lemma Deliver(r: Run, c: Cluster, a: nat, p: nat) returns (z: Run, d: Cluster)
    requires EndsIn(r, c) && Commands(c, a) && p < |c.servers| && p != a
    ensures EndsIn(z, d) && GoesOn(r, z) && Delivered(c, d, a, p)
  {
    var y, b := SendRound(r, c, a, p);
    z, d := DeliverNext(y, b, c.sent + p, a, p, RequestTo(c.servers[a], p));
    GoesOnAndOn(r, y, z);
  }

  /** A server that hears a current leader follows it. */
  lemma HearsLeader(s: Server, args: AppendArgs)
    requires s.currentTerm <= args.term
    ensures var f := AppendEntries(s, args).0; f.role == Follower && f.currentTerm == args.term
  {
  }

  /** Member v, which has heard the leader of the highest term, is in that term and does not lead. */
  lemma Heard(c: Cluster, d: Cluster, q: set<nat>, b: nat, v: nat)
    requires Commands(c, b) && Members(q, c) && v in q && v != b && b in q && Delivered(c, d, b, v)
    requires forall p :: p in q ==> c.servers[p].currentTerm <= c.servers[b].currentTerm
    ensures |d.servers| == |c.servers| && d.servers[v].role != Leader
    ensures forall p :: p in q ==> d.servers[p].currentTerm <= d.servers[v].currentTerm
  {
    HearsLeader(c.servers[v], RequestTo(c.servers[b], v));
  }

  /** No member leads any more, and all are in one term. */
  lemma Unseat(r: Run, c: Cluster, q: set<nat>) returns (z: Run, e: Cluster, t: nat)
    requires EndsIn(r, c) && Quorum(q, |c.servers|) && |c.servers| >= 2
    ensures EndsIn(z, e) && GoesOn(r, z) && |e.servers| == |c.servers|
    ensures forall p :: p in q ==> Trails(e.servers[p], t)
  {
    var b := HighestTerm(c, q);
    if c.servers[b].role != Leader {
      z, e := Topple(r, c, q, b);
      t := c.servers[b].currentTerm + 1;
    } else {
      var v := TwoMembers(q, |c.servers|, b);
      LeaderCommands(r, c, b);
      var y, d := Deliver(r, c, b, v);
      Heard(c, d, q, b, v);
      z, e := Topple(y, d, q, v);
      t := d.servers[v].currentTerm + 1;
      GoesOnAndOn(r, y, z);
    }
  }

  // ---------- The election ----------

  /** Candidate a of term t, whose log is as good as any, has the votes of the members that are not in `todo`. */
  ghost predicate Electing(d: Cluster, q: set<nat>, a: nat, t: nat, todo: set<nat>) {
    && Quorum(q, |d.servers|) && Sound(d) && a in q && a !in todo && todo <= q
    && d.servers[a].currentTerm == t && d.servers[a].log != []
    && (d.servers[a].role == Leader
        || (d.servers[a].role == Candidate && d.servers[a].votes == |q| - |todo| <= |d.servers| / 2))
    && (forall p :: p in q && p !in todo && p != a ==> Trails(d.servers[p], t))
    && (forall p :: p in todo ==> && d.servers[p].currentTerm < t && UpToDate(d.servers[a].log, d.servers[p].log)
                                  && Requested(d, a, t, p, d.servers[a].log))
  }

  /** Both steps of one vote. */
  ghost function AfterVote(d: Cluster, a: nat, t: nat, p: nat): Cluster
    requires VotePending(d, a, t, p) && a < |d.servers|
  {
    OnReturnVote(OnDeliverVote(d, a, t, p), a, t, p)
  }

  lemma VoteCounts(s: Server, t: nat, reply: VoteReply)
    requires s.currentTerm == t && reply.term <= t && reply.granted && s.role != Follower
    ensures var f := VoteAnswered(s, t, reply);
            && f.currentTerm == t && f.log == s.log && f.me == s.me
            && |f.nextIndex| == |s.nextIndex| && |f.matchIndex| == |s.matchIndex|
            && (s.role == Leader ==> f == s)
            && (s.role == Candidate ==>
                  if s.votes + 1 > |s.nextIndex| / 2 then f.role == Leader
                  else f.role == Candidate && f.votes == s.votes + 1)
  {
  }

  lemma VoteIsGranted(d: Cluster, q: set<nat>, a: nat, t: nat, todo: set<nat>, p: nat)
    requires Electing(d, q, a, t, todo) && p in todo
    ensures VotePending(d, a, t, p)
    ensures var (f, reply) := RequestVote(d.servers[p], d.votes[(a, t, p)].args);
            && reply.granted && reply.term <= t && Trails(f, t) && f.me == p && f.log != []
            && |f.nextIndex| == |f.matchIndex| == |d.servers|
  {
    VoteGrantedIff(d.servers[p], d.servers[a].log, d.votes[(a, t, p)].args);
    VoteKeepsShape(d.servers[p], d.votes[(a, t, p)].args);
  }

  lemma AfterVoteIs(d: Cluster, a: nat, t: nat, p: nat)
    requires VotePending(d, a, t, p) && a < |d.servers| && p != a
    ensures var (f, reply) := RequestVote(d.servers[p], d.votes[(a, t, p)].args);
            && VoteAnswerable(OnDeliverVote(d, a, t, p), a, t, p)
            && AfterVote(d, a, t, p).servers == d.servers[p := f][a := VoteAnswered(d.servers[a], t, reply)]
            && AfterVote(d, a, t, p).votes == d.votes - {(a, t, p)}
  {
    assert d.votes[(a, t, p) := VoteReplied(RequestVote(d.servers[p], d.votes[(a, t, p)].args).1)] - {(a, t, p)}
        == d.votes - {(a, t, p)};
  }

  /** One member's vote is counted. */
  lemma VoteElects(d: Cluster, e: Cluster, q: set<nat>, a: nat, t: nat, todo: set<nat>, p: nat, f: Server, g: Server)
    requires Electing(d, q, a, t, todo) && p in todo && e.votes == d.votes - {(a, t, p)}
    requires e.servers == d.servers[p := f][a := g]
    requires Trails(f, t) && f.me == p && f.log != [] && |f.nextIndex| == |f.matchIndex| == |d.servers|
    requires g.currentTerm == t && g.log == d.servers[a].log && g.me == a
    requires |g.nextIndex| == |g.matchIndex| == |d.servers|
    requires || g.role == Leader
             || (g.role == Candidate && g.votes == |q| - |todo| + 1 <= |d.servers| / 2)
    ensures Electing(e, q, a, t, todo - {p})
  {
    assert |todo - {p}| == |todo| - 1;
    forall x | x in todo - {p} ensures Requested(e, a, t, x, g.log) && e.servers[x] == d.servers[x] {
      assert Requested(d, a, t, x, g.log);
    }
  }

  lemma VoteArrives(d: Cluster, q: set<nat>, a: nat, t: nat, todo: set<nat>, p: nat)
    requires Electing(d, q, a, t, todo) && p in todo
    ensures VotePending(d, a, t, p) && VoteAnswerable(OnDeliverVote(d, a, t, p), a, t, p)
    ensures Electing(AfterVote(d, a, t, p), q, a, t, todo - {p})
  {
    VoteIsGranted(d, q, a, t, todo, p);
    var (f, reply) := RequestVote(d.servers[p], d.votes[(a, t, p)].args);
    AfterVoteIs(d, a, t, p);
    VoteCounts(d.servers[a], t, reply);
    VoteElects(d, AfterVote(d, a, t, p), q, a, t, todo, p, f, VoteAnswered(d.servers[a], t, reply));
  }

  lemma {:induction false} AllVote(r: Run, d: Cluster, q: set<nat>, a: nat, t: nat, todo: set<nat>)
    returns (z: Run, e: Cluster)
    requires EndsIn(r, d) && Electing(d, q, a, t, todo)
    ensures EndsIn(z, e) && GoesOn(r, z) && Electing(e, q, a, t, {}) && |e.servers| == |d.servers|
    decreases |todo|
  {
    if todo == {} {
      z, e := r, d;
    } else {
      var p := Pick(todo);
      VoteArrives(d, q, a, t, todo, p);
      var x := Grow(r, d, DeliverVote(a, t, p));
      var y := Grow(x, OnDeliverVote(d, a, t, p), ReturnVote(a, t, p));
      z, e := AllVote(y, AfterVote(d, a, t, p), q, a, t, todo - {p});
      GoesOnAndOn(x, y, z);
      GoesOnAndOn(r, x, z);
    }
  }

  /** Leader a of term t, followed by the members of the majority. */
  ghost predicate Leads(c: Cluster, q: set<nat>, a: nat, t: nat) {
    && Quorum(q, |c.servers|) && a in q && c.servers[a].role == Leader && c.servers[a].currentTerm == t
    && forall p :: p in q && p != a ==> Trails(c.servers[p], t)
  }

  /** From every reachable state, some member of any majority can be elected by the votes of that majority. */
  lemma MajorityElects(r: Run, c: Cluster, q: set<nat>) returns (z: Run, e: Cluster, a: nat, t: nat)
    requires EndsIn(r, c) && Quorum(q, |c.servers|) && |c.servers| >= 2
    ensures EndsIn(z, e) && GoesOn(r, z) && |e.servers| == |c.servers| && Leads(e, q, a, t)
  {
    var u, b, k := Unseat(r, c, q);
    RunIsSound(u, b);
    a := BestLog(b, q);
    var w, d := Stand(u, b, a);
    t := k + 1;
    RunIsSound(w, d);
    assert |q - {a}| == |q| - 1;
    assert Electing(d, q, a, t, q - {a});
    z, e := AllVote(w, d, q, a, t, q - {a});
    GoesOnAndOn(r, u, w);
    GoesOnAndOn(r, w, z);
  }
}
