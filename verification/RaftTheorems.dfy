/** The guarantees of section 5 of the Raft paper, as statements about every run of the cluster. */
module RaftTheorems {
  import opened RaftTypes
  import opened RaftServer
  import opened RaftCluster
  import opened RaftProtocol
  import opened RaftInvariant
  import opened RaftLogs
  import opened RaftSteps
  import opened RaftSafety

  // ---------- One step ----------

  /** The history after event e. */
  ghost function NextAux(c: Cluster, a: Aux, e: Event): Aux
    requires ClusterBase(c, a) && Enabled(c, e)
  {
    match e
    case Timeout(i) => AuxTimeout(c, a, i)
    case Ask(i) => AuxAsk(c, a, i)
    case DeliverVote(x, t, v) => AuxDeliverVote(c.servers[v], a, v, c.votes[(x, t, v)].args)
    case ReturnVote(x, t, v) => AuxReturnVote(c, a, x, t, v)
    case Submit(i, command) => AuxSubmit(c, a, i, command)
    case Replicate(_) => a
    case DeliverAppend(id) =>
      var call := c.appends[id];
      assert AppendCallOk(a, |c.servers|, call);
      AuxDeliverAppend(c.servers[call.to], a, call.to, call.from, call.args)
    case ReturnAppend(id) => Learn(a, c.appends[id].from, c.appends[id].reply.term)
    case Crash(_) => a
    case CrashInVote(x, t, v) => Learn(a, v, t)
    case CrashInAppend(id) => Learn(a, c.appends[id].to, c.appends[id].args.term)
  }

  ghost predicate BallotsStay(p: Protocol, r: Protocol) {
    forall k :: k in p.ballots ==> k in r.ballots && r.ballots[k] == p.ballots[k]
  }

  lemma StepBase(c: Cluster, a: Aux, e: Event)
    requires ClusterBase(c, a) && Enabled(c, e)
    ensures ClusterBase(Apply(c, e), NextAux(c, a, e)) && Later(a.p, NextAux(c, a, e).p)
    ensures BallotsStay(a.p, NextAux(c, a, e).p)
  {
    match e
    case Timeout(i) => TimeoutBase(c, a, i);
    case Ask(i) => AskBase(c, a, i);
    case DeliverVote(x, t, v) => DeliverVoteBase(c, a, x, t, v);
    case ReturnVote(x, t, v) => ReturnVoteBase(c, a, x, t, v);
    case Submit(i, command) => SubmitBase(c, a, i, command);
    case Replicate(i) => ReplicateBase(c, a, i);
    case DeliverAppend(id) =>
      assert AppendCallOk(a, |c.servers|, c.appends[id]);
      DeliverAppendBase(c, a, id);
    case ReturnAppend(id) => ReturnAppendBase(c, a, id);
    case Crash(i) => CrashBase(c, a, i);
    case CrashInVote(x, t, v) => CrashInVoteBase(c, a, x, t, v);
    case CrashInAppend(id) => CrashInAppendBase(c, a, id);
  }

  ghost predicate StepNoShrink(c: Cluster, a: Aux, e: Event)
    requires Enabled(c, e)
  {
    e.DeliverAppend? ==> NoShrink(c.servers[c.appends[e.id].to], a, c.appends[e.id].to, c.appends[e.id].args)
  }

  lemma StepSafe(c: Cluster, a: Aux, e: Event)
    requires ClusterBase(c, a) && ClusterSafe(c, a) && Enabled(c, e) && StepNoShrink(c, a, e)
    ensures ClusterSafe(Apply(c, e), NextAux(c, a, e))
  {
    match e
    case Timeout(i) => TimeoutSafe(c, a, i);
    case Ask(i) => AskSafe(c, a, i);
    case DeliverVote(x, t, v) => DeliverVoteSafe(c, a, x, t, v);
    case ReturnVote(x, t, v) => ReturnVoteSafe(c, a, x, t, v);
    case Submit(i, command) => SubmitSafe(c, a, i, command);
    case Replicate(i) => ReplicateSafe(c, a, i);
    case DeliverAppend(id) =>
      assert AppendCallOk(a, |c.servers|, c.appends[id]);
      DeliverAppendSafe(c, a, id);
    case ReturnAppend(id) => ReturnAppendSafe(c, a, id);
    case Crash(i) => CrashSafe(c, a, i);
    case CrashInVote(x, t, v) => CrashInVoteSafe(c, a, x, t, v);
    case CrashInAppend(id) => CrashInAppendSafe(c, a, id);
  }

  // ---------- Whole runs ----------

  ghost function InitAux(c: Cluster): Aux {
    Aux(Protocol(seq(|c.servers|, _ => 1), seq(|c.servers|, _ => [Placeholder]), map[], map[], map[], map[]), map[])
  }

  lemma InitHolds(c: Cluster)
    requires Init(c)
    ensures ClusterBase(c, InitAux(c)) && ClusterSafe(c, InitAux(c))
  {
    var a := InitAux(c);
    forall i | 0 <= i < |c.servers| ensures ServerCommitOk(c.servers[i], a.p, i) {
      NothingCommitted(a.p, i, 1, c.servers[i].log);
    }
  }

  /** The history along a run. */
  ghost predicate Histories(r: Run, h: seq<Aux>) {
    && IsRun(r) && |h| == |r.states|
    && h[0] == InitAux(r.states[0])
    && (forall k {:trigger ClusterBase(r.states[k], h[k])} :: 0 <= k < |h| ==> ClusterBase(r.states[k], h[k]))
    && (forall k {:trigger HistoryStep(r, h, k)} :: 0 <= k < |r.events| ==> HistoryStep(r, h, k))
    && Chain(h)
  }

  ghost predicate HistoryStep(r: Run, h: seq<Aux>, k: nat)
    requires IsRun(r) && |h| == |r.states| && k < |r.events|
  {
    ClusterBase(r.states[k], h[k]) && h[k + 1] == NextAux(r.states[k], h[k], r.events[k])
  }

  ghost predicate Chain(h: seq<Aux>) {
    forall k {:trigger Follows(h, k)} :: 0 <= k < |h| - 1 ==> Follows(h, k)
  }

  ghost predicate Follows(h: seq<Aux>, k: nat)
    requires k < |h| - 1
  {
    Later(h[k].p, h[k + 1].p)
  }

  function Before(r: Run, k: nat): Run
    requires k <= |r.events| && k < |r.states|
  {
    Run(r.states[..k + 1], r.events[..k])
  }

  lemma {:induction false} HistoriesExist(r: Run) returns (h: seq<Aux>)
    requires IsRun(r)
    ensures Histories(r, h)
    decreases |r.events|
  {
    var n := |r.events|;
    if n == 0 {
      InitHolds(r.states[0]);
      h := [InitAux(r.states[0])];
    } else {
      var q := Before(r, n - 1);
      var g := HistoriesExist(q);
      assert ClusterBase(q.states[n - 1], g[n - 1]);
      StepBase(r.states[n - 1], g[n - 1], r.events[n - 1]);
      h := g + [NextAux(r.states[n - 1], g[n - 1], r.events[n - 1])];
      HistoriesExtend(r, g, h);
    }
  }

  lemma HistoriesExtend(r: Run, g: seq<Aux>, h: seq<Aux>)
    requires IsRun(r) && 0 < |r.events| && Histories(Before(r, |r.events| - 1), g)
    requires var n := |r.events|;
             && ClusterBase(r.states[n - 1], g[n - 1])
             && h == g + [NextAux(r.states[n - 1], g[n - 1], r.events[n - 1])]
             && ClusterBase(r.states[n], h[n]) && Later(g[n - 1].p, h[n].p)
    ensures Histories(r, h)
  {
    var n := |r.events|;
    var q := Before(r, n - 1);
    forall k | 0 <= k < |h| ensures ClusterBase(r.states[k], h[k]) {
      if k < n {
        assert ClusterBase(q.states[k], g[k]);
      }
    }
    forall k | 0 <= k < n ensures HistoryStep(r, h, k) {
      if k < n - 1 {
        assert HistoryStep(q, g, k);
      }
    }
    forall k | 0 <= k < n ensures Follows(h, k) {
      if k < n - 1 {
        assert Follows(g, k);
      }
    }
  }

  lemma {:induction false} LaterAlong(h: seq<Aux>, i: nat, j: nat)
    requires Chain(h) && i <= j < |h|
    ensures Later(h[i].p, h[j].p)
    decreases j - i
  {
    if i < j {
      LaterAlong(h, i, j - 1);
      assert Follows(h, j - 1);
      LaterTransitive(h[i].p, h[j - 1].p, h[j].p);
    }
  }

  lemma LaterTransitive(p: Protocol, q: Protocol, r: Protocol)
    requires Later(p, q) && Later(q, r)
    ensures Later(p, r)
  {
    forall t | t in p.elections ensures t in r.elections && Grown(p.elections[t], r.elections[t]) {
      assert Grown(p.elections[t], q.elections[t]) && Grown(q.elections[t], r.elections[t]);
    }
  }

  // ---------- Election Safety and Log Matching: every run ----------

  lemma ServerAt(r: Run, h: seq<Aux>, k: nat, a: nat)
    requires Histories(r, h) && k < |r.states| && a < |r.states[k].servers|
    ensures Base(h[k].p) && |h[k].p.term| == |h[k].p.log| == |r.states[k].servers|
    ensures ServerOk(r.states[k].servers[a], r.states[k].votes, h[k], a, |r.states[k].servers|)
    ensures Canonical(r.states[k].servers[a].log, h[k].p.elections)
  {
    assert ClusterBase(r.states[k], h[k]);
    assert ServerOk(r.states[k].servers[a], r.states[k].votes, h[k], a, |r.states[k].servers|);
  }

  /** No term ever has two leaders, at whatever moments they lead. */
  lemma ElectionSafety(r: Run, i: nat, j: nat, a: nat, b: nat)
    requires IsRun(r) && i < |r.states| && j < |r.states|
    requires a < |r.states[i].servers| && b < |r.states[j].servers|
    requires r.states[i].servers[a].role == Leader && r.states[j].servers[b].role == Leader
    requires r.states[i].servers[a].currentTerm == r.states[j].servers[b].currentTerm
    ensures a == b
  {
    var h := HistoriesExist(r);
    ServerAt(r, h, i, a);
    ServerAt(r, h, j, b);
    LaterAlong(h, i, |h| - 1);
    LaterAlong(h, j, |h| - 1);
  }

  /** Two logs that hold an entry of the same term at the same index are identical up to it. */
  lemma LogMatching(r: Run, i: nat, j: nat, a: nat, b: nat, k: nat)
    requires IsRun(r) && i < |r.states| && j < |r.states|
    requires a < |r.states[i].servers| && b < |r.states[j].servers|
    requires k < |r.states[i].servers[a].log| && k < |r.states[j].servers[b].log|
    requires r.states[i].servers[a].log[k].term == r.states[j].servers[b].log[k].term
    ensures r.states[i].servers[a].log[..k + 1] == r.states[j].servers[b].log[..k + 1]
  {
    var h := HistoriesExist(r);
    CanonicalAt(r, h, i, a);
    CanonicalAt(r, h, j, b);
    CanonicalMatch(r.states[i].servers[a].log, r.states[j].servers[b].log, h[|h| - 1].p.elections, k);
  }

  lemma CanonicalAt(r: Run, h: seq<Aux>, i: nat, a: nat)
    requires Histories(r, h) && i < |r.states| && a < |r.states[i].servers|
    ensures Canonical(r.states[i].servers[a].log, h[|h| - 1].p.elections)
  {
    ServerAt(r, h, i, a);
    LaterAlong(h, i, |h| - 1);
    CanonicalLater(h[i].p, h[|h| - 1].p, r.states[i].servers[a].log);
  }

  lemma CanonicalMatch(l: Log, m: Log, e: map<nat, Election>, k: nat)
    requires Canonical(l, e) && Canonical(m, e) && k < |l| && k < |m| && l[k].term == m[k].term
    ensures l[..k + 1] == m[..k + 1]
  {
    if k > 0 {
      assert Rooted(l, k, e) && Rooted(m, k, e);
    }
  }

  /** Terms never decrease along a log, start at 0 and never exceed the server's own. */
  lemma LogTermsAscend(r: Run, i: nat, a: nat, j: nat, k: nat)
    requires IsRun(r) && i < |r.states| && a < |r.states[i].servers|
    requires j <= k < |r.states[i].servers[a].log|
    ensures r.states[i].servers[a].log[0] == Placeholder
    ensures r.states[i].servers[a].log[j].term <= r.states[i].servers[a].log[k].term
    ensures r.states[i].servers[a].log[k].term <= r.states[i].servers[a].currentTerm
  {
    var h := HistoriesExist(r);
    ServerAt(r, h, i, a);
    TermsSorted(h[i].p, r.states[i].servers[a].log, j, k);
  }

  /** A crash at any moment brings back the term, the vote and the log. */
  lemma CrashLosesNothing(r: Run, i: nat, a: nat)
    requires IsRun(r) && i < |r.states| && a < |r.states[i].servers|
    ensures var s := r.states[i].servers[a];
            Restart(s).currentTerm == s.currentTerm && Restart(s).votedFor == s.votedFor && Restart(s).log == s.log
  {
    var h := HistoriesExist(r);
    ServerAt(r, h, i, a);
  }

  /** The source never indexes outside the log: each peer has a request, and the majority index is an index. */
  lemma LeaderNeverPanics(r: Run, i: nat, a: nat, peer: nat)
    requires IsRun(r) && i < |r.states| && a < |r.states[i].servers| && peer < |r.states[i].servers|
    requires r.states[i].servers[a].role == Leader
    ensures var s := r.states[i].servers[a];
            && ReplicationRequest(s, peer).Some?
            && |s.nextIndex| == |s.matchIndex| == |r.states[i].servers|
            && 1 <= s.nextIndex[peer] <= |s.log|
            && 0 <= MajorityIndex(s.matchIndex) < |s.log|
  {
    var h := HistoriesExist(r);
    ServerAt(r, h, i, a);
    RequestOk(r.states[i].servers[a], r.states[i].votes, h[i], a, |r.states[i].servers|, peer);
    MajorityIsChosen(r.states[i].servers[a], r.states[i].votes, h[i], a, |r.states[i].servers|);
  }

  /**
   Fast backtracking converges: a rejection that arrives while nextIndex still points at the rejected
   request moves it strictly down, and never below 1.
   */
  lemma BacktrackingConverges(r: Run, i: nat, id: nat)
    requires IsRun(r) && i < |r.states| && AppendAnswerable(r.states[i], id)
    requires var call := r.states[i].appends[id];
             var s := r.states[i].servers[call.from];
             && call.reply.term <= s.currentTerm && !ContextLost(s, Leader, call.args.term)
             && !call.reply.success && call.args.prevLogIndex == s.nextIndex[call.to] - 1
    ensures var call := r.states[i].appends[id];
            var s := r.states[i].servers[call.from];
            1 <= AppendAnswered(s, call.to, call.args, call.reply).nextIndex[call.to] < s.nextIndex[call.to]
  {
    var h := HistoriesExist(r);
    var c, call := r.states[i], r.states[i].appends[id];
    var s := c.servers[call.from];
    assert ClusterBase(c, h[i]);
    assert AppendCallOk(h[i], |c.servers|, call);
    ServerAt(r, h, i, call.from);
    BacktrackIsConflictIndex(h[i].p, s.log, call.to, call.args, call.reply, s.nextIndex[call.to]);
  }

  // ---------- State Machine Safety: runs in which no follower's log shrinks under one leader ----------

  /** Event k makes server v accept, in term t, a request that ends at index `end`. */
  ghost predicate AcceptedAt(r: Run, k: nat, v: nat, t: nat, end: int)
    requires IsRun(r) && k < |r.events|
  {
    && r.events[k].DeliverAppend?
    && var call := r.states[k].appends[r.events[k].id];
       && call.to == v && call.args.term == t && call.args.prevLogIndex + |call.args.entries| == end
       && AppendEntries(r.states[k].servers[v], call.args).1.success
  }

  /** Of two requests that one follower accepts in one term, the later never ends before the earlier. */
  ghost predicate NeverShrinks(r: Run)
    requires IsRun(r)
  {
    forall i: nat, j: nat, v: nat, t: nat, x: int, y: int ::
      i < j < |r.events| && AcceptedAt(r, i, v, t, x) && AcceptedAt(r, j, v, t, y) ==> x <= y
  }

  ghost predicate AckWitness(r: Run, h: seq<Aux>, k: nat, v: nat, t: nat)
    requires Histories(r, h) && k < |h| && (v, t) in h[k].p.acks
  {
    || (t in h[k].p.elections && h[k].p.elections[t].leader == v)
    || exists j: nat :: j < k && AcceptedAt(r, j, v, t, h[k].p.acks[(v, t)])
  }

  ghost predicate NewAck(c: Cluster, a: Aux, b: Aux, e: Event, v: nat, t: nat)
    requires Enabled(c, e) && (v, t) in b.p.acks
  {
    || ((v, t) in a.p.acks && b.p.acks[(v, t)] == a.p.acks[(v, t)])
    || (t in b.p.elections && b.p.elections[t].leader == v)
    || (e.DeliverAppend?
        && var call := c.appends[e.id];
           && call.to == v && call.args.term == t && Accepts(c.servers[v], call.args)
           && b.p.acks[(v, t)] == call.args.prevLogIndex + |call.args.entries|)
  }

  lemma AcksOnReturnVote(c: Cluster, a: Aux, x: nat, u: nat, w: nat, v: nat, t: nat)
    requires ClusterBase(c, a) && VoteAnswerable(c, x, u, w)
    requires (v, t) in AuxReturnVote(c, a, x, u, w).p.acks
    ensures NewAck(c, a, AuxReturnVote(c, a, x, u, w), ReturnVote(x, u, w), v, t)
  {
    assert ServerOk(c.servers[x], c.votes, a, x, |c.servers|);
  }

  lemma AcksOnSubmit(c: Cluster, a: Aux, i: nat, command: Command, v: nat, t: nat)
    requires ClusterBase(c, a) && i < |c.servers|
    requires (v, t) in AuxSubmit(c, a, i, command).p.acks
    ensures NewAck(c, a, AuxSubmit(c, a, i, command), Submit(i, command), v, t)
  {
    assert ServerOk(c.servers[i], c.votes, a, i, |c.servers|);
  }

  lemma AcksOfAccept(s: Server, a: Aux, w: nat, from: nat, args: AppendArgs, v: nat, t: nat)
    requires w < |a.p.term| && |a.p.log| == |a.p.term| && s.currentTerm == a.p.term[w] && ArgsOk(a.p, from, args)
    requires (v, t) in AuxDeliverAppend(s, a, w, from, args).p.acks
    ensures var b := AuxDeliverAppend(s, a, w, from, args);
            || ((v, t) in a.p.acks && b.p.acks[(v, t)] == a.p.acks[(v, t)])
            || (w == v && args.term == t && Accepts(s, args) && b.p.acks[(v, t)] == args.prevLogIndex + |args.entries|)
  {
  }

  /** How one event changes what is acknowledged. */
  lemma AcksStep(c: Cluster, a: Aux, e: Event, v: nat, t: nat)
    requires ClusterBase(c, a) && Enabled(c, e)
    requires (v, t) in NextAux(c, a, e).p.acks
    ensures NewAck(c, a, NextAux(c, a, e), e, v, t)
  {
    match e
    case ReturnVote(x, u, w) => AcksOnReturnVote(c, a, x, u, w, v, t);
    case Submit(i, command) => AcksOnSubmit(c, a, i, command, v, t);
    case DeliverAppend(id) => AcksOnDeliver(c, a, id, v, t);
    case _ => AcksElsewhere(c, a, e);
  }

  lemma AcksOnDeliver(c: Cluster, a: Aux, id: nat, v: nat, t: nat)
    requires ClusterBase(c, a) && Enabled(c, DeliverAppend(id))
    requires (v, t) in NextAux(c, a, DeliverAppend(id)).p.acks
    ensures NewAck(c, a, NextAux(c, a, DeliverAppend(id)), DeliverAppend(id), v, t)
  {
    var call := c.appends[id];
    assert ServerOk(c.servers[call.to], c.votes, a, call.to, |c.servers|) && AppendCallOk(a, |c.servers|, call);
    AcksOfAccept(c.servers[call.to], a, call.to, call.from, call.args, v, t);
  }

  lemma AcksElsewhere(c: Cluster, a: Aux, e: Event)
    requires ClusterBase(c, a) && Enabled(c, e) && !e.ReturnVote? && !e.Submit? && !e.DeliverAppend?
    ensures NextAux(c, a, e).p.acks == a.p.acks
  {
  }

  lemma {:induction false} AcksWitnessed(r: Run, h: seq<Aux>, k: nat, v: nat, t: nat)
    requires Histories(r, h) && k < |h| && (v, t) in h[k].p.acks
    ensures AckWitness(r, h, k, v, t)
    decreases k
  {
    if k > 0 {
      var e := r.events[k - 1];
      assert HistoryStep(r, h, k - 1);
      AcksStep(r.states[k - 1], h[k - 1], e, v, t);
      if (v, t) in h[k - 1].p.acks && h[k].p.acks[(v, t)] == h[k - 1].p.acks[(v, t)] {
        AcksWitnessed(r, h, k - 1, v, t);
        assert Follows(h, k - 1);
      } else if !(t in h[k].p.elections && h[k].p.elections[t].leader == v) {
        AcceptsIsSuccess(r.states[k - 1].servers[v], r.states[k - 1].appends[e.id].args);
        assert AcceptedAt(r, k - 1, v, t, h[k].p.acks[(v, t)]);
      }
    }
  }

  /** Requests go to other servers than their leader, so what they must not undercut was accepted in the run. */
  lemma StepDoesNotShrink(r: Run, h: seq<Aux>, k: nat)
    requires Histories(r, h) && NeverShrinks(r) && k < |r.events|
    ensures Enabled(r.states[k], r.events[k]) && StepNoShrink(r.states[k], h[k], r.events[k])
  {
    var c, e := r.states[k], r.events[k];
    if e.DeliverAppend? {
      var call := c.appends[e.id];
      var v, t := call.to, call.args.term;
      assert ClusterBase(c, h[k]);
      assert AppendCallOk(h[k], |c.servers|, call);
      if Accepts(c.servers[v], call.args) && (v, t) in h[k].p.acks {
        AcksWitnessed(r, h, k, v, t);
        AcceptsIsSuccess(c.servers[v], call.args);
        assert AcceptedAt(r, k, v, t, call.args.prevLogIndex + |call.args.entries|);
      }
    }
  }

  lemma {:induction false} SafeAlong(r: Run, h: seq<Aux>, k: nat)
    requires Histories(r, h) && NeverShrinks(r) && k < |h|
    ensures ClusterSafe(r.states[k], h[k])
    decreases k
  {
    if k == 0 {
      InitHolds(r.states[0]);
    } else {
      SafeAlong(r, h, k - 1);
      assert HistoryStep(r, h, k - 1);
      StepDoesNotShrink(r, h, k - 1);
      StepSafe(r.states[k - 1], h[k - 1], r.events[k - 1]);
    }
  }

  /** What a server counts as committed lies inside its log and is committed for good. */
  lemma CommittedForGood(r: Run, h: seq<Aux>, k: nat, a: nat)
    requires Histories(r, h) && NeverShrinks(r) && k < |h| && a < |r.states[k].servers|
    ensures var s := r.states[k].servers[a];
            && 0 <= s.commitIndex < |s.log|
            && Committed(h[|h| - 1].p, s.currentTerm, s.log[..s.commitIndex + 1])
  {
    var s := r.states[k].servers[a];
    SafeAlong(r, h, k);
    assert ServerCommitOk(s, h[k].p, a);
    LaterAlong(h, k, |h| - 1);
    CommittedLater(h[k].p, h[|h| - 1].p, s.currentTerm, s.currentTerm, s.log[..s.commitIndex + 1]);
  }

  /** No two servers ever hold different entries at an index that both consider committed. */
  lemma StateMachineSafety(r: Run, i: nat, j: nat, a: nat, b: nat, k: nat)
    requires IsRun(r) && NeverShrinks(r) && i < |r.states| && j < |r.states|
    requires a < |r.states[i].servers| && b < |r.states[j].servers|
    requires k <= r.states[i].servers[a].commitIndex && k <= r.states[j].servers[b].commitIndex
    ensures k < |r.states[i].servers[a].log| && k < |r.states[j].servers[b].log|
    ensures r.states[i].servers[a].log[k] == r.states[j].servers[b].log[k]
  {
    var h := HistoriesExist(r);
    var n, s, u := |h| - 1, r.states[i].servers[a], r.states[j].servers[b];
    CommittedForGood(r, h, i, a);
    CommittedForGood(r, h, j, b);
    SafeAlong(r, h, n);
    assert ClusterBase(r.states[n], h[n]);
    CommittedAgree(h[n].p, s.currentTerm, s.log[..s.commitIndex + 1], u.currentTerm, u.log[..u.commitIndex + 1]);
    assert s.log[k] == s.log[..s.commitIndex + 1][k] && u.log[k] == u.log[..u.commitIndex + 1][k];
  }

  /** Whoever leads a later term holds everything that a server of an earlier term considers committed. */
  lemma LeadersAreComplete(r: Run, i: nat, j: nat, a: nat, b: nat)
    requires IsRun(r) && NeverShrinks(r) && i < |r.states| && j < |r.states|
    requires a < |r.states[i].servers| && b < |r.states[j].servers|
    requires r.states[j].servers[b].role == Leader
    requires r.states[i].servers[a].currentTerm < r.states[j].servers[b].currentTerm
    ensures var s := r.states[i].servers[a];
            0 <= s.commitIndex < |s.log| && s.log[..s.commitIndex + 1] <= r.states[j].servers[b].log
  {
    var h := HistoriesExist(r);
    var n, s, u := |h| - 1, r.states[i].servers[a], r.states[j].servers[b];
    CommittedForGood(r, h, i, a);
    SafeAlong(r, h, n);
    assert ClusterBase(r.states[n], h[n]);
    LeaderStart(r, h, j, b);
    LeaderCompleteness(h[n].p, s.currentTerm, s.log[..s.commitIndex + 1], u.currentTerm);
  }

  lemma LeaderStart(r: Run, h: seq<Aux>, j: nat, b: nat)
    requires Histories(r, h) && j < |r.states| && b < |r.states[j].servers| && r.states[j].servers[b].role == Leader
    ensures var u, p := r.states[j].servers[b], h[|h| - 1].p;
            u.currentTerm in p.elections && p.elections[u.currentTerm].first <= u.log
  {
    ServerAt(r, h, j, b);
    LaterAlong(h, j, |h| - 1);
    assert ElectionOk(h[j].p, r.states[j].servers[b].currentTerm);
  }

  // ---------- In-order delivery is enough ----------

  /** Requests that one leader sends to one follower in one term are delivered in the order of sending. */
  ghost predicate InOrder(r: Run)
    requires IsRun(r)
  {
    forall i: nat, j: nat :: i < j < |r.events| && r.events[i].DeliverAppend? && r.events[j].DeliverAppend?
      && SameLink(r.states[i].appends[r.events[i].id], r.states[j].appends[r.events[j].id])
      ==> r.events[i].id < r.events[j].id
  }

  predicate SameLink(x: AppendCall, y: AppendCall) {
    x.from == y.from && x.to == y.to && x.args.term == y.args.term
  }

  /** Call `id`, with these arguments, was sent by event m. */
  ghost predicate SentBy(r: Run, m: nat, id: nat, call: AppendCall)
    requires IsRun(r) && m < |r.events|
  {
    && r.states[m].sent <= id < r.states[m + 1].sent
    && call.from < |r.states[m].servers|
    && var s := r.states[m].servers[call.from];
       && s.role == Leader && s.currentTerm == call.args.term
       && |s.log| == call.args.prevLogIndex + |call.args.entries| + 1
  }

  /** A call in flight was in flight before, or was sent just now. */
  lemma CallOrigin(c: Cluster, e: Event, id: nat)
    requires Enabled(c, e) && id in Apply(c, e).appends
    requires forall x :: x in c.appends ==> x < c.sent
    ensures var call := Apply(c, e).appends[id];
            if id in c.appends then SameLink(call, c.appends[id]) && call.args == c.appends[id].args
            else
              && e.Replicate? && e.i == call.from < |c.servers|
              && c.sent <= id < Apply(c, e).sent
              && CallNumber(StartReplication(c.servers[e.i]), e.i, |c.servers|, c.sent, id) == Some(call)
  {
  }

  lemma {:induction false} EveryCallWasSent(r: Run, h: seq<Aux>, k: nat, id: nat) returns (m: nat)
    requires Histories(r, h) && k < |r.states| && id in r.states[k].appends
    ensures m < k && SentBy(r, m, id, r.states[k].appends[id])
    decreases k
  {
    var c, e := r.states[k - 1], r.events[k - 1];
    assert Enabled(c, e) && r.states[k] == Apply(c, e);
    assert ClusterBase(c, h[k - 1]);
    forall x | x in c.appends ensures x < c.sent {
      assert AppendCallOk(h[k - 1], |c.servers|, c.appends[x]);
    }
    CallOrigin(c, e, id);
    if id in c.appends {
      m := EveryCallWasSent(r, h, k - 1, id);
    } else {
      m := k - 1;
    }
  }

  lemma {:induction false} SentGrows(r: Run, i: nat, j: nat)
    requires IsRun(r) && i <= j < |r.states|
    ensures r.states[i].sent <= r.states[j].sent
    decreases j - i
  {
    if i < j {
      SentGrows(r, i, j - 1);
      assert Enabled(r.states[j - 1], r.events[j - 1]) && r.states[j] == Apply(r.states[j - 1], r.events[j - 1]);
    }
  }

  /** A leader's log only grows while it leads. */
  lemma LeaderLogGrows(r: Run, h: seq<Aux>, i: nat, j: nat, a: nat)
    requires Histories(r, h) && i <= j < |r.states| && a < |r.states[i].servers| && a < |r.states[j].servers|
    requires r.states[i].servers[a].role == Leader && r.states[j].servers[a].role == Leader
    requires r.states[i].servers[a].currentTerm == r.states[j].servers[a].currentTerm
    ensures r.states[i].servers[a].log <= r.states[j].servers[a].log
  {
    ServerAt(r, h, i, a);
    ServerAt(r, h, j, a);
    LaterAlong(h, i, j);
  }

  /** The leader sends its whole tail, so later requests end later: in-order delivery never shrinks a log. */
  lemma InOrderNeverShrinks(r: Run)
    requires IsRun(r) && InOrder(r)
    ensures NeverShrinks(r)
  {
    var h := HistoriesExist(r);
    forall i: nat, j: nat, v: nat, t: nat, x: int, y: int |
      i < j < |r.events| && AcceptedAt(r, i, v, t, x) && AcceptedAt(r, j, v, t, y)
      ensures x <= y
    {
      RequestsEndInOrder(r, h, i, j);
    }
  }

  /** With in-order delivery on every link, no two servers disagree on a committed entry. */
  lemma InOrderIsSafe(r: Run, i: nat, j: nat, a: nat, b: nat, k: nat)
    requires IsRun(r) && InOrder(r) && i < |r.states| && j < |r.states|
    requires a < |r.states[i].servers| && b < |r.states[j].servers|
    requires k <= r.states[i].servers[a].commitIndex && k <= r.states[j].servers[b].commitIndex
    ensures k < |r.states[i].servers[a].log| && k < |r.states[j].servers[b].log|
    ensures r.states[i].servers[a].log[k] == r.states[j].servers[b].log[k]
  {
    InOrderNeverShrinks(r);
    StateMachineSafety(r, i, j, a, b, k);
  }

  lemma RequestsEndInOrder(r: Run, h: seq<Aux>, i: nat, j: nat)
    requires Histories(r, h) && InOrder(r) && i < j < |r.events|
    requires r.events[i].DeliverAppend? && r.events[j].DeliverAppend?
    requires var x, y := r.states[i].appends[r.events[i].id], r.states[j].appends[r.events[j].id];
             x.to == y.to && x.args.term == y.args.term
    ensures var x, y := r.states[i].appends[r.events[i].id].args, r.states[j].appends[r.events[j].id].args;
            x.prevLogIndex + |x.entries| <= y.prevLogIndex + |y.entries|
  {
    var x, y := r.events[i].id, r.events[j].id;
    SameLeader(r, h, i, j, x, y);
    var m := EveryCallWasSent(r, h, i, x);
    var n := EveryCallWasSent(r, h, j, y);
    if n < m {
      SentGrows(r, n + 1, m);
      assert false;
    }
    LeaderLogGrows(r, h, m, n, r.states[i].appends[x].from);
  }

  lemma SameLeader(r: Run, h: seq<Aux>, i: nat, j: nat, x: nat, y: nat)
    requires Histories(r, h) && i <= j < |r.states| && x in r.states[i].appends && y in r.states[j].appends
    requires r.states[i].appends[x].args.term == r.states[j].appends[y].args.term
    ensures r.states[i].appends[x].from == r.states[j].appends[y].from
  {
    assert ClusterBase(r.states[i], h[i]) && ClusterBase(r.states[j], h[j]);
    assert AppendCallOk(h[i], |r.states[i].servers|, r.states[i].appends[x]);
    assert AppendCallOk(h[j], |r.states[j].servers|, r.states[j].appends[y]);
    LaterAlong(h, i, j);
  }
}
