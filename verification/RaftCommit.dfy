/**
 From every reachable state any majority can commit a new command, by itself and without a crash: elect a leader,
 bring every member's log up to the leader's, and let every member know.
 */
module RaftCommit {
  import opened Sets
  import opened RaftTypes
  import opened RaftServer
  import opened RaftCluster
  import opened RaftProtocol
  import opened RaftInvariant
  import opened RaftMajority
  import opened RaftSteps
  import opened RaftTheorems
  import opened RaftAnswers
  import opened RaftRuns
  import opened RaftElection

  // ---------- A request and its answer ----------

  /** The answer of p has come back. */
  ghost predicate Exchanged(c: Cluster, e: Cluster, a: nat, p: nat)
    requires Commands(c, a) && p < |c.servers|
  {
    var args := RequestTo(c.servers[a], p);
    var (f, reply) := AppendEntries(c.servers[p], args);
    e.servers == c.servers[p := f][a := AppendAnswered(StartReplication(c.servers[a]), p, args, reply)]
  }

  lemma AnswerReturns(c: Cluster, d: Cluster, a: nat, p: nat)
    requires Commands(c, a) && p < |c.servers| && p != a && Delivered(c, d, a, p)
    ensures AppendAnswerable(d, c.sent + p) && d.servers[a] == StartReplication(c.servers[a])
    ensures Exchanged(c, OnReturnAppend(d, c.sent + p), a, p)
  {
  }

  lemma ReturnNext(z: Run, d: Cluster, id: nat) returns (y: Run)
    requires EndsIn(z, d) && AppendAnswerable(d, id)
    ensures EndsIn(y, OnReturnAppend(d, id)) && GoesOn(z, y)
  {
    y := Grow(z, d, ReturnAppend(id));
  }

  lemma Exchange(r: Run, c: Cluster, a: nat, p: nat) returns (z: Run, d: Cluster, y: Run, e: Cluster)
    requires EndsIn(r, c) && Commands(c, a) && p < |c.servers| && p != a
    ensures EndsIn(z, d) && Delivered(c, d, a, p)
    ensures EndsIn(y, e) && GoesOn(r, y) && Exchanged(c, e, a, p)
  {
    z, d := Deliver(r, c, a, p);
    AnswerReturns(c, d, a, p);
    y := ReturnNext(z, d, c.sent + p);
    e := OnReturnAppend(d, c.sent + p);
    GoesOnAndOn(r, z, y);
  }

  // ---------- What it does ----------

  /** A follower of the term that accepts the leader's tail has the leader's log. */
  lemma TakesTail(s: Server, m: Log, l: Log, args: AppendArgs)
    requires s.log == m && s.currentTerm == args.term && 0 <= args.prevLogIndex < |l|
    requires args.prevLogTerm == l[args.prevLogIndex].term && args.entries == l[args.prevLogIndex + 1..]
    requires args.prevLogIndex < |m| && m[args.prevLogIndex].term == l[args.prevLogIndex].term ==>
               m[..args.prevLogIndex + 1] == l[..args.prevLogIndex + 1]
    ensures var (f, reply) := AppendEntries(s, args);
            && Trails(f, args.term) && reply.term == args.term
            && (if reply.success then f.log == l else f.log == m)
            && (reply.success ==> f.commitIndex >= args.leaderCommit)
            && (args.prevLogIndex < |m| && m[args.prevLogIndex].term == args.prevLogTerm ==> reply.success)
  {
    AcceptsIsSuccess(s, args);
    assert l[..args.prevLogIndex + 1] + l[args.prevLogIndex + 1..] == l;
  }

  lemma TailAgrees(r: Run, c: Cluster, a: nat, p: nat)
    requires EndsIn(r, c) && Commands(c, a) && p < |c.servers|
    requires Trails(c.servers[p], c.servers[a].currentTerm)
    ensures var l, m, args := c.servers[a].log, c.servers[p].log, RequestTo(c.servers[a], p);
            var (f, reply) := AppendEntries(c.servers[p], args);
            && Trails(f, c.servers[a].currentTerm) && reply.term == c.servers[a].currentTerm
            && (if reply.success then f.log == l else f.log == m)
            && (reply.success ==> f.commitIndex >= c.servers[a].commitIndex)
            && (m == l ==> reply.success)
  {
    var l, m, args := c.servers[a].log, c.servers[p].log, RequestTo(c.servers[a], p);
    var k := args.prevLogIndex;
    if k < |m| && m[k].term == l[k].term {
      LogMatching(r, |r.events|, |r.events|, p, a, k);
    }
    TakesTail(c.servers[p], m, l, args);
  }

  /** The leader after the exchange: it knows p to have everything, or looks further back. */
  ghost predicate Learned(s: Server, g: Server, p: nat, success: bool)
    requires p < |s.nextIndex| == |s.matchIndex|
  {
    && g.role == Leader && g.currentTerm == s.currentTerm && g.log == s.log && g.me == s.me
    && g.commitIndex >= s.commitIndex
    && (if success then
          g.matchIndex == s.matchIndex[p := |s.log| - 1] && g.nextIndex == s.nextIndex[p := |s.log|] && CommitsAll(g)
        else && g.matchIndex == s.matchIndex && |g.nextIndex| == |s.nextIndex|
             && (forall x :: 0 <= x < |s.nextIndex| && x != p ==> g.nextIndex[x] == s.nextIndex[x])
             && 0 < g.nextIndex[p] < s.nextIndex[p])
  }

  lemma LeaderLearns(z: Run, d: Cluster, id: nat)
    requires EndsIn(z, d) && AppendAnswerable(d, id)
    requires var call := d.appends[id];
             var s := d.servers[call.from];
             && s.role == Leader && call.args.term == s.currentTerm == call.reply.term
             && call.args.prevLogIndex == s.nextIndex[call.to] - 1
             && call.args.prevLogIndex + |call.args.entries| == |s.log| - 1
    ensures var call := d.appends[id];
            var s := d.servers[call.from];
            Learned(s, AppendAnswered(s, call.to, call.args, call.reply), call.to, call.reply.success)
  {
    var call := d.appends[id];
    if call.reply.success {
      AnswerCommits(z, |z.events|, id);
    } else {
      BacktrackingConverges(z, |z.events|, id);
    }
  }

  // ---------- Bringing the members up ----------

  /** The leader knows member p to have its whole log. */
  ghost predicate CaughtUp(c: Cluster, a: nat, p: nat) {
    && a < |c.servers| && p < |c.servers| && p < |c.servers[a].matchIndex| == |c.servers[a].nextIndex|
    && c.servers[p].log == c.servers[a].log
    && c.servers[a].matchIndex[p] == |c.servers[a].log| - 1 && c.servers[a].nextIndex[p] == |c.servers[a].log|
  }

  /** The members that are not in `todo` have the leader's log l. */
  ghost predicate Spreading(c: Cluster, q: set<nat>, a: nat, t: nat, l: Log, todo: set<nat>) {
    && Leads(c, q, a, t) && todo <= q && a !in todo && c.servers[a].log == l && l != [] && l[|l| - 1].term == t
    && (forall p {:trigger CaughtUp(c, a, p)} :: p in q && p !in todo && p != a ==> CaughtUp(c, a, p))
    && (todo == {} ==> c.servers[a].commitIndex >= |l| - 1)
  }

  /** What an exchange with p leaves as it was, and what it changes. */
  lemma ExchangeSpreads(c: Cluster, e: Cluster, q: set<nat>, a: nat, t: nat, l: Log, todo: set<nat>, p: nat, f: Server,
                        s: Server, g: Server, success: bool)
    requires Spreading(c, q, a, t, l, todo) && p in todo && Sound(c)
    requires s == StartReplication(c.servers[a]) && e.servers == c.servers[p := f][a := g]
    requires Learned(s, g, p, success) && Trails(f, t) && (success ==> f.log == l)
    ensures success ==> Spreading(e, q, a, t, l, todo - {p})
    ensures !success ==> Spreading(e, q, a, t, l, todo) && g.nextIndex[p] < c.servers[a].nextIndex[p]
    ensures e.servers[a] == g
  {
    assert s.log == l && s.currentTerm == t && s.nextIndex[p] == c.servers[a].nextIndex[p];
    forall x | x in q && x !in todo && x != a ensures CaughtUp(e, a, x) {
      assert CaughtUp(c, a, x);
    }
    if success {
      assert CaughtUp(e, a, p);
      if todo == {p} {
        AllReached(e, q, a, t, l);
      }
    }
  }

  /** With every member caught up, the last entry is committed. */
  lemma AllReached(e: Cluster, q: set<nat>, a: nat, t: nat, l: Log)
    requires Quorum(q, |e.servers|) && a in q && e.servers[a].log == l && l != [] && l[|l| - 1].term == t
    requires e.servers[a].currentTerm == t && |e.servers[a].matchIndex| == |e.servers| && CommitsAll(e.servers[a])
    requires e.servers[a].matchIndex[a] == |l| - 1
    requires forall p {:trigger CaughtUp(e, a, p)} :: p in q && p != a ==> CaughtUp(e, a, p)
    ensures e.servers[a].commitIndex >= |l| - 1
  {
    var m, k := e.servers[a].matchIndex, |l| - 1;
    forall p | p in q ensures p in Reached(m, k) {
      assert p != a ==> CaughtUp(e, a, p);
    }
    SubsetSize(q, Reached(m, k));
    assert Quorum(Reached(m, k), |m|);
  }

  /** One exchange with member p. */
  lemma OneExchange(r: Run, c: Cluster, q: set<nat>, a: nat, t: nat, l: Log, todo: set<nat>, p: nat)
    returns (y: Run, e: Cluster, success: bool)
    requires EndsIn(r, c) && Spreading(c, q, a, t, l, todo) && p in todo && Commands(c, a)
    ensures EndsIn(y, e) && GoesOn(r, y) && |e.servers| == |c.servers| && Commands(e, a)
    ensures success ==> Spreading(e, q, a, t, l, todo - {p})
    ensures !success ==> Spreading(e, q, a, t, l, todo) && e.servers[a].nextIndex[p] < c.servers[a].nextIndex[p]
  {
    var z, d;
    z, d, y, e := Exchange(r, c, a, p);
    var s, args := StartReplication(c.servers[a]), RequestTo(c.servers[a], p);
    var (f, reply) := AppendEntries(c.servers[p], args);
    success := reply.success;
    TailAgrees(r, c, a, p);
    AnswerReturns(c, d, a, p);
    LeaderLearns(z, d, c.sent + p);
    ExchangeSpreads(c, e, q, a, t, l, todo, p, f, s, AppendAnswered(s, p, args, reply), success);
    LeaderCommands(y, e, a);
  }

  /** Exchanges with p until it has everything. */
  lemma {:induction false} CatchUp(r: Run, c: Cluster, q: set<nat>, a: nat, t: nat, l: Log, todo: set<nat>, p: nat)
    returns (y: Run, e: Cluster)
    requires EndsIn(r, c) && Spreading(c, q, a, t, l, todo) && p in todo && Commands(c, a)
    ensures EndsIn(y, e) && GoesOn(r, y) && |e.servers| == |c.servers| && Commands(e, a)
    ensures Spreading(e, q, a, t, l, todo - {p})
    decreases c.servers[a].nextIndex[p]
  {
    var success;
    y, e, success := OneExchange(r, c, q, a, t, l, todo, p);
    if !success {
      var z := y;
      y, e := CatchUp(z, e, q, a, t, l, todo, p);
      GoesOnAndOn(r, z, y);
    }
  }

  lemma {:induction false} AllCatchUp(r: Run, c: Cluster, q: set<nat>, a: nat, t: nat, l: Log, todo: set<nat>)
    returns (y: Run, e: Cluster)
    requires EndsIn(r, c) && Spreading(c, q, a, t, l, todo) && Commands(c, a)
    ensures EndsIn(y, e) && GoesOn(r, y) && |e.servers| == |c.servers| && Commands(e, a)
    ensures Spreading(e, q, a, t, l, {})
    decreases |todo|
  {
    y, e := r, c;
    if todo != {} {
      var p := Pick(todo);
      y, e := CatchUp(r, c, q, a, t, l, todo, p);
      var z := y;
      y, e := AllCatchUp(z, e, q, a, t, l, todo - {p});
      GoesOnAndOn(r, z, y);
    }
  }

  // ---------- Letting the members know ----------

  /** The members that are not in `todo` know that the log is committed. */
  ghost predicate Telling(c: Cluster, q: set<nat>, a: nat, t: nat, l: Log, todo: set<nat>) {
    && Spreading(c, q, a, t, l, {}) && todo <= q && a !in todo
    && forall p {:trigger c.servers[p]} :: p in q && p !in todo ==> c.servers[p].commitIndex >= |l| - 1
  }

  lemma ExchangeTells(c: Cluster, e: Cluster, q: set<nat>, a: nat, t: nat, l: Log, todo: set<nat>, p: nat, f: Server,
                      s: Server, g: Server)
    requires Telling(c, q, a, t, l, todo) && p in todo && Sound(c)
    requires s == StartReplication(c.servers[a]) && e.servers == c.servers[p := f][a := g]
    requires Learned(s, g, p, true) && Trails(f, t) && f.log == l && f.commitIndex >= c.servers[a].commitIndex
    ensures Telling(e, q, a, t, l, todo - {p})
  {
    forall x | x in q && x != a ensures CaughtUp(e, a, x) {
      assert CaughtUp(c, a, x);
    }
  }

  lemma TellOne(r: Run, c: Cluster, q: set<nat>, a: nat, t: nat, l: Log, todo: set<nat>, p: nat)
    returns (y: Run, e: Cluster)
    requires EndsIn(r, c) && Telling(c, q, a, t, l, todo) && p in todo && Commands(c, a)
    ensures EndsIn(y, e) && GoesOn(r, y) && |e.servers| == |c.servers| && Commands(e, a)
    ensures Telling(e, q, a, t, l, todo - {p})
  {
    var z, d;
    z, d, y, e := Exchange(r, c, a, p);
    var s, args := StartReplication(c.servers[a]), RequestTo(c.servers[a], p);
    var (f, reply) := AppendEntries(c.servers[p], args);
    assert CaughtUp(c, a, p);
    TailAgrees(r, c, a, p);
    AnswerReturns(c, d, a, p);
    LeaderLearns(z, d, c.sent + p);
    ExchangeTells(c, e, q, a, t, l, todo, p, f, s, AppendAnswered(s, p, args, reply));
    LeaderCommands(y, e, a);
  }

  lemma {:induction false} TellAll(r: Run, c: Cluster, q: set<nat>, a: nat, t: nat, l: Log, todo: set<nat>)
    returns (y: Run, e: Cluster)
    requires EndsIn(r, c) && Telling(c, q, a, t, l, todo) && Commands(c, a)
    ensures EndsIn(y, e) && GoesOn(r, y) && |e.servers| == |c.servers| && Telling(e, q, a, t, l, {})
    decreases |todo|
  {
    y, e := r, c;
    if todo != {} {
      var p := Pick(todo);
      y, e := TellOne(r, c, q, a, t, l, todo, p);
      var z := y;
      y, e := TellAll(z, e, q, a, t, l, todo - {p});
      GoesOnAndOn(r, z, y);
    }
  }

  // ---------- Together ----------

  /** Every member of the majority has one log, ends it with x and counts all of it as committed. */
  ghost predicate AllHave(c: Cluster, q: set<nat>, l: Log, t: nat, x: Command) {
    && Members(q, c) && l != [] && l[|l| - 1] == LogEntry(t, Some(x))
    && forall p :: p in q ==> c.servers[p].log == l && c.servers[p].commitIndex >= |l| - 1
  }

  lemma Submitted(c: Cluster, q: set<nat>, a: nat, t: nat, x: Command)
    requires Leads(c, q, a, t) && |c.servers| >= 2
    ensures var d := OnSubmit(c, a, x);
            && d.servers[a].log == c.servers[a].log + [LogEntry(t, Some(x))]
            && Spreading(d, q, a, t, d.servers[a].log, q - {a})
  {
    var v := TwoMembers(q, |c.servers|, a);
    assert v in q - {a};
  }

  lemma Submits(r: Run, c: Cluster, a: nat, x: Command) returns (y: Run)
    requires EndsIn(r, c) && a < |c.servers|
    ensures EndsIn(y, OnSubmit(c, a, x)) && GoesOn(r, y)
  {
    y := Grow(r, c, Submit(a, x));
  }

  /** From every reachable state, any majority can commit any new command, and every member learns of it. */
  lemma MajorityCommits(r: Run, c: Cluster, q: set<nat>, x: Command)
    returns (z: Run, e: Cluster, a: nat, t: nat, l: Log)
    requires EndsIn(r, c) && Quorum(q, |c.servers|) && |c.servers| >= 2
    ensures EndsIn(z, e) && GoesOn(r, z) && Leads(e, q, a, t) && AllHave(e, q, l, t, x)
  {
    var u, b;
    u, b, a, t := MajorityElects(r, c, q);
    var v := Submits(u, b, a, x);
    var d := OnSubmit(b, a, x);
    Submitted(b, q, a, t, x);
    l := d.servers[a].log;
    LeaderCommands(v, d, a);
    var w, k := AllCatchUp(v, d, q, a, t, l, q - {a});
    z, e := TellAll(w, k, q, a, t, l, q - {a});
    GoesOnAndOn(r, u, v);
    GoesOnAndOn(r, v, w);
    GoesOnAndOn(r, w, z);
    forall p | p in q ensures e.servers[p].log == l {
      assert p != a ==> CaughtUp(e, a, p);
    }
  }

  // ---------- A cluster of one ----------

  /** A lone server asks nobody, so that nobody answers and it never leads. */
  lemma {:induction false} LoneServerNeverLeads(r: Run, k: nat)
    requires IsRun(r) && k < |r.states| && |r.states[0].servers| == 1
    ensures |r.states[k].servers| == 1 && r.states[k].servers[0].role != Leader && r.states[k].votes == map[]
  {
    if k > 0 {
      LoneServerNeverLeads(r, k - 1);
      LoneStep(r.states[k - 1], r.events[k - 1]);
      assert r.states[k] == Apply(r.states[k - 1], r.events[k - 1]);
    }
  }

  lemma LoneStep(c: Cluster, e: Event)
    requires Enabled(c, e) && |c.servers| == 1 && c.servers[0].role != Leader && c.votes == map[]
    ensures var d := Apply(c, e); |d.servers| == 1 && d.servers[0].role != Leader && d.votes == map[]
  {
    if e.Ask? {
      assert Requests(c.servers[0], 0, 1) == map[];
    }
  }
}
