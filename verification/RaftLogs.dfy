/** What log lookups and replacements mean for canonical logs. */
module RaftLogs {
  import opened RaftTypes
  import opened RaftServer
  import opened RaftProtocol
  import opened RaftInvariant

  lemma {:induction false} FirstFromFinds(l: Log, t: nat, i: nat, f: nat)
    requires i <= f < |l| && l[f].term == t && forall x :: i <= x < f ==> l[x].term < t
    ensures FirstFrom(l, t, i) == f
    decreases f - i
  {
    if i < f {
      FirstFromFinds(l, t, i + 1, f);
    }
  }

  lemma {:induction false} FirstFromSound(l: Log, t: nat, i: nat)
    requires i <= |l|
    ensures var f := FirstFrom(l, t, i); f != INVALID_INDEX ==> i <= f < |l| && l[f].term == t
    decreases |l| - i
  {
    if i < |l| && l[i].term < t {
      FirstFromSound(l, t, i + 1);
    }
  }

  /** In every log that has entries of term t they begin where the leader of t took over. */
  lemma FirstForPresent(p: Protocol, l: Log, t: nat, j: nat)
    requires Base(p) && Canonical(l, p.elections) && 1 <= j < |l| && l[j].term == t
    ensures t in p.elections && FirstFor(l, t) == |p.elections[t].first| && 1 <= |p.elections[t].first| <= j
  {
    assert Rooted(l, j, p.elections);
    assert ElectionOk(p, t);
    var e := p.elections[t];
    assert TermsBelow(e.first, t);
    forall x | 0 <= x <= j ensures l[x] == e.log[x] {
      assert l[x] == l[..j + 1][x] == e.log[..j + 1][x];
    }
    forall x | 0 <= x < |e.first| && x <= j ensures l[x].term < t {
      assert e.first[x] == e.log[x];
    }
    FirstFromFinds(l, t, 0, |e.first|);
  }

  lemma FirstForAgrees(p: Protocol, l: Log, t: nat)
    requires Base(p) && Canonical(l, p.elections) && t in p.elections
    ensures FirstFor(l, t) == INVALID_INDEX || FirstFor(l, t) == |p.elections[t].first|
  {
    FirstFromSound(l, t, 0);
    if FirstFor(l, t) != INVALID_INDEX {
      FirstForPresent(p, l, t, FirstFor(l, t));
    }
  }

  /** Section 5.3, the consistency check: once it passes, follower and leader agree through the end of the request. */
  lemma AppendAgrees(p: Protocol, l: Log, from: nat, args: AppendArgs)
    requires Base(p) && Canonical(l, p.elections) && ArgsOk(p, from, args)
    requires args.prevLogIndex < |l| && l[args.prevLogIndex].term == args.prevLogTerm
    ensures l[..args.prevLogIndex + 1] + args.entries
         == p.elections[args.term].log[..args.prevLogIndex + |args.entries| + 1]
  {
    var e, k := p.elections[args.term], args.prevLogIndex;
    assert ElectionOk(p, args.term);
    assert l[..k + 1] == e.log[..k + 1] by {
      if k == 0 {
        assert l[..1] == [Placeholder] == e.log[..1];
      } else {
        assert Rooted(l, k, p.elections) && Rooted(e.log, k, p.elections);
      }
    }
    assert e.log[..k + 1] + e.log[k + 1..k + |args.entries| + 1] == e.log[..k + |args.entries| + 1];
  }

  /** A rejected request tells its leader where the follower's conflicting term began. */
  lemma RejectionOk(p: Protocol, s: Server, to: nat, from: nat, args: AppendArgs)
    requires Base(p) && Canonical(s.log, p.elections) && ArgsOk(p, from, args)
    requires !AppendEntries(s, args).1.success
    ensures AppendReplyOk(p, to, args, AppendEntries(s, args).1)
  {
    var reply, k := AppendEntries(s, args).1, args.prevLogIndex;
    if args.term >= s.currentTerm && k < |s.log| {
      assert ElectionOk(p, args.term);
      FirstForPresent(p, s.log, s.log[k].term, k);
    }
  }

  /**
   The leader's two ways of backtracking are one: if it has the conflicting term at all, it has it from
   the very index that the follower named.  So the next probe starts strictly before the rejected one.
   */
  lemma BacktrackIsConflictIndex(p: Protocol, l: Log, to: nat, args: AppendArgs, reply: AppendReply, next: int)
    requires Base(p) && Canonical(l, p.elections)
    requires AppendReplyOk(p, to, args, reply) && !reply.success && reply.term <= args.term
    ensures Backtrack(l, next, reply) == (if reply.conflictIndex > next then next else reply.conflictIndex)
    ensures next == args.prevLogIndex + 1 ==> 1 <= Backtrack(l, next, reply) < next
  {
    if reply.conflictTerm != INVALID_TERM {
      FirstForAgrees(p, l, reply.conflictTerm);
    }
  }
}
