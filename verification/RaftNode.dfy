/**
 A Raft server as the object that the source keeps: fields updated in place, arrays filled by loops.  Each
 method does to the object what the function of the same name in `RaftServer` does to its value.
 */
module RaftNode {
  import opened RaftTypes
  import opened Sorting
  import S = RaftServer

  class Raft {
    const me: nat
    var role: S.Role
    var currentTerm: nat
    var votedFor: int
    var log: Log
    const nextIndex: array<int>
    const matchIndex: array<int>
    var commitIndex: int
    var disk: Option<S.Persisted>
    var asking: bool
    var votes: nat

    ghost predicate Valid()
      reads this
    {
      && nextIndex != matchIndex
      && me < nextIndex.Length == matchIndex.Length
      && log != []
    }

    /** The object's value. */
    ghost function View(): S.Server
      reads this, nextIndex, matchIndex
    {
      S.Server(me, role, currentTerm, votedFor, log, nextIndex[..], matchIndex[..], commitIndex, disk, asking, votes)
    }

    /** Make: a fresh server takes over what the persister holds. */
    constructor (me: nat, peers: nat, saved: Option<S.Persisted>)
      requires me < peers
      requires saved.Some? ==> saved.value.log != []
      ensures Valid() && fresh(nextIndex) && fresh(matchIndex)
      ensures View() == S.Restart(S.Fresh(me, peers, saved))
    {
      this.me := me;
      role, currentTerm, votedFor, log := S.Follower, 1, NO_VOTE, [Placeholder];
      nextIndex := new int[peers](_ => 0);
      matchIndex := new int[peers](_ => 0);
      commitIndex, disk, asking, votes := 0, saved, false, 0;
      new;
      ReadPersist();
      assert nextIndex[..] == seq(peers, _ => 0) && matchIndex[..] == seq(peers, _ => 0);
    }

    method ReadPersist()
      modifies this
      ensures View() == (if old(disk).None? then old(View()) else
                           old(View()).(currentTerm := old(disk).value.currentTerm,
                                 votedFor := old(disk).value.votedFor,
                                        log := old(disk).value.log))
    {
      if disk.Some? {
        currentTerm := disk.value.currentTerm;
        votedFor := disk.value.votedFor;
        log := disk.value.log;
      }
    }

    method Persist()
      modifies this`disk
      ensures View() == S.Persist(old(View()))
    {
      disk := Some(S.Persisted(currentTerm, votedFor, log));
    }

    method BecomeFollower(term: nat)
      requires Valid()
      modifies this
      ensures Valid() && View() == S.BecomeFollower(old(View()), term)
    {
      if term < currentTerm {
        return;
      }
      role := S.Follower;
      var shouldPersist := currentTerm != term;
      if term > currentTerm {
        votedFor := NO_VOTE;
      }
      currentTerm := term;
      if shouldPersist {
        Persist();
      }
    }

    method BecomeCandidate()
      requires Valid()
      modifies this
      ensures Valid() && View() == S.BecomeCandidate(old(View()))
    {
      if role == S.Leader {
        return;
      }
      currentTerm := currentTerm + 1;
      role := S.Candidate;
      votedFor := me;
      Persist();
    }

    method BecomeLeader()
      requires Valid()
      modifies this, nextIndex, matchIndex
      ensures Valid() && View() == S.BecomeLeader(old(View()))
    {
      if role != S.Candidate {
        return;
      }
      role := S.Leader;
      ghost var size := |log|;
      for peer := 0 to nextIndex.Length
        invariant Valid() && View().(nextIndex := [], matchIndex := [],
              role := S.Candidate) == old(View()).(nextIndex := [], matchIndex := [])
        invariant role == S.Leader
        invariant forall k :: 0 <= k < peer ==> nextIndex[k] == |log| && matchIndex[k] == 0
      {
        nextIndex[peer] := |log|;
        matchIndex[peer] := 0;
      }
      assert nextIndex[..] == seq(nextIndex.Length, _ => size) && matchIndex[..] == seq(matchIndex.Length, _ => 0);
    }

    /** The body of the election ticker once the timer has run out. */
    method ElectionTimeout()
      requires Valid()
      modifies this
      ensures Valid() && View() == S.ElectionTimeout(old(View()))
    {
      if role != S.Leader {
        BecomeCandidate();
        asking, votes := true, 0;
      }
    }

    /** The election goroutine: every peer but this server is asked. */
    method StartElection() returns (calls: map<nat, S.VoteArgs>)
      requires Valid()
      modifies this
      ensures Valid() && View() == S.StartElection(old(View()))
      ensures role != S.Candidate ==> calls == map[]
      ensures role == S.Candidate ==>
                (forall p: nat :: p in calls <==> p < nextIndex.Length && p != me) && forall p :: p in calls ==>
                      calls[p] == S.VoteRequest(View())
    {
      calls := map[];
      asking := false;
      if role != S.Candidate {
        return;
      }
      votes := 0;
      var lastIdx, lastTerm := |log| - 1, log[|log| - 1].term;
      for peer := 0 to nextIndex.Length
        invariant Valid() && View().(votes := old(votes), asking := old(asking)) == old(View()) && !asking
        invariant votes == if me < peer then 1 else 0
        invariant forall p: nat :: p in calls <==> p < peer && p != me
        invariant forall p :: p in calls ==> calls[p] == S.VoteArgs(currentTerm, me, lastIdx, lastTerm)
      {
        if peer == me {
          votes := votes + 1;
        } else {
          calls := calls[peer := S.VoteArgs(currentTerm, me, lastIdx, lastTerm)];
        }
      }
    }

    method RequestVote(args: S.VoteArgs) returns (reply: S.VoteReply)
      requires Valid()
      modifies this
      ensures Valid() && (View(), reply) == S.RequestVote(old(View()), args)
    {
      reply := S.VoteReply(currentTerm, false);
      if args.term < currentTerm {
        return;
      }
      if args.term > currentTerm {
        BecomeFollower(args.term);
      }
      if votedFor != NO_VOTE {
        return;
      }
      if S.MoreUpToDate(log, args.lastLogIndex, args.lastLogTerm) {
        return;
      }
      reply := reply.(granted := true);
      votedFor := args.candidateId;
      Persist();
    }

    method VoteAnswered(term: nat, reply: S.VoteReply)
      requires Valid()
      modifies this, nextIndex, matchIndex
      ensures Valid() && View() == S.VoteAnswered(old(View()), term, reply)
    {
      if reply.term > currentTerm {
        BecomeFollower(reply.term);
        return;
      }
      if !(currentTerm == term && role == S.Candidate) {
        return;
      }
      if reply.granted {
        votes := votes + 1;
        if votes > nextIndex.Length / 2 {
          BecomeLeader();
        }
      }
    }

    method Start(command: Command) returns (index: int, term: nat, isLeader: bool)
      requires Valid()
      modifies this
      ensures Valid() && View() == S.Start(old(View()), command)
      ensures isLeader == (old(role) == S.Leader)
      ensures if isLeader then term == currentTerm && 0 < index == |log| - 1
            && log[index] == LogEntry(term, Some(command))
              else index == 0 && term == 0
    {
      if role != S.Leader {
        return 0, 0, false;
      }
      log := log + [LogEntry(currentTerm, Some(command))];
      Persist();
      return |log| - 1, currentTerm, true;
    }

    method FirstFor(term: nat) returns (r: nat)
      ensures r == S.FirstFor(log, term)
    {
      var i := 0;
      while i < |log|
        invariant 0 <= i <= |log| && S.FirstFor(log, term) == S.FirstFrom(log, term, i)
      {
        if log[i].term == term {
          return i;
        } else if log[i].term > term {
          break;
        }
        i := i + 1;
      }
      return INVALID_INDEX;
    }

    method AppendEntries(args: S.AppendArgs) returns (reply: S.AppendReply)
      requires Valid()
      modifies this
      ensures Valid() && (View(), reply) == S.AppendEntries(old(View()), args)
    {
      reply := S.AppendReply(currentTerm, false, 0, INVALID_TERM);
      if args.term < currentTerm {
        return;
      }
      BecomeFollower(args.term);
      if args.prevLogIndex >= |log| {
        reply := reply.(conflictTerm := INVALID_TERM, conflictIndex := |log|);
        return;
      }
      if args.prevLogIndex < 0 {
        return;
      }
      if log[args.prevLogIndex].term != args.prevLogTerm {
        var t := log[args.prevLogIndex].term;
        var first := FirstFor(t);
        reply := reply.(conflictTerm := t, conflictIndex := first);
        return;
      }
      log := log[..args.prevLogIndex + 1] + args.entries;
      Persist();
      reply := reply.(success := true);
      if args.leaderCommit > commitIndex {
        commitIndex := args.leaderCommit;
      }
    }

    /** One round: every peer but this server gets the rest of the log from its next index on. */
    method StartReplication() returns (calls: map<nat, S.AppendArgs>)
      requires Valid()
      requires role == S.Leader ==> forall p :: 0 <= p < nextIndex.Length ==> 1 <= nextIndex[p] <= |log|
      modifies nextIndex, matchIndex
      ensures Valid() && View() == S.StartReplication(old(View()))
      ensures role != S.Leader ==> calls == map[]
      ensures role == S.Leader ==>
                && (forall p: nat :: p in calls <==> p < nextIndex.Length && p != me)
                && forall p :: p in calls ==> S.ReplicationRequest(View(), p) == Some(calls[p])
    {
      calls := map[];
      if role != S.Leader {
        return;
      }
      ghost var before := nextIndex[..];
      for peer := 0 to nextIndex.Length
        invariant nextIndex[..] == (if me < peer then before[me := |log|] else before)
        invariant matchIndex[..] == (if me < peer then old(matchIndex[..])[me := |log| - 1] else old(matchIndex[..]))
        invariant forall p: nat :: p in calls <==> p < peer && p != me
        invariant forall p :: p in calls ==> S.ReplicationRequest(old(View()), p) == Some(calls[p])
      {
        assert nextIndex[..][peer] == before[peer];
        if peer == me {
          matchIndex[peer] := |log| - 1;
          nextIndex[peer] := |log|;
        } else {
          var prev := nextIndex[peer] - 1;
          calls := calls[peer := S.AppendArgs(currentTerm, me, prev, log[prev].term, log[prev + 1..], commitIndex)];
        }
      }
    }

    method GetMajorityIndex() returns (r: int)
      requires Valid()
      ensures r == S.MajorityIndex(matchIndex[..])
    {
      var tmpIndexes := Sorted(matchIndex[..]);
      return tmpIndexes[(matchIndex.Length - 1) / 2];
    }

    method AppendAnswered(peer: nat, args: S.AppendArgs, reply: S.AppendReply)
      requires Valid() && peer < nextIndex.Length
      modifies this, nextIndex, matchIndex
      ensures Valid() && View() == S.AppendAnswered(old(View()), peer, args, reply)
    {
      if reply.term > currentTerm {
        BecomeFollower(reply.term);
        return;
      }
      if !(currentTerm == args.term && role == S.Leader) {
        return;
      }
      if !reply.success {
        var prevIndex := nextIndex[peer];
        if reply.conflictTerm == INVALID_TERM {
          nextIndex[peer] := reply.conflictIndex;
        } else {
          var firstIndex := FirstFor(reply.conflictTerm);
          if firstIndex != INVALID_INDEX {
            nextIndex[peer] := firstIndex;
          } else {
            nextIndex[peer] := reply.conflictIndex;
          }
        }
        if nextIndex[peer] > prevIndex {
          nextIndex[peer] := prevIndex;
        }
        assert nextIndex[..] == old(nextIndex[..])[peer := nextIndex[peer]];
        return;
      }
      matchIndex[peer] := args.prevLogIndex + |args.entries|;
      nextIndex[peer] := matchIndex[peer] + 1;
      assert matchIndex[..] == old(matchIndex[..])[peer := matchIndex[peer]];
      assert nextIndex[..] == old(nextIndex[..])[peer := nextIndex[peer]];
      var majorityMatched := GetMajorityIndex();
      if majorityMatched > commitIndex && 0 <= majorityMatched < |log| && log[majorityMatched].term == currentTerm {
        commitIndex := majorityMatched;
      }
    }
  }
}
