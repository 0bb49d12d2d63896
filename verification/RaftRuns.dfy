/** Going on from the end of a run. */
module RaftRuns {
  import opened RaftTypes
  import opened RaftServer
  import opened RaftCluster
  import opened RaftProtocol
  import opened RaftInvariant
  import opened RaftTheorems

  predicate IsCrash(e: Event) {
    e.Crash? || e.CrashInVote? || e.CrashInAppend?
  }

  /** Run q goes on where r ends, without a crash, and in order if r was. */
  ghost predicate GoesOn(r: Run, q: Run) {
    && IsRun(r) && IsRun(q) && r.states <= q.states && r.events <= q.events
    && (forall j {:trigger q.events[j]} :: |r.events| <= j < |q.events| ==> !IsCrash(q.events[j]))
    && (InOrder(r) ==> InOrder(q))
  }

  lemma GoesOnAndOn(r: Run, q: Run, p: Run)
    requires GoesOn(r, q) && GoesOn(q, p)
    ensures GoesOn(r, p)
  {
    forall j | |r.events| <= j < |p.events| ensures !IsCrash(p.events[j]) {
      assert j < |q.events| ==> p.events[j] == q.events[j];
    }
  }

  ghost function One(r: Run, e: Event): Run
    requires IsRun(r) && Enabled(r.states[|r.events|], e)
  {
    Run(r.states + [Apply(r.states[|r.events|], e)], r.events + [e])
  }

  lemma OneIsRun(r: Run, e: Event)
    requires IsRun(r) && Enabled(r.states[|r.events|], e)
    ensures IsRun(One(r, e))
  {
    var q := One(r, e);
    forall k | 0 <= k < |q.events|
      ensures Enabled(q.states[k], q.events[k]) && q.states[k + 1] == Apply(q.states[k], q.events[k])
    {
      if k < |r.events| {
        assert q.states[k] == r.states[k] && q.events[k] == r.events[k] && q.states[k + 1] == r.states[k + 1];
      }
    }
  }

  /** Every request delivered so far has a lower number. */
  ghost predicate AllBelow(r: Run, s: nat) {
    forall i {:trigger r.events[i]} :: 0 <= i < |r.events| && r.events[i].DeliverAppend? ==> r.events[i].id < s
  }

  lemma DeliveredBelow(r: Run)
    requires IsRun(r)
    ensures AllBelow(r, r.states[|r.events|].sent)
  {
    var h := HistoriesExist(r);
    forall i | 0 <= i < |r.events| && r.events[i].DeliverAppend? ensures r.events[i].id < r.states[|r.events|].sent {
      assert ClusterBase(r.states[i], h[i]);
      assert Enabled(r.states[i], r.events[i]);
      var id := r.events[i].id;
      assert AppendCallOk(h[i], |r.states[i].servers|, r.states[i].appends[id]);
      SentGrows(r, i, |r.events|);
    }
  }

  lemma OneInOrder(r: Run, e: Event)
    requires IsRun(r) && Enabled(r.states[|r.events|], e) && IsRun(One(r, e)) && InOrder(r)
    requires e.DeliverAppend? ==> AllBelow(r, e.id)
    ensures InOrder(One(r, e))
  {
    var q := One(r, e);
    forall i: nat, j: nat | i < j < |q.events| && q.events[i].DeliverAppend? && q.events[j].DeliverAppend?
      && SameLink(q.states[i].appends[q.events[i].id], q.states[j].appends[q.events[j].id])
      ensures q.events[i].id < q.events[j].id
    {
      assert q.events[i] == r.events[i] && q.states[i] == r.states[i];
      if j < |r.events| {
        assert q.events[j] == r.events[j] && q.states[j] == r.states[j];
      }
    }
  }

  /** One more event. */
  lemma Grow(r: Run, c: Cluster, e: Event) returns (q: Run)
    requires EndsIn(r, c) && Enabled(c, e) && !IsCrash(e) && (e.DeliverAppend? ==> AllBelow(r, e.id))
    ensures EndsIn(q, Apply(c, e)) && GoesOn(r, q)
    ensures !e.DeliverAppend? ==> forall s: nat :: AllBelow(r, s) ==> AllBelow(q, s)
  {
    q := One(r, e);
    OneIsRun(r, e);
    if InOrder(r) {
      OneInOrder(r, e);
    }
  }

  // ---------- What every reachable state has ----------

  ghost predicate Sound(c: Cluster) {
    forall i {:trigger c.servers[i]} :: 0 <= i < |c.servers| ==>
      && c.servers[i].me == i && |c.servers[i].nextIndex| == |c.servers[i].matchIndex| == |c.servers|
      && c.servers[i].log != []
  }

  lemma RunIsSound(r: Run, c: Cluster)
    requires EndsIn(r, c)
    ensures Sound(c)
  {
    var h := HistoriesExist(r);
    forall i | 0 <= i < |c.servers|
      ensures c.servers[i].me == i && |c.servers[i].nextIndex| == |c.servers[i].matchIndex| == |c.servers|
      ensures c.servers[i].log != []
    {
      ServerAt(r, h, |r.events|, i);
    }
  }
}
