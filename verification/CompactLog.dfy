/**
 The log with its head cut off by snapshots, and why it stands for the whole log.  The entry at
 `snapLastIdx` keeps only its term.
 */
module CompactLog {
  import opened RaftTypes
  import opened RaftServer

  /** What the snapshot holds is the service's business. */
  type Bytes = seq<int>

  datatype Compact = Compact(snapLastIdx: nat, snapLastTerm: nat, snapshot: Bytes, tail: Log)

  ghost predicate Valid(c: Compact) {
    c.tail != [] && c.tail[0].term == c.snapLastTerm
  }

  function Size(c: Compact): nat {
    c.snapLastIdx + |c.tail|
  }

  /** The logical indices that can be looked up; any other makes `idx` panic. */
  predicate Kept(c: Compact, i: int) {
    c.snapLastIdx <= i < Size(c)
  }

  function At(c: Compact, i: int): LogEntry
    requires Kept(c, i)
  {
    c.tail[i - c.snapLastIdx]
  }

  function Tail(c: Compact, start: int): Log
    requires c.snapLastIdx <= start
  {
    if start >= Size(c) then [] else c.tail[start - c.snapLastIdx..]
  }

  function Append(c: Compact, e: LogEntry): Compact {
    c.(tail := c.tail + [e])
  }

  function AppendFrom(c: Compact, prev: int, entries: Log): Compact
    requires Kept(c, prev)
  {
    c.(tail := c.tail[..prev - c.snapLastIdx + 1] + entries)
  }

  function DoSnapshot(c: Compact, index: int, snapshot: Bytes): Compact
    requires Kept(c, index)
  {
    var term := At(c, index).term;
    Compact(index, term, snapshot, [LogEntry(term, None)] + c.tail[index - c.snapLastIdx + 1..])
  }

  /** The first kept index of `term` at or after position k; 0 if a higher term or the end comes first. */
  function FirstOf(c: Compact, term: nat, k: nat): nat
    requires k <= |c.tail|
    decreases |c.tail| - k
  {
    if k == |c.tail| || c.tail[k].term > term then INVALID_INDEX
    else if c.tail[k].term == term then k + c.snapLastIdx
    else FirstOf(c, term, k + 1)
  }

  // ---------- Standing for the whole log ----------

  /** From snapLastIdx on, the compacted log has the entries of the whole one, except for one command. */
  ghost predicate StandsFor(c: Compact, whole: Log) {
    && Valid(c) && Size(c) == |whole|
    && (forall i {:trigger whole[i]} :: Kept(c, i) ==> At(c, i).term == whole[i].term)
    && (forall i {:trigger whole[i]} :: Kept(c, i) && i > c.snapLastIdx ==> At(c, i) == whole[i])
  }

  /** The end of the log and everything after snapLastIdx read the same. */
  lemma ReadsAgree(c: Compact, whole: Log, start: int)
    requires StandsFor(c, whole) && c.snapLastIdx < start
    ensures c.snapLastIdx + |c.tail| - 1 == |whole| - 1 && c.tail[|c.tail| - 1].term == whole[|whole| - 1].term
    ensures Tail(c, start) == if start >= |whole| then [] else whole[start..]
  {
    if start < |whole| {
      forall j | 0 <= j < |whole| - start ensures Tail(c, start)[j] == whole[start..][j] {
        assert whole[start + j] == At(c, start + j);
      }
    }
    assert At(c, |whole| - 1).term == whole[|whole| - 1].term;
  }

  lemma AppendAgrees(c: Compact, whole: Log, e: LogEntry)
    requires StandsFor(c, whole)
    ensures StandsFor(Append(c, e), whole + [e])
  {
    var d, w := Append(c, e), whole + [e];
    forall i | Kept(d, i) ensures At(d, i).term == w[i].term && (i > d.snapLastIdx ==> At(d, i) == w[i]) {
      assert i < |whole| ==> w[i] == whole[i] && At(d, i) == At(c, i);
    }
  }

  lemma AppendFromAgrees(c: Compact, whole: Log, prev: int, entries: Log)
    requires StandsFor(c, whole) && Kept(c, prev)
    ensures StandsFor(AppendFrom(c, prev, entries), whole[..prev + 1] + entries)
  {
    var d, w := AppendFrom(c, prev, entries), whole[..prev + 1] + entries;
    assert d.tail[0] == c.tail[0];
    forall i | Kept(d, i) ensures At(d, i).term == w[i].term && (i > d.snapLastIdx ==> At(d, i) == w[i]) {
      if i <= prev {
        assert w[i] == whole[i] && At(d, i) == At(c, i);
      }
    }
  }

  lemma SnapshotAgrees(c: Compact, whole: Log, index: int, snapshot: Bytes)
    requires StandsFor(c, whole) && Kept(c, index)
    ensures StandsFor(DoSnapshot(c, index, snapshot), whole)
  {
    var d := DoSnapshot(c, index, snapshot);
    forall i | Kept(d, i) ensures At(d, i).term == whole[i].term && (i > d.snapLastIdx ==> At(d, i) == whole[i]) {
      assert At(c, i).term == whole[i].term;
      assert i > index ==> At(d, i) == At(c, i);
    }
  }

  // ---------- The first index of a term ----------

  ghost predicate TermsAscend(log: Log) {
    forall i, j :: 0 <= i <= j < |log| ==> log[i].term <= log[j].term
  }

  lemma {:induction false} FirstRange(log: Log, term: nat, i: nat)
    requires i <= |log|
    ensures FirstFrom(log, term, i) == INVALID_INDEX || i <= FirstFrom(log, term, i) < |log|
    decreases |log| - i
  {
    if i < |log| && log[i].term < term {
      FirstRange(log, term, i + 1);
    }
  }

  /** A search that begins later finds the same index if that is not too early, else where it began or nothing. */
  lemma {:induction false} FirstSkips(log: Log, term: nat, i: nat, k: nat)
    requires TermsAscend(log) && i <= k < |log|
    ensures var f := FirstFrom(log, term, i);
            FirstFrom(log, term, k) == if f >= k then f else if log[k].term == term then k else INVALID_INDEX
    decreases k - i
  {
    if i < k && log[i].term < term {
      FirstSkips(log, term, i + 1, k);
    } else if i < k {
      assert log[i].term <= log[k].term;
    } else {
      FirstRange(log, term, k);
    }
  }

  lemma {:induction false} FirstShifts(c: Compact, whole: Log, term: nat, k: nat)
    requires StandsFor(c, whole) && k <= |c.tail|
    ensures FirstOf(c, term, k) == FirstFrom(whole, term, k + c.snapLastIdx)
    decreases |c.tail| - k
  {
    if k < |c.tail| {
      assert At(c, k + c.snapLastIdx).term == whole[k + c.snapLastIdx].term;
      FirstShifts(c, whole, term, k + 1);
    }
  }

  /** Where the whole log's answer was cut off, the search answers snapLastIdx if that entry has the term, else 0. */
  lemma FirstForAgrees(c: Compact, whole: Log, term: nat)
    requires StandsFor(c, whole) && TermsAscend(whole)
    ensures var f := FirstFor(whole, term);
            FirstOf(c, term, 0) ==
              if f >= c.snapLastIdx then f else if c.snapLastTerm == term then c.snapLastIdx else INVALID_INDEX
  {
    FirstShifts(c, whole, term, 0);
    FirstSkips(whole, term, 0, c.snapLastIdx);
    assert At(c, c.snapLastIdx).term == whole[c.snapLastIdx].term;
  }

  // ---------- Every run ----------

  /** A server's log, what it saved of it, and its commit index. */
  datatype Node = Node(log: Compact, commit: int, disk: Compact)

  /** The same without compaction. */
  datatype Whole = Whole(log: Log, disk: Log)

  datatype Action =
    | Add(e: LogEntry)
    | Accept(prev: int, entries: Log)
    | Commit(index: int)
    | TakeSnapshot(index: int, snapshot: Bytes)
    | Save
    | Crash

  const Start := Compact(0, 0, [], [Placeholder])

  /**
   The guards of the callers: a request is accepted only at an index that is kept, and never cuts off a
   committed entry; only entries that exist are committed.
   */
  ghost predicate Legal(x: Node, a: Action) {
    match a
    case Accept(prev, entries) => Kept(x.log, prev) && prev + |entries| >= x.commit
    case Commit(index) => x.commit <= index < Size(x.log)
    case _ => true
  }

  /** The two guards of Snapshot. */
  predicate SnapshotDue(x: Node, index: int) {
    x.log.snapLastIdx < index <= x.commit
  }

  ghost predicate NodeOk(x: Node) {
    Valid(x.log) && Valid(x.disk) && x.log.snapLastIdx <= x.commit < Size(x.log)
  }

  ghost function Do(x: Node, a: Action): Node
    requires NodeOk(x) && Legal(x, a)
  {
    match a
    case Add(e) => x.(log := Append(x.log, e))
    case Accept(prev, entries) => x.(log := AppendFrom(x.log, prev, entries))
    case Commit(index) => x.(commit := index)
    case TakeSnapshot(index, snapshot) =>
      if SnapshotDue(x, index) then var log := DoSnapshot(x.log, index, snapshot); x.(log := log, disk := log) else x
    case Save => x.(disk := x.log)
    case Crash => Node(x.disk, x.disk.snapLastIdx, x.disk)
  }

  ghost function DoWhole(w: Whole, x: Node, a: Action): Whole
    requires Legal(x, a) && |w.log| == Size(x.log)
  {
    match a
    case Add(e) => w.(log := w.log + [e])
    case Accept(prev, entries) => w.(log := w.log[..prev + 1] + entries)
    case TakeSnapshot(index, _) => if SnapshotDue(x, index) then w.(disk := w.log) else w
    case Save => w.(disk := w.log)
    case Crash => w.(log := w.disk)
    case Commit(_) => w
  }

  ghost predicate Twins(x: Node, w: Whole) {
    NodeOk(x) && StandsFor(x.log, w.log) && StandsFor(x.disk, w.disk)
  }

  lemma DoKeepsTwins(x: Node, w: Whole, a: Action)
    requires Twins(x, w) && Legal(x, a)
    ensures Twins(Do(x, a), DoWhole(w, x, a))
  {
    match a
    case Add(e) => AppendAgrees(x.log, w.log, e);
    case Accept(prev, entries) => AppendFromAgrees(x.log, w.log, prev, entries);
    case TakeSnapshot(index, snapshot) =>
      if SnapshotDue(x, index) {
        SnapshotAgrees(x.log, w.log, index, snapshot);
      }
    case _ =>
  }

  ghost predicate IsRun(xs: seq<Node>, ws: seq<Whole>, actions: seq<Action>) {
    && |xs| == |ws| == |actions| + 1 && xs[0] == Node(Start, 0, Start) && ws[0] == Whole([Placeholder], [Placeholder])
    && forall i {:trigger actions[i]} :: 0 <= i < |actions| ==>
         (NodeOk(xs[i]) && |ws[i].log| == Size(xs[i].log) ==>
           Legal(xs[i], actions[i]) && xs[i + 1] == Do(xs[i], actions[i])
                 && ws[i + 1] == DoWhole(ws[i], xs[i], actions[i]))
  }

  /** Along every run, with crashes and snapshots anywhere, the compacted log stands for the whole one. */
  lemma {:induction false} CompactionRefines(xs: seq<Node>, ws: seq<Whole>, actions: seq<Action>, k: nat)
    requires IsRun(xs, ws, actions) && k < |xs|
    ensures Twins(xs[k], ws[k])
  {
    if k > 0 {
      CompactionRefines(xs, ws, actions, k - 1);
      assert Legal(xs[k - 1], actions[k - 1]);
      DoKeepsTwins(xs[k - 1], ws[k - 1], actions[k - 1]);
    }
  }

  /** A snapshot that the guards let through never makes `idx` panic. */
  lemma SnapshotNeverPanics(xs: seq<Node>, ws: seq<Whole>, actions: seq<Action>, k: nat, index: int)
    requires IsRun(xs, ws, actions) && k < |xs| && SnapshotDue(xs[k], index)
    ensures Kept(xs[k].log, index)
  {
    CompactionRefines(xs, ws, actions, k);
  }

  // ---------- The log's own methods ----------

  class RaftLog {
    var snapLastIdx: nat
    var snapLastTerm: nat
    var snapshot: Bytes
    var tailLog: Log

    ghost function View(): Compact
      reads this
    {
      Compact(snapLastIdx, snapLastTerm, snapshot, tailLog)
    }

    constructor (snapLastIdx: nat, snapLastTerm: nat, snapshot: Bytes, entries: Log)
      ensures View() == Compact(snapLastIdx, snapLastTerm, snapshot, [LogEntry(snapLastTerm, None)] + entries)
      ensures Valid(View())
    {
      this.snapLastIdx, this.snapLastTerm, this.snapshot := snapLastIdx, snapLastTerm, snapshot;
      tailLog := [LogEntry(snapLastTerm, None)];
      tailLog := tailLog + entries;
    }

    /** The two halves of a crash: what Persist returns, ReadPersist brings back. */
    method Persist() returns (state: (nat, nat, Log), image: Bytes)
      ensures Compact(state.0, state.1, image, state.2) == View()
    {
      return (snapLastIdx, snapLastTerm, tailLog), snapshot;
    }

    method ReadPersist(state: (nat, nat, Log), image: Bytes)
      modifies this
      ensures View() == Compact(state.0, state.1, image, state.2)
    {
      snapLastIdx := state.0;
      snapLastTerm := state.1;
      tailLog := state.2;
      snapshot := image;
    }

    method Idx(logicIdx: int) returns (i: nat)
      requires Kept(View(), logicIdx)
      ensures i < |tailLog| && tailLog[i] == At(View(), logicIdx) && i == logicIdx - snapLastIdx
    {
      return logicIdx - snapLastIdx;
    }

    method Last() returns (index: int, term: nat)
      requires Valid(View())
      ensures index == Size(View()) - 1 && term == At(View(), index).term
    {
      var i := |tailLog| - 1;
      return snapLastIdx + i, tailLog[i].term;
    }

    method FindFirst(term: nat) returns (r: nat)
      ensures r == FirstOf(View(), term, 0)
    {
      for i := 0 to |tailLog|
        invariant FirstOf(View(), term, 0) == FirstOf(View(), term, i)
      {
        if tailLog[i].term == term {
          return i + snapLastIdx;
        } else if tailLog[i].term > term {
          break;
        }
      }
      return INVALID_INDEX;
    }

    method TailFrom(start: int) returns (r: Log)
      requires snapLastIdx <= start
      ensures r == Tail(View(), start)
    {
      if start >= snapLastIdx + |tailLog| {
        return [];
      }
      var i := Idx(start);
      return tailLog[i..];
    }

    method Push(e: LogEntry)
      modifies this`tailLog
      ensures View() == Append(old(View()), e)
    {
      tailLog := tailLog + [e];
    }

    method Replace(prev: int, entries: Log)
      requires Kept(View(), prev)
      modifies this`tailLog
      ensures View() == AppendFrom(old(View()), prev, entries)
    {
      var i := Idx(prev);
      tailLog := tailLog[..i + 1] + entries;
    }

    method CutAt(index: int, data: Bytes)
      requires Kept(View(), index)
      modifies this
      ensures View() == DoSnapshot(old(View()), index, data)
    {
      var i := Idx(index);
      snapLastIdx := index;
      snapLastTerm := tailLog[i].term;
      snapshot := data;
      tailLog := [LogEntry(snapLastTerm, None)] + tailLog[i + 1..];
    }

    /** The server's entry point, with its two guards. */
    method TakeSnapshot(commitIndex: int, index: int, data: Bytes)
      requires commitIndex < Size(View())
      modifies this
      ensures View() == if old(snapLastIdx) < index <= commitIndex then DoSnapshot(old(View()), index,
            data) else old(View())
    {
      if index > commitIndex {
        return;
      }
      if index <= snapLastIdx {
        return;
      }
      CutAt(index, data);
    }
  }
}
