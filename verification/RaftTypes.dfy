/** Values shared by the Raft modules: log entries, logs and majorities. */
module RaftTypes {
  import opened Sets

  /** A client command; Raft never looks inside it. */
  type Command(==, !new)

  datatype Option<+T> = None | Some(value: T)

  /** `command` is absent (CommandValid is false) only in the entry at index 0. */
  datatype LogEntry = LogEntry(term: nat, command: Option<Command>)

  /** Index 0 holds the placeholder entry, so a log is never empty. */
  type Log = seq<LogEntry>

  const INVALID_TERM: nat := 0
  const INVALID_INDEX: nat := 0
  const NO_VOTE := -1

  const Placeholder := LogEntry(INVALID_TERM, None)

  /** More than half of the servers 0, ..., n-1. */
  ghost predicate Quorum(q: set<nat>, n: nat) {
    && (forall i :: i in q ==> i < n)
    && 2 * |q| > n
  }

  /** Two majorities of the same cluster share a server. */
  lemma QuorumsMeet(a: set<nat>, b: set<nat>, n: nat) returns (i: nat)
    requires Quorum(a, n) && Quorum(b, n)
    ensures i in a && i in b
  {
    if a * b == {} {
      assert |a + b| == |a| + |b|;
      assert a + b <= Below(n);
      SubsetSize(a + b, Below(n));
      assert false;
    }
    i :| i in a * b;
  }
}
