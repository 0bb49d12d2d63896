/**
 What a replica of the key/value store makes of the messages Raft delivers.  Raft's log is fixed; a message
 carries one command of it or a snapshot of a prefix.
 */
module KvReplay {
  import KeyValues
  import opened KvOps

  datatype Store = Store(kv: Table, dup: DupTable)

  const Blank := Store(map[], map[])

  /** One command of the log: a write that is not new changes nothing and repeats the old reply. */
  function ApplyOp(s: Store, op: Op): (Store, Reply) {
    if op.Get? then (s, Lookup(s.kv, op.key))
    else if Duplicated(s.dup, op.client, op.seqId) then (s, s.dup[op.client].reply)
    else (Store(Write(s.kv, op), s.dup[op.client := Last(op.seqId, Reply("", OK))]), Reply("", OK))
  }

  /** The store after the first k commands; log index i is at position i - 1. */
  function Fold(log: seq<Op>, k: nat): Store
    requires k <= |log|
  {
    if k == 0 then Blank else ApplyOp(Fold(log, k - 1), log[k - 1]).0
  }

  datatype Image = NoImage | Image(store: Store)

  datatype Message = Command(index: int, op: Op) | Snapshot(index: int, image: Image)

  datatype Replica = Replica(lastApplied: int, store: Store)

  function Restore(s: Store, image: Image): Store {
    match image
    case NoImage => s
    case Image(t) => t
  }

  function Receive(r: Replica, m: Message): Replica {
    match m
    case Command(i, op) => if i <= r.lastApplied then r else Replica(i, ApplyOp(r.store, op).0)
    case Snapshot(i, image) => Replica(i, Restore(r.store, image))
  }

  /** A restart reads the snapshot on disk, which ends at `index`; the replica does not remember where. */
  datatype Event = Deliver(m: Message) | Restart(index: int, image: Image)

  function Next(r: Replica, e: Event): Replica {
    match e
    case Deliver(m) => Receive(r, m)
    case Restart(_, image) => Replica(0, Restore(Blank, image))
  }

  // ---------- Deduplication ----------

  /** The command at position j is a write that no earlier write of its client makes old. */
  ghost predicate Fresh(log: seq<Op>, j: nat)
    requires j < |log|
  {
    !log[j].Get? && forall i :: 0 <= i < j && !log[i].Get? && log[i].client == log[j].client ==>
          log[i].seqId < log[j].seqId
  }

  /** The fresh writes among the first k commands, in order. */
  ghost function FreshEdits(log: seq<Op>, k: nat): seq<KeyValues.Edit>
    requires k <= |log|
  {
    if k == 0 then []
    else FreshEdits(log, k - 1) + [if Fresh(log, k - 1) then EditOf(log[k - 1]) else KeyValues.Other]
  }

  ghost predicate SeenAt(log: seq<Op>, i: int, client: int, seqId: int) {
    0 <= i < |log| && !log[i].Get? && log[i].client == client && seqId <= log[i].seqId
  }

  /** The table knows exactly the writes that some command so far makes old. */
  lemma {:induction false} TableIsExact(log: seq<Op>, k: nat, client: int, seqId: int)
    requires k <= |log|
    ensures Duplicated(Fold(log, k).dup, client, seqId) <==> exists i :: i < k && SeenAt(log, i, client, seqId)
  {
    if k > 0 {
      TableIsExact(log, k - 1, client, seqId);
      var op := log[k - 1];
      if !op.Get? {
        TableIsExact(log, k - 1, op.client, op.seqId);
        var newest := op.seqId;
        if op.client == client && !Duplicated(Fold(log, k - 1).dup, client, newest) {
          assert seqId <= newest ==> SeenAt(log, k - 1, client, seqId);
          assert forall i :: i < k - 1 && SeenAt(log, i, client, seqId) && seqId > newest ==>
                SeenAt(log, i, client, newest);
        }
        if Duplicated(Fold(log, k - 1).dup, op.client, op.seqId) && SeenAt(log, k - 1, client, seqId) {
          var i :| i < k - 1 && SeenAt(log, i, op.client, op.seqId);
          assert SeenAt(log, i, client, seqId);
        }
      }
    }
  }

  /** A key holds the last value put to it by a fresh write, followed by what fresh writes have appended since. */
  lemma {:induction false} FoldDeduplicates(log: seq<Op>, k: nat)
    requires k <= |log|
    ensures Reflects(Fold(log, k).kv, FreshEdits(log, k))
  {
    if k == 0 {
      BlankReflects();
    } else {
      FoldDeduplicates(log, k - 1);
      var op := log[k - 1];
      if !op.Get? {
        TableIsExact(log, k - 1, op.client, op.seqId);
        if !Fresh(log, k - 1) {
          var i :| 0 <= i < k - 1 && !log[i].Get? && log[i].client == op.client && log[i].seqId >= op.seqId;
          assert SeenAt(log, i, op.client, op.seqId);
        }
      }
      if Fresh(log, k - 1) {
        WriteReflects(Fold(log, k - 1).kv, FreshEdits(log, k - 1), op);
      } else {
        OtherReflects(Fold(log, k - 1).kv, FreshEdits(log, k - 1));
      }
    }
  }

  /** Every entry of the table carries the answer OK. */
  lemma {:induction false} TableSaysOk(log: seq<Op>, k: nat, client: int)
    requires k <= |log|
    ensures client in Fold(log, k).dup ==> Fold(log, k).dup[client].reply == Reply("", OK)
  {
    if k > 0 {
      TableSaysOk(log, k - 1, client);
    }
  }

  /** A command that the store has seen changes nothing when it is delivered once more. */
  lemma ReplayIsIdle(log: seq<Op>, k: nat, j: nat)
    requires j < k <= |log|
    ensures ApplyOp(Fold(log, k), log[j]).0 == Fold(log, k)
  {
    if !log[j].Get? {
      TableIsExact(log, k, log[j].client, log[j].seqId);
      assert SeenAt(log, j, log[j].client, log[j].seqId);
    }
  }

  // ---------- Any delivery stream ----------

  /**
   How far the store has got.  Raft delivers the next command, one that was delivered before, or a snapshot
   of a prefix; a restart begins with the snapshot on disk, if there is one.
   */
  ghost predicate Legal(log: seq<Op>, reach: int, e: Event) {
    match e
    case Deliver(Command(i, op)) => 0 < i <= reach + 1 && i <= |log| && op == log[i - 1]
    case Deliver(Snapshot(i, image)) => 0 <= i <= |log| && image == Image(Fold(log, i))
    case Restart(i, NoImage) => i == 0
    case Restart(i, Image(s)) => 0 <= i <= |log| && s == Fold(log, i)
  }

  /** Where the store has got to after the event. */
  function Reach(reach: int, e: Event): int {
    match e
    case Deliver(Command(i, _)) => if i == reach + 1 then i else reach
    case Deliver(Snapshot(i, _)) => i
    case Restart(i, _) => i
  }

  /** A history: the replica after each event, and how far its store has got. */
  ghost predicate IsStream(log: seq<Op>, es: seq<Event>, rs: seq<Replica>, reach: seq<int>) {
    && |rs| == |reach| == |es| + 1 && rs[0] == Replica(0, Blank) && reach[0] == 0
    && forall i {:trigger es[i]} :: 0 <= i < |es| ==>
         Legal(log, reach[i], es[i]) && rs[i + 1] == Next(rs[i], es[i]) && reach[i + 1] == Reach(reach[i], es[i])
  }

  ghost predicate InStep(log: seq<Op>, r: Replica, reach: int) {
    0 <= r.lastApplied <= reach <= |log| && r.store == Fold(log, reach)
  }

  lemma NextInStep(log: seq<Op>, r: Replica, reach: int, e: Event)
    requires InStep(log, r, reach) && Legal(log, reach, e)
    ensures InStep(log, Next(r, e), Reach(reach, e))
    ensures !e.Restart? && r.lastApplied == reach ==> Next(r, e).lastApplied == Reach(reach, e)
  {
    if e.Deliver? && e.m.Command? && r.lastApplied < e.m.index <= reach {
      ReplayIsIdle(log, reach, e.m.index - 1);
    }
  }

  /** The store is always the fold of a prefix of the log, whatever the stream. */
  lemma {:induction false} StoreIsFold(log: seq<Op>, es: seq<Event>, rs: seq<Replica>, reach: seq<int>, k: nat)
    requires IsStream(log, es, rs, reach) && k < |rs|
    ensures InStep(log, rs[k], reach[k])
    ensures Reflects(rs[k].store.kv, FreshEdits(log, reach[k]))
  {
    if k > 0 {
      StoreIsFold(log, es, rs, reach, k - 1);
      NextInStep(log, rs[k - 1], reach[k - 1], es[k - 1]);
    }
    FoldDeduplicates(log, reach[k]);
  }

  /** What a waiting client is told: nothing about a command that is passed over. */
  datatype Answer = Silent | Answered(reply: Reply)

  function AnswerOf(r: Replica, m: Message): Answer {
    match m
    case Command(i, op) => if i <= r.lastApplied then Silent else Answered(ApplyOp(r.store, op).1)
    case Snapshot(_, _) => Silent
  }

  /**
   A Get is answered from the fresh writes up to where the store has got; a write is answered OK, the first time and
   as a duplicate.
   */
  lemma AnswersAreCurrent(log: seq<Op>, es: seq<Event>, rs: seq<Replica>, reach: seq<int>, k: nat)
    requires IsStream(log, es, rs, reach) && k < |es| && es[k].Deliver? && es[k].m.Command?
    requires es[k].m.index > rs[k].lastApplied
    ensures 0 <= reach[k] <= |log|
    ensures var op := es[k].m.op;
            AnswerOf(rs[k], es[k].m) ==
              Answered(if op.Get? then AnswerTo(FreshEdits(log, reach[k]), op.key) else Reply("", OK))
  {
    var op := es[k].m.op;
    StoreIsFold(log, es, rs, reach, k);
    if op.Get? {
      assert Lookup(rs[k].store.kv, op.key) == AnswerTo(FreshEdits(log, reach[k]), op.key);
    } else {
      TableSaysOk(log, reach[k], op.client);
    }
  }

  /** Without a restart, lastApplied says which prefix, also after a snapshot has moved it backwards. */
  lemma {:induction false} StoreIsFoldOfApplied(log: seq<Op>, es: seq<Event>, rs: seq<Replica>, reach: seq<int>, k: nat)
    requires IsStream(log, es, rs, reach) && k < |rs| && forall i :: 0 <= i < k ==> !es[i].Restart?
    ensures 0 <= rs[k].lastApplied <= |log| && rs[k].lastApplied == reach[k]
          && rs[k].store == Fold(log, rs[k].lastApplied)
  {
    StoreIsFold(log, es, rs, reach, k);
    if k > 0 {
      StoreIsFoldOfApplied(log, es, rs, reach, k - 1);
      NextInStep(log, rs[k - 1], reach[k - 1], es[k - 1]);
    }
  }

  // ---------- Replicas that exchange the snapshots they make ----------

  /** A replica, and the index of the last command or snapshot that Raft has handed to it. */
  datatype Host = Host(replica: Replica, delivered: int)

  /** Several replicas of one log, and the snapshots made so far with their indices. */
  datatype World = World(hosts: map<int, Host>, made: set<(int, Image)>)

  /**
   Raft hands a replica the next command, a replica makes a snapshot of what it has just applied,
         and any snapshot made may be
   installed at a replica or be the one that a replica restarts from.
   */
  datatype Act =
    | Applies(h: int)
    | Makes(h: int)
    | Installs(h: int, index: int, image: Image)
    | Restarts(h: int, index: int, image: Image)

  ghost predicate CanAct(log: seq<Op>, w: World, a: Act) {
    && a.h in w.hosts
    && match a
       case Applies(h) => 0 <= w.hosts[h].delivered < |log|
       case Makes(h) => w.hosts[h].replica.lastApplied == w.hosts[h].delivered
       case Installs(_, i, image) => (i, image) in w.made
       case Restarts(_, i, image) => (i, image) in w.made || (i == 0 && image == NoImage)
  }

  ghost function AfterAct(log: seq<Op>, w: World, a: Act): World
    requires CanAct(log, w, a)
  {
    var host := w.hosts[a.h];
    match a
    case Applies(h) =>
      var m := Command(host.delivered + 1, log[host.delivered]);
      w.(hosts := w.hosts[h := Host(Receive(host.replica, m), host.delivered + 1)])
    case Makes(h) => w.(made := w.made + {(host.replica.lastApplied, Image(host.replica.store))})
    case Installs(h, i, image) => w.(hosts := w.hosts[h := Host(Receive(host.replica, Snapshot(i, image)), i)])
    case Restarts(h, i, image) => w.(hosts := w.hosts[h := Host(Next(host.replica, Restart(i, image)), i)])
  }

  ghost predicate IsHistory(log: seq<Op>, ws: seq<World>, acts: seq<Act>) {
    && |ws| == |acts| + 1 && ws[0].made == {}
    && (forall h :: h in ws[0].hosts ==> ws[0].hosts[h] == Host(Replica(0, Blank), 0))
    && forall k :: 0 <= k < |acts| ==> CanAct(log, ws[k], acts[k]) && ws[k + 1] == AfterAct(log, ws[k], acts[k])
  }

  ghost predicate HostOk(log: seq<Op>, host: Host) {
    0 <= host.replica.lastApplied <= host.delivered <= |log| && host.replica.store == Fold(log, host.delivered)
  }

  ghost predicate MadeOk(log: seq<Op>, i: int, image: Image) {
    0 <= i <= |log| && image == Image(Fold(log, i))
  }

  ghost predicate WorldOk(log: seq<Op>, w: World) {
    && (forall h {:trigger w.hosts[h]} :: h in w.hosts ==> HostOk(log, w.hosts[h]))
    && (forall i, image {:trigger (i, image) in w.made} :: (i, image) in w.made ==> MadeOk(log, i, image))
  }

  lemma ActKeeps(log: seq<Op>, w: World, a: Act)
    requires WorldOk(log, w) && CanAct(log, w, a)
    ensures WorldOk(log, AfterAct(log, w, a))
  {
    var z := AfterAct(log, w, a);
    assert HostOk(log, w.hosts[a.h]);
    forall h | h in z.hosts ensures HostOk(log, z.hosts[h]) {
      assert h != a.h ==> HostOk(log, w.hosts[h]);
    }
    forall i, image | (i, image) in z.made ensures MadeOk(log, i, image) {
      assert (i, image) in w.made || a.Makes?;
    }
  }

  /** Every snapshot made is that of the prefix up to its index, and every store that of what Raft has handed over. */
  lemma {:induction false} SnapshotsAreFolds(log: seq<Op>, ws: seq<World>, acts: seq<Act>, k: nat)
    requires IsHistory(log, ws, acts) && k < |ws|
    ensures forall h {:trigger ws[k].hosts[h]} :: h in ws[k].hosts ==> HostOk(log, ws[k].hosts[h])
    ensures forall i, image {:trigger (i, image) in ws[k].made} :: (i, image) in ws[k].made ==> MadeOk(log, i, image)
  {
    if k > 0 {
      SnapshotsAreFolds(log, ws, acts, k - 1);
      ActKeeps(log, ws[k - 1], acts[k - 1]);
    }
  }

  /**
   Replicas that have been handed equally much hold the same store, at whatever times, restarts and snapshots
   included.
   */
  lemma ReplicasAgree(log: seq<Op>, ws: seq<World>, acts: seq<Act>, j: nat, k: nat, g: int, h: int)
    requires IsHistory(log, ws, acts) && j < |ws| && k < |ws| && g in ws[j].hosts && h in ws[k].hosts
    requires ws[j].hosts[g].delivered == ws[k].hosts[h].delivered
    ensures ws[j].hosts[g].replica.store == ws[k].hosts[h].replica.store
  {
    SnapshotsAreFolds(log, ws, acts, j);
    SnapshotsAreFolds(log, ws, acts, k);
  }

  // ---------- The replica's own methods ----------

  class KVServer {
    var lastApplied: int
    var kv: Table
    var duplicateTable: DupTable

    ghost function View(): Replica
      reads this
    {
      Replica(lastApplied, Store(kv, duplicateTable))
    }

    /** Start from the snapshot on disk, if there is one. */
    constructor (image: Image)
      ensures View() == Replica(0, Restore(Blank, image))
    {
      lastApplied, kv, duplicateTable := 0, map[], map[];
      new;
      RestoreFromSnapshot(image);
    }

    method RestoreFromSnapshot(image: Image)
      modifies this`kv, this`duplicateTable
      ensures Store(kv, duplicateTable) == Restore(old(View()).store, image)
    {
      if image.Image? {
        kv, duplicateTable := image.store.kv, image.store.dup;
      }
    }

    /** The snapshot of the world's step `Makes`. */
    method MakeSnapshot() returns (image: Image)
      ensures image == Image(View().store)
    {
      return Image(Store(kv, duplicateTable));
    }

    method RequestDuplicated(client: int, seqId: int) returns (b: bool)
      ensures b == Duplicated(duplicateTable, client, seqId)
    {
      return client in duplicateTable && seqId <= duplicateTable[client].seqId;
    }

    method ApplyToStateMachine(op: Op) returns (reply: Reply)
      modifies this`kv
      ensures kv == if op.Get? then old(kv) else Write(old(kv), op)
      ensures reply == if op.Get? then Lookup(kv, op.key) else Reply("", OK)
    {
      match op
      case Get(key) =>
        reply := if key in kv then Reply(kv[key], OK) else Reply("", ErrNoKey);
      case Put(key, value, _, _) =>
        kv := kv[key := value];
        reply := Reply("", OK);
      case Append(key, value, _, _) =>
        kv := kv[key := (if key in kv then kv[key] else "") + value];
        reply := Reply("", OK);
    }

    /** One message of the apply channel, and what its waiting client is told. */
    method Take(m: Message) returns (answer: Answer)
      modifies this
      ensures View() == Receive(old(View()), m)
      ensures answer == AnswerOf(old(View()), m)
    {
      answer := Silent;
      match m
      case Command(index, op) =>
        if index <= lastApplied {
          return;
        }
        lastApplied := index;
        var stale := !op.Get?;
        if stale {
          stale := RequestDuplicated(op.client, op.seqId);
        }
        if stale {
          answer := Answered(duplicateTable[op.client].reply);
        } else {
          var reply := ApplyToStateMachine(op);
          if !op.Get? {
            duplicateTable := duplicateTable[op.client := Last(op.seqId, reply)];
          }
          answer := Answered(reply);
        }
      case Snapshot(index, image) =>
        RestoreFromSnapshot(image);
        lastApplied := index;
    }

    /** The apply loop over the messages delivered until the server stops. */
    method ApplyTask(ms: seq<Message>) returns (ghost rs: seq<Replica>, answers: seq<Answer>)
      modifies this
      ensures |rs| == |ms| + 1 && rs[0] == old(View()) && rs[|ms|] == View() && |answers| == |ms|
      ensures forall i :: 0 <= i < |ms| ==> rs[i + 1] == Receive(rs[i], ms[i]) && answers[i] == AnswerOf(rs[i], ms[i])
    {
      rs, answers := [View()], [];
      for k := 0 to |ms|
        invariant |rs| == k + 1 && rs[0] == old(View()) && rs[k] == View() && |answers| == k
        invariant forall i :: 0 <= i < k ==> rs[i + 1] == Receive(rs[i], ms[i]) && answers[i] == AnswerOf(rs[i], ms[i])
      {
        var answer := Take(ms[k]);
        rs, answers := rs + [View()], answers + [answer];
      }
    }
  }
}
