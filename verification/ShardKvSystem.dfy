/**
 Many groups over one sequence of configurations.  A group's leader may act on any state its log has passed
 through, and a command it proposes is applied at any later time, or never.
 */
module ShardKvSystem {
  import KeyValues
  import opened KvOps
  import opened ShardConfig
  import opened ShardKvGroup

  datatype Proposal =
    | NewConfig(num: int)
    | Migration(reply: ShardData)
    | Clear(num: int, ids: seq<nat>)

  /** The current state, every state so far, and the commands that leaders have proposed. */
  datatype Member = Member(now: Group, past: set<Group>, pool: set<Proposal>)

  /** A write that took effect, and the configuration in which it did. */
  datatype Effect = Effect(op: Op, num: int)

  /** `effects` records the writes in the order in which they took effect; no group reads it. */
  datatype System = System(groups: map<int, Member>, effects: seq<Effect>)

  datatype Event =
    | Client(g: int, op: Op)
    | Fetch(g: int, seen: Group)
    | Pull(h: int, seen: Group, g: int, read: Group)
    | AskDelete(h: int, seen: Group, g: int)
    | Finish(h: int, seen: Group, g: int)
    | CommitConfig(g: int, cmd: Proposal)
    | CommitMigration(g: int, cmd: Proposal, order: seq<nat>)
    | CommitClear(g: int, cmd: Proposal)

  // ---------- Configurations ----------

  /** Numbered from 0, all over n shards; the first assigns nothing. */
  ghost predicate Numbered(cfg: seq<Config>, n: nat) {
    && cfg != [] && n > 0 && cfg[0] == DefaultConfig(n)
    && forall i :: 0 <= i < |cfg| ==> cfg[i].num == i && |cfg[i].shards| == n
  }

  /** The group that last owned the shard, up to configuration i; 0 if none did. */
  ghost function Keeper(cfg: seq<Config>, i: nat, s: nat): int
    requires i < |cfg| && forall j :: 0 <= j <= i ==> s < |cfg[j].shards|
  {
    if cfg[i].shards[s] != 0 || i == 0 then cfg[i].shards[s] else Keeper(cfg, i - 1, s)
  }

  /** A shard that was owned passes to another group directly, not by way of group 0. */
  ghost predicate Handed(cfg: seq<Config>, n: nat) {
    Numbered(cfg, n) &&
    forall i, s {:trigger Changes(cfg, i, s)} :: 0 < i < |cfg| && 0 <= s < n && Changes(cfg, i, s) ==>
          cfg[i - 1].shards[s] != 0
  }

  ghost predicate Changes(cfg: seq<Config>, i: nat, s: nat)
    requires 0 < i < |cfg| && forall j :: 0 <= j <= i ==> s < |cfg[j].shards|
  {
    Keeper(cfg, i - 1, s) != 0 && Keeper(cfg, i, s) != Keeper(cfg, i - 1, s)
  }

  // ---------- Steps ----------

  function Initial(gids: set<int>, n: nat): System {
    System(map g | g in gids :: Member(Init(g, n), {Init(g, n)}, {}), [])
  }

  function Propose(y: System, g: int, p: Proposal): System
    requires g in y.groups
  {
    y.(groups := y.groups[g := y.groups[g].(pool := y.groups[g].pool + {p})])
  }

  function Step(y: System, g: int, now: Group): System
    requires g in y.groups
  {
    y.(groups := y.groups[g := y.groups[g].(now := now, past := y.groups[g].past + {now})])
  }

  ghost predicate Enabled(cfg: seq<Config>, n: nat, y: System, e: Event) {
    match e
    case Client(g, op) => g in y.groups && Shaped(y.groups[g].now, n) && n > 0
    case Fetch(g, seen) =>
      g in y.groups && seen in y.groups[g].past && AllNormal(seen) && 0 <= seen.config.num + 1 < |cfg|
    case Pull(h, seen, g, read) =>
      && h in y.groups && g in y.groups && g != 0 && seen in y.groups[h].past && read in y.groups[g].past
      && Shaped(seen, n) && Shaped(read, n) && ByStatus(seen, MoveIn, g, n) != []
    case AskDelete(h, seen, g) =>
      && h in y.groups && g in y.groups && g != 0 && seen in y.groups[h].past
      && Shaped(seen, n) && ByStatus(seen, GC, g, n) != []
    case Finish(h, seen, g) =>
      && h in y.groups && g in y.groups && g != 0 && seen in y.groups[h].past
      && Shaped(seen, n) && ByStatus(seen, GC, g, n) != []
    case CommitConfig(g, cmd) =>
      && g in y.groups && cmd in y.groups[g].pool && cmd.NewConfig? && 0 <= cmd.num < |cfg|
      && Shaped(y.groups[g].now, |cfg[cmd.num].shards|)
    case CommitMigration(g, cmd, order) =>
      && g in y.groups && cmd in y.groups[g].pool && cmd.Migration? && Enumerates(order, cmd.reply.data.Keys)
      && Shards(order, |y.groups[g].now.shards|)
    case CommitClear(g, cmd) =>
      && g in y.groups && cmd in y.groups[g].pool && cmd.Clear? && Shards(cmd.ids, |y.groups[g].now.shards|)
  }

  function OnClient(y: System, g: int, op: Op): System
    requires g in y.groups && Shaped(y.groups[g].now, |y.groups[g].now.shards|) && y.groups[g].now.shards != []
  {
    var now := y.groups[g].now;
    Step(y, g, ApplyClient(now, op).0)
      .(effects := if TakesEffect(now, op) then y.effects + [Effect(op, now.config.num)] else y.effects)
  }

  /** A leader of h pulls from group g what is to move in; group g answers from the state `read`. */
  function OnPull(y: System, h: int, seen: Group, g: int, read: Group): System
    requires h in y.groups && Shaped(seen, |seen.shards|) && Shaped(read, |seen.shards|)
  {
    match GetShardsData(read, seen.config.num, ByStatus(seen, MoveIn, g, |seen.shards|))
    case NotReady => y
    case Data(m) => Propose(y, h, Migration(m))
  }

  ghost function Apply(cfg: seq<Config>, n: nat, y: System, e: Event): System
    requires Enabled(cfg, n, y, e)
  {
    match e
    case Client(g, op) => OnClient(y, g, op)
    case Fetch(g, seen) => Propose(y, g, NewConfig(seen.config.num + 1))
    case Pull(h, seen, g, read) => OnPull(y, h, seen, g, read)
    case AskDelete(h, seen, g) => Propose(y, g, Clear(seen.config.num, ByStatus(seen, GC, g, n)))
    case Finish(h, seen, g) => Propose(y, h, Clear(seen.config.num, ByStatus(seen, GC, g, n)))
    case CommitConfig(g, cmd) => Step(y, g, ApplyConfig(y.groups[g].now, cfg[cmd.num]))
    case CommitMigration(g, cmd, order) => Step(y, g, ApplyMigration(y.groups[g].now, cmd.reply, order))
    case CommitClear(g, cmd) => Step(y, g, ApplyGC(y.groups[g].now, cmd.num, cmd.ids))
  }

  /** A run: the groups named in some configuration exist, and each state follows from the one before. */
  ghost predicate IsRun(cfg: seq<Config>, n: nat, ys: seq<System>, es: seq<Event>) {
    && Numbered(cfg, n) && |ys| == |es| + 1
    && 0 !in ys[0].groups && ys[0] == Initial(ys[0].groups.Keys, n)
    && (forall i, s :: 0 <= i < |cfg| && 0 <= s < n ==> cfg[i].shards[s] == 0 || cfg[i].shards[s] in ys[0].groups)
    && forall i :: 0 <= i < |es| ==> Enabled(cfg, n, ys[i], es[i]) && ys[i + 1] == Apply(cfg, n, ys[i], es[i])
  }

  // ---------- The one store that the groups make up ----------

  /** The writes in the order in which they took effect. */
  function Edits(effects: seq<Effect>): seq<KeyValues.Edit> {
    if effects == [] then [] else Edits(effects[..|effects| - 1]) + [EditOf(effects[|effects| - 1].op)]
  }

  /** What the writes so far leave behind in one map. */
  function Replay(effects: seq<Effect>): Table {
    if effects == [] then map[]
    else
      var rest, op := Replay(effects[..|effects| - 1]), effects[|effects| - 1].op;
      if op.Get? then rest else Write(rest, op)
  }

  /** A key of the one map holds the last value put to it, followed by what was appended since. */
  lemma {:induction false} ReplayReflects(effects: seq<Effect>)
    ensures Reflects(Replay(effects), Edits(effects))
  {
    if effects == [] {
      BlankReflects();
    } else {
      var rest, op := effects[..|effects| - 1], effects[|effects| - 1].op;
      ReplayReflects(rest);
      if op.Get? {
        OtherReflects(Replay(rest), Edits(rest));
      } else {
        WriteReflects(Replay(rest), Edits(rest), op);
      }
    }
  }
}
