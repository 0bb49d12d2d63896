# A verified model of the raftKv core and two small companions

The project models the replicated, sharded key/value store under `raftKv/src`, the linearizability checker
that ships with it, and two self-contained pieces of the same repository (the Pomelo message codec and the
KMP string functions), and proves what each of them is for.

- **Raft** (`RaftTypes`, `RaftServer`, `RaftCluster`, `RaftNode`). Each handler holds the server's lock, so it is one
  atomic step on one server; `RaftServer` gives these steps as functions, `RaftNode` as the methods of a class
  that are proved to compute them. `RaftCluster` lets any number of servers take such steps over a network that
  loses, delays and reorders calls but does not duplicate them, and lets a server crash and restart between any
  two steps and between saving its state and answering. The cluster has compaction off (`maxraftstate == -1`).
  The proof goes by way of an abstract protocol with a history (`RaftProtocol`), an invariant that ties the
  cluster to it (`RaftInvariant`, `RaftSteps`, `RaftSafety`) and theorems over whole runs (`RaftTheorems`, `RaftVotes`, `RaftAnswers`).
- **What Raft can always still do** (`RaftRuns`, `RaftElection`, `RaftCommit`). From every reachable state any majority can
  elect one of its members and commit a new command, by itself and without a crash. A cluster of one server never
  elects a leader, since only an answered request makes the candidate look at its counter.
- **What reordering does** (`RaftReorder`). A follower drops whatever follows the entries of an accepted request, even when
  nothing conflicts, which Figure 2 of the Raft paper does not do. Election Safety and Log Matching hold under
  any reordering. State Machine Safety holds when the requests of one leader to one follower in one term arrive in
  the order of sending; in clusters of every size from three up some run shows that it fails without that.
- **The compacted log** (`CompactLog`). A log whose head was cut off by snapshots stands for the whole log.
- **The checker** (`Linearizability`, `EntryList`, `Entries`, `EntryOrder`, `Bitset`, `SearchSpace`, `Checker`, `KvHistory`). The
  search with its doubly linked list, its cache and its stack answers true exactly for linearizable histories,
  and checking key by key is the same as checking the store. A history is accepted exactly if in some order that respects
  real time every get returns the last value put before it, followed by what was appended since (`KeyValues`).
- **The shard controller** (`ShardBalance`, `ShardConfig`, `ShardCtrler`). Join, Leave and Move, the termination of Join's
  loop, and when the result is balanced; who the members and their servers are (`ShardMembers`); which shards move and
  where to (`ShardChoice`, `ShardJoin`).
- **The sharded store** (`ShardKvGroup`, `ShardKvSystem`, `ShardKvServer`). Each group is the state its log produces. A
  leader may act on any earlier state of its group (it may be stale), and a command it proposes is applied at any later time or
  never. `ShardKvInvariant`, `ShardKvSteps`, `ShardKvMoves` and `ShardKvTheorems` give the invariant: one part over all
  configurations, one over those that never hand a shard from one group to another by way of group 0.
  - *One map.* Whatever was written to a shard is up to date in exactly one place, serving or frozen (`ShardKvStore`), groups
    answer as one map would, and a write that is answered took effect exactly once (`ShardKvClients`).
  - *Exactly when.* No run loses a write exactly if the controller never hands a shard over by way of group 0
    (`ShardKvLostWrite`); `ShardKvUnassigned` gives a concrete run with two servers of one shard.
  - *No deadlock.* From every reachable state, whatever the tables hold, the groups can come to rest at a later configuration.
    With leaders that act on the present state they can exactly if no group has been left behind with a shard that
    nobody will ask it to delete (`ShardKvProgress`, `ShardKvRest`). That never happens if a puller finishes a move only after
    the source has let go of the shard, which is what the reply to DeleteShardsData is for, and can happen otherwise
    (`ShardKvPatient`); the source matches that reply to its command by log index alone.
- **The replicated store** (`KvOps`, `KvReplay`). What a replica makes of the messages Raft delivers, and replicas that
  exchange the snapshots they make.
- **Companions** (`Kmp`, `MessageCodec`, `MessageWire`), and shared helpers (`Sets`, `Sorting`).

Go's map iteration is modelled as a visit in any order (`Sets.Visit`); where the source's loops leave early, the order is part
of the step and is proved not to matter. Integers are unbounded except where the width matters (the 64-bit message id,
the 24-bit packet length, the byte that holds a route's length).

Where code and comments differ the model follows the code: `applyShardMigration` answers ErrWrongConfig even on success,
`applyShardGC` answers OK even when it did nothing, and `MaxPacketSize` admits a body of exactly 2^24 bytes whose
length the header cannot hold.

## Model

| member | source | states |
|---|---|---|
| RaftTheorems.ElectionSafety | raftKv/src/raft/raft_election.go:76-199 | in every run, with crashes and stale replies anywhere, two leaders of one term are the same server |
| RaftVotes.VoteCounterIsExact | raftKv/src/raft/raft_election.go:142-199 | a candidate's integer counter is the number of servers whose granted replies it has counted in its term, and itself; each of them has voted for it |
| RaftAnswers.VoteGrantedIff | raftKv/src/raft/raft_election.go:27-107 | a vote is granted exactly if the request is not of an earlier term, the vote of that term is free and the candidate's log is up to date; the reply tells the voter's old term, and the vote is on disk |
| RaftAnswers.OneVotePerTerm | raftKv/src/raft/raft_election.go:86-104 | over a whole run, crashes included, a server votes for at most one candidate in a term |
| RaftElection.MajorityElects | raftKv/src/raft/raft_election.go:76-199 | from every reachable state some member of any majority can be elected by the votes of that majority, without a crash |
| RaftCommit.MajorityCommits | raftKv/src/raft/raft_replication.go:58-243 | from every reachable state any majority can commit any new command: its members end with one log, ending in the command, that each of them counts as committed; in-order runs stay in order |
| RaftCommit.LoneServerNeverLeads | raftKv/src/raft/raft_election.go:142-199 | a cluster of one server never has a leader, so the two statements above need two servers |
| RaftAnswers.LeaderAppendOnly | raftKv/src/raft/raft.go:106-149 | a leader leads on and only appends to its log until it hears of a later term or crashes |
| RaftTheorems.LogMatching | raftKv/src/raft/raft_replication.go:82-103 | in every run, two logs with the same term at one index are identical up to that index, under any reordering |
| RaftTheorems.LogTermsAscend | raftKv/src/raft/raft_log.go:94-121 | terms never decrease along a log and never exceed the server's term |
| RaftTheorems.CrashLosesNothing | raftKv/src/raft/raft_persistence.go:27-94 | restarting at any moment brings back term, vote and log |
| RaftAnswers.RestartForgets | raftKv/src/raft/raft.go:231-268 | a restart forgets all else: the server follows, has committed nothing and counts nothing |
| RaftTheorems.LeaderNeverPanics | raftKv/src/raft/raft_replication.go:196-236 | nextIndex stays between 1 and the log's size, every request can be built, the majority index is an index of the leader's log |
| RaftTheorems.BacktrackingConverges | raftKv/src/raft/raft_replication.go:162-189 | a rejection that arrives while nextIndex still points at it strictly lowers nextIndex, never below 1 |
| RaftAnswers.RejectionSaysWhere | raftKv/src/raft/raft_replication.go:58-104 | when a request is accepted, and what a rejection names: the end of a log that is too short, or the term found instead and the first index of that term |
| RaftAnswers.AnswerCommits | raftKv/src/raft/raft_replication.go:191-201 | a counted answer sets the peer's match index to the request's end and no other, never lowers commitIndex, and leaves no entry of the leader's term uncommitted that a majority is known to have |
| RaftTheorems.StateMachineSafety | raftKv/src/raft/raft_replication.go:102-201 | in every run in which no follower's log shrinks under one leader, two servers never disagree on an entry both count as committed |
| RaftTheorems.LeadersAreComplete | raftKv/src/raft/raft_election.go:27-104 | in such a run a later leader's log contains everything an earlier term's server counts as committed |
| RaftTheorems.InOrderNeverShrinks | raftKv/src/raft/raft_replication.go:231-240 | delivering each leader's requests to a follower in sending order is enough for no log to shrink under one leader |
| RaftTheorems.InOrderIsSafe | raftKv/src/labrpc/labrpc.go:6-7 | with in-order delivery per link and term, losses allowed, no two servers disagree on a committed entry |
| RaftReorder.KeepsLogIffNotStale | raftKv/src/raft/raft_log.go:119-121 | where nothing conflicts, an accepted request keeps the follower's log exactly if it does not end before it |
| RaftReorder.ReorderingBreaksSafety | raftKv/src/labrpc/labrpc.go:35-36 | for every cluster of three or more servers a run with reordered requests in which two servers commit different entries at index 1 |
| RaftProtocol.OneWinner | raftKv/src/raft/raft_election.go:86-104 | two majorities of a term share a voter, so the term has one winner |
| RaftProtocol.LeaderCompleteness | raftKv/src/raft/raft_election.go:27-35 | what is committed in a term is in the log every later leader starts from |
| RaftProtocol.CommittedAgree | raftKv/src/raft/raft_replication.go:196-201 | two committed logs, of whatever terms, agree wherever both reach |
| RaftMajority.MajorityReached | raftKv/src/raft/raft_replication.go:122-135 | more than half of the servers have reached the index that the sort picks |
| RaftMajority.MajorityIsLargest | raftKv/src/raft/raft_replication.go:122-135 | and no larger index has been reached by more than half |
| RaftLogs.FirstForAgrees | raftKv/src/raft/raft_log.go:94-103 | logs rooted in one history agree on where a term begins |
| RaftLogs.BacktrackIsConflictIndex | raftKv/src/raft/raft_replication.go:162-178 | the index the leader falls back to lies strictly below the rejected one and at least at 1 |
| RaftSafety.MajorityIsChosen | raftKv/src/raft/raft_replication.go:191-201 | an index of the leader's own term that a majority has reached is chosen for good |
| RaftNode.Raft.constructor | raftKv/src/raft/raft.go:231-268 | a new server equals the model's initial server, restored from what was saved |
| RaftNode.Raft.ReadPersist | raftKv/src/raft/raft_persistence.go:49-94 | restores term, vote and log from disk |
| RaftNode.Raft.Persist | raftKv/src/raft/raft_persistence.go:27-45 | saves term, vote and log and changes nothing else |
| RaftNode.Raft.BecomeFollower | raftKv/src/raft/raft.go:106-122 | the step to follower, saving exactly when the term changes |
| RaftNode.Raft.BecomeCandidate | raftKv/src/raft/raft.go:124-135 | the step to candidate of the next term with a vote for itself, saved |
| RaftNode.Raft.BecomeLeader | raftKv/src/raft/raft.go:137-149 | fills nextIndex with the log's size and matchIndex with 0, from a candidate only |
| RaftNode.Raft.StartElection | raftKv/src/raft/raft_election.go:175-199 | the requests, one to each other peer, and the counter started with the own vote |
| RaftNode.Raft.RequestVote | raftKv/src/raft/raft_election.go:76-107 | state and reply equal the model's handler |
| RaftNode.Raft.VoteAnswered | raftKv/src/raft/raft_election.go:144-173 | what a vote reply does: step down, ignore, count, or lead |
| RaftNode.Raft.Start | raftKv/src/raft/raft.go:180-196 | appends and saves on a leader, refuses on any other role |
| RaftNode.Raft.FirstFor | raftKv/src/raft/raft_log.go:94-103 | the first index of a term, or 0 |
| RaftNode.Raft.AppendEntries | raftKv/src/raft/raft_replication.go:58-113 | state and reply, conflict hints included, equal the model's handler |
| RaftNode.Raft.StartReplication | raftKv/src/raft/raft_replication.go:204-243 | one request per other peer, cut from the log at nextIndex, and the leader's own indices |
| RaftNode.Raft.GetMajorityIndex | raftKv/src/raft/raft_replication.go:122-135 | the middle element of the sorted indices |
| RaftNode.Raft.AppendAnswered | raftKv/src/raft/raft_replication.go:143-202 | what a reply does to nextIndex, matchIndex and commitIndex |
| CompactLog.CompactionRefines | raftKv/src/raft/raft_log.go:114-162 | along every run of appends, truncations, commits, snapshots, saves and crashes the compacted log stands for the whole log |
| CompactLog.SnapshotNeverPanics | raftKv/src/raft/raft_compaction.go:14-30 | an index that passes the two guards is always kept |
| CompactLog.ReadsAgree | raftKv/src/raft/raft_log.go:88-111 | last index, last term and every tail after snapLastIdx agree with the whole log |
| CompactLog.FirstForAgrees | raftKv/src/raft/raft_log.go:94-103 | the first index of a term agrees unless it was cut off; then it is snapLastIdx or 0, and which of the two |
| CompactLog.AppendFromAgrees | raftKv/src/raft/raft_log.go:119-121 | truncating and appending at a kept index keeps the correspondence |
| CompactLog.SnapshotAgrees | raftKv/src/raft/raft_log.go:148-162 | cutting at a kept index keeps the correspondence |
| CompactLog.RaftLog.constructor | raftKv/src/raft/raft_log.go:20-33 | a dummy entry with the snapshot's term, then the entries |
| CompactLog.RaftLog.Persist | raftKv/src/raft/raft_log.go:63-67 | what is written determines the log |
| CompactLog.RaftLog.ReadPersist | raftKv/src/raft/raft_log.go:40-60 | reading it back restores the log |
| CompactLog.RaftLog.Idx | raftKv/src/raft/raft_log.go:75-80 | the position of a kept index |
| CompactLog.RaftLog.Last | raftKv/src/raft/raft_log.go:88-91 | the last index and its term |
| CompactLog.RaftLog.FindFirst | raftKv/src/raft/raft_log.go:94-103 | the first kept index of a term, or 0 |
| CompactLog.RaftLog.TailFrom | raftKv/src/raft/raft_log.go:106-111 | the entries from an index on, none past the end |
| CompactLog.RaftLog.Push | raftKv/src/raft/raft_log.go:114-116 | one more entry |
| CompactLog.RaftLog.Replace | raftKv/src/raft/raft_log.go:119-121 | everything after an index replaced |
| CompactLog.RaftLog.CutAt | raftKv/src/raft/raft_log.go:148-162 | the log cut at an index, the entry there reduced to its term |
| CompactLog.RaftLog.TakeSnapshot | raftKv/src/raft/raft_compaction.go:14-30 | cuts exactly if the index is committed and not yet cut |
| Linearizability.PlaceableIsLinearizable | raftKv/src/porcupine/checker.go:179-253 | placing minimal operations one after another succeeds exactly if a legal order exists that respects real time |
| EntryList.Unlink | raftKv/src/porcupine/checker.go:159-167 | a node leaves the list and still remembers its neighbours; no other lifted node changes |
| EntryList.Lift | raftKv/src/porcupine/checker.go:159-167 | call and return leave the list and remember their places |
| EntryList.Unlift | raftKv/src/porcupine/checker.go:169-177 | the list is again what it was when they were lifted |
| Entries.InsertBefore | raftKv/src/porcupine/checker.go:70-81 | the pointers after an insertion, in all cases of missing neighbours |
| Entries.MakeLinkedEntries | raftKv/src/porcupine/checker.go:121-138 | a chain that carries the entries in order, each call matched with its return |
| EntryOrder.MakeEntries | raftKv/src/porcupine/checker.go:48-60 | a call and a return entry per operation, ordered by time with calls first |
| EntryOrder.EntriesKeepLinearizability | raftKv/src/porcupine/checker.go:39-60 | positions in the sorted list order operations as their times do, so the list is linearizable exactly if the history is |
| Bitset.SetAt | raftKv/src/porcupine/bitset.go:25-44 | setting or clearing a position changes that member of the set and no other |
| Bitset.ClearUndoesSet | raftKv/src/porcupine/bitset.go:29-39 | clearing undoes setting |
| SearchSpace.HitLeadsNowhere | raftKv/src/porcupine/checker.go:145-157 | a configuration found in the cache cannot be completed, so pruning it loses nothing |
| SearchSpace.TrailReached | raftKv/src/porcupine/checker.go:190-242 | every configuration the search visits is one of finitely many |
| Checker.CacheContains | raftKv/src/porcupine/checker.go:145-152 | finds a configuration exactly if it was remembered |
| Checker.LiftOperation | raftKv/src/porcupine/checker.go:194-207 | the list is the original entries without the placed operations, one more placed |
| Checker.UnliftOperation | raftKv/src/porcupine/checker.go:235-241 | and back, in stack order |
| Checker.PlaceCall | raftKv/src/porcupine/checker.go:197-207 | placing keeps the search's invariant: list, bitset, cache, stack and state agree |
| Checker.Backtrack | raftKv/src/porcupine/checker.go:214-241 | taking back keeps it, one level up |
| Checker.Search | raftKv/src/porcupine/checker.go:190-252 | terminates and answers whether all operations can be placed |
| Checker.CheckSingle | raftKv/src/porcupine/checker.go:179-253 | true exactly if the history is linearizable, for every deterministic model |
| KvHistory.Locality | raftKv/src/porcupine/model.go:28-32 | a store's history is linearizable exactly if every key's sub-history is |
| KvHistory.Partition | raftKv/src/models/kv.go:18-34 | the parts are the sub-histories of the keys that occur |
| KvHistory.LegalIffReadsLastWrite | raftKv/src/models/kv.go:35-54 | an order is legal exactly if every get in it returns the last value put to its key before it, followed by what was appended since |
| KvHistory.CheckHistory | raftKv/src/models/kv.go:17-54 | partitioning and checking each part decides whether some order that respects real time explains every get in this way |
| ShardBalance.ExtremesUnique | raftKv/src/shardctrler/state_machine.go:209-247 | the fullest and the emptiest group are determined by the map alone |
| ShardBalance.RoundDecreases | raftKv/src/shardctrler/state_machine.go:78-88 | each round of Join's loop lowers (shards without a group, size of the largest group, number of groups that large) |
| ShardBalance.RebalanceEvens | raftKv/src/shardctrler/state_machine.go:78-104 | the loop ends with each shard in one group, none in group 0, and groups that differ by at most one |
| ShardBalance.RebalanceMovesToNew | raftKv/src/shardctrler/state_machine.go:78-88 | from even groups, a shard moves only from an old group to a new one |
| ShardBalance.RebalanceNowhere | raftKv/src/shardctrler/state_machine.go:240-246 | without any group all shards end up with group -1 |
| ShardBalance.FillEvenIff | raftKv/src/shardctrler/state_machine.go:150-156 | handing each orphan to the emptiest group ends even exactly if k(M-1)+p is at most the number of shards |
| ShardConfig.JoinBalances | raftKv/src/shardctrler/state_machine.go:24-108 | from a valid configuration, with some member, Join gives a valid and balanced one |
| ShardConfig.JoinValidIff | raftKv/src/shardctrler/state_machine.go:24-108 | Join keeps configurations valid exactly if it leaves some member |
| ShardConfig.JoinMovesToNew | raftKv/src/shardctrler/state_machine.go:62-88 | from a balanced configuration no shard moves between groups that were members already |
| ShardConfig.LeaveValid | raftKv/src/shardctrler/state_machine.go:111-170 | Leave keeps configurations valid; without a member left all shards are at group 0 |
| ShardConfig.LeaveMovesOrphans | raftKv/src/shardctrler/state_machine.go:134-164 | a shard whose group stays does not move |
| ShardConfig.LeaveBalancedIff | raftKv/src/shardctrler/state_machine.go:111-170 | Leave ends balanced exactly if the orphans suffice to catch up with the largest group that stays |
| ShardConfig.LeaveKeepsBalance | raftKv/src/shardctrler/state_machine.go:111-170 | in particular from a balanced configuration |
| ShardChoice.LeaveOrphans | raftKv/src/shardctrler/state_machine.go:134-145 | the orphans are the shards of the groups named, ordered by where the group is named and by number |
| ShardChoice.LeaveIsGreedy | raftKv/src/shardctrler/state_machine.go:147-164 | each orphan in turn goes to the group that has fewest shards then, the smallest id among those |
| ShardJoin.JoinKeepsHighest | raftKv/src/shardctrler/state_machine.go:78-88 | every group gives away its lowest-numbered shards first |
| ShardJoin.JoinIsFair | raftKv/src/shardctrler/state_machine.go:200-247 | of two groups with equally many shards the one with the smaller id gives first and receives first |
| ShardJoin.FirstJoinDeals | raftKv/src/shardctrler/state_machine.go:24-108 | without members before, Join deals the shards out in turn, in the order of the group ids |
| ShardMembers.JoinMembers | raftKv/src/shardctrler/state_machine.go:28-41 | Join adds the groups that are not members yet, with the servers named, and leaves the members' servers alone |
| ShardMembers.LeaveMembers | raftKv/src/shardctrler/state_machine.go:135-145 | Leave removes the groups named and no other |
| ShardMembers.MoveChanges | raftKv/src/shardctrler/state_machine.go:173-186 | Move gives one shard to one group and changes nothing else |
| ShardMembers.HistoryServers | raftKv/src/shardctrler/state_machine.go:9-186 | along every run a group is a member exactly if some Join brought it in since it last left, and its servers are those named by that Join |
| ShardConfig.MoveValidIff | raftKv/src/shardctrler/state_machine.go:173-186 | Move keeps configurations valid exactly if its target is a member (or group 0 when there is none) |
| ShardConfig.HistoryValid | raftKv/src/shardctrler/state_machine.go:9-186 | along every run of Join, Leave and Move all configurations are valid and numbered in order |
| ShardConfig.HistoryBalanced | raftKv/src/shardctrler/state_machine.go:24-170 | and balanced whenever every Move has been followed by a Join |
| ShardConfig.HistoryGrows | raftKv/src/shardctrler/state_machine.go:104-107 | each command extends the run by the configuration the state machine appends |
| ShardCtrler.GidWithMaxShards | raftKv/src/shardctrler/state_machine.go:200-230 | finds the fullest group, for every map order |
| ShardCtrler.GidWithMinShards | raftKv/src/shardctrler/state_machine.go:233-247 | finds the emptiest group, for every map order |
| ShardCtrler.GatherShards | raftKv/src/shardctrler/state_machine.go:54-60 | the lists of members and owners, shards ascending |
| ShardCtrler.Owners | raftKv/src/shardctrler/state_machine.go:98-103 | the owners that the lists name, for every map order |
| ShardCtrler.BalanceShards | raftKv/src/shardctrler/state_machine.go:78-88 | the loop terminates with the specified lists |
| ShardCtrler.AssignShards | raftKv/src/shardctrler/state_machine.go:150-156 | each orphan goes to the emptiest group |
| ShardCtrler.CopyGroups | raftKv/src/shardctrler/state_machine.go:189-197 | an equal map |
| ShardCtrler.CtrlerStateMachine.constructor | raftKv/src/shardctrler/state_machine.go:9-13 | one configuration that assigns nothing |
| ShardCtrler.CtrlerStateMachine.Query | raftKv/src/shardctrler/state_machine.go:16-21 | the numbered configuration, the latest if out of range |
| ShardCtrler.CtrlerStateMachine.Join | raftKv/src/shardctrler/state_machine.go:24-108 | appends the specified configuration, the same for every map order |
| ShardCtrler.CtrlerStateMachine.Leave | raftKv/src/shardctrler/state_machine.go:111-170 | appends the specified configuration |
| ShardCtrler.CtrlerStateMachine.Move | raftKv/src/shardctrler/state_machine.go:173-186 | appends the configuration with one owner changed |
| ShardKvTheorems.OneServer | raftKv/src/shardkv/server.go:78-82 | in every run no shard is served by two groups at a time |
| ShardKvTheorems.ServesUnlessWaiting | raftKv/src/shardkv/server.go:78-82 | a group serves exactly the shards that its configuration assigns to it and that it does not wait for |
| ShardKvTheorems.TakenInIsFrozen | raftKv/src/shardkv/conf_change.go:82-96 | a shard a group takes in has the contents frozen at the group it comes from, which stands at the same configuration with the shard moving out, and is served at once |
| ShardKvGroup.ShardByFirstByte | raftKv/src/shardkv/client.go:21-28 | keys with the same first byte share a shard, the remainder of that byte; the empty key is in shard 0 |
| KvOps.WriteReflects | raftKv/src/shardkv/state_machine.go:15-30 | after one more Put or Append every key again answers with the last value put to it, followed by what was appended since, and with ErrNoKey if no write names it |
| ShardKvSystem.ReplayReflects | raftKv/src/shardkv/state_machine.go:15-30 | so does the one map, for the writes in the order in which they took effect |
| ShardKvTheorems.ContentsOfReplay | raftKv/src/shardkv/client.go:21-28 | the global map is the union of what the writes to each shard leave behind |
| ShardKvStore.HolderIsCurrent | raftKv/src/shardkv/conf_change.go:39-53 | the table of the group that serves a shard, or has stopped and still has the only copy, answers each key with the last value put to it, followed by what was appended since; no configuration change, migration or clean-up changes that |
| ShardKvStore.OneHolder | raftKv/src/shardkv/conf_change.go:82-124 | no two groups hold a shard in this sense |
| ShardKvStore.SomeHolder | raftKv/src/shardkv/conf_change.go:82-124 | and some group does at all times, once the shard has contents |
| ShardKvClients.AnswersAsOneMap | raftKv/src/shardkv/task.go:216-236 | a served Get is answered with the last value put to its key in the order of effect, followed by what was appended since, or ErrNoKey; a served write is answered OK, the rest ErrWrongGroup; afterwards the group's table gives these answers again |
| ShardKvClients.WritesAsOneMap | raftKv/src/shardkv/task.go:216-236 | with clerks that wait for OK before they count on, a write that is served becomes the latest one exactly if its tag has not taken effect before |
| ShardKvClients.ExactlyOnce | raftKv/src/shardkv/client.go:110-137 | with such clerks, a write that is answered OK, for the first time or as a duplicate, has taken effect, and no other effect has its tag |
| ShardKvClients.AtMostOncePerShard | raftKv/src/shardkv/conf_change.go:98-104 | a tag takes effect at most once on a shard, over all groups and configurations |
| ShardKvClients.AtMostOnce | raftKv/src/shardkv/task.go:216-236 | if clients give one tag to one key only, a tagged write takes effect at most once |
| ShardKvTheorems.ConfigOnlyWhenNormal | raftKv/src/shardkv/task.go:55-80 | a configuration is applied only when no shard is on the move, and only the next one |
| ShardKvTheorems.Lockstep | raftKv/src/shardkv/conf_change.go:110-124 | a source passes or clears a move only after the puller has taken the shard in, and that only after the source has reached the configuration |
| ShardKvTheorems.OrderDoesNotMatter | raftKv/src/shardkv/conf_change.go:84-96 | the `break` and the map order cannot make replicas diverge |
| ShardKvTheorems.NamedShareStatus | raftKv/src/shardkv/task.go:146-160 | the shards one command names share one status whenever it applies |
| ShardKvTheorems.ControllerHandsOver | raftKv/src/shardctrler/state_machine.go:147-168 | the controller's own runs hand shards over directly as long as some group remains |
| ShardKvProgress.Settle | raftKv/src/shardkv/task.go:55-143 | from every state of every run in which no shard is left behind, up-to-date leaders can bring all groups to rest at any configuration that no group has passed, whatever the tables hold |
| ShardKvRest.CanRestIff | raftKv/src/shardkv/task.go:55-143 | they can exactly if no shard is left behind: moving out of a group although the next owner has finished and nobody has asked for the deletion |
| ShardKvRest.NeverStuck | raftKv/src/shardkv/task.go:83-143 | with leaders that may lag, the groups can come to rest from every reachable state, without a write |
| ShardKvPatient.PatientLeavesNone | raftKv/src/shardkv/task.go:126-133 | if groups finish a move only after the source has let go, no shard is ever left behind |
| ShardKvPatient.EarlyFinishAbandons | raftKv/src/shardkv/conf_change.go:8-29 | wherever a configuration moves a shard, some run in which the puller finishes early leaves it behind |
| ShardKvLostWrite.IndirectLosesWrite | raftKv/src/shardkv/conf_change.go:59-72 | wherever a shard passes to another group by way of group 0 some run loses a write |
| ShardKvLostWrite.HandedIffNothingLost | raftKv/src/shardkv/conf_change.go:56-79 | no run loses a write exactly if every shard that was owned passes to another group directly |
| ShardKvUnassigned.InterruptedHasTwoServers | raftKv/src/shardkv/conf_change.go:66-72 | with owners 0, 1, 0, 2 a concrete run ends with two groups serving the shard and a lost write |
| ShardKvGroup.AbsorbTogether | raftKv/src/shardkv/conf_change.go:84-96 | shards of one status are all taken in or all left alone, whatever the order |
| ShardKvGroup.ClearTogether | raftKv/src/shardkv/conf_change.go:112-121 | and all settled or all left alone |
| ShardKvServer.ShardKV.constructor | raftKv/src/shardkv/server.go:219-226 | empty shards, no known writes, the default configuration |
| ShardKvServer.ShardKV.MatchGroup | raftKv/src/shardkv/server.go:78-82 | whether the group serves the key |
| ShardKvServer.ShardKV.ApplyToStateMachine | raftKv/src/shardkv/server.go:235-247 | one shard's table and the reply |
| ShardKvServer.ShardKV.ApplyClientOperation | raftKv/src/shardkv/task.go:216-236 | state and reply equal the model's step |
| ShardKvServer.ShardKV.ApplyNewConfig | raftKv/src/shardkv/conf_change.go:56-79 | statuses, previous and current configuration equal the model's step |
| ShardKvServer.ShardKV.ApplyShardMigration | raftKv/src/shardkv/conf_change.go:82-107 | some order of the map explains the new state |
| ShardKvServer.ShardKV.ApplyShardGC | raftKv/src/shardkv/conf_change.go:110-124 | the new state, the break included |
| ShardKvServer.ShardKV.NeedFetch | raftKv/src/shardkv/task.go:58-68 | true exactly if every shard is Normal |
| ShardKvServer.ShardKV.GetShardByStatus | raftKv/src/shardkv/task.go:146-160 | for each source group its shards of that status, ascending |
| ShardKvServer.ShardKV.AnswerPull | raftKv/src/shardkv/task.go:163-192 | not ready below the configuration asked for, else copies of the tables |
| ShardKvServer.MergeTables | raftKv/src/shardkv/conf_change.go:99-104 | the newer entry of each client, the own one on a tie |
| KvReplay.StoreIsFoldOfApplied | raftKv/src/kvraft/server.go:171-220 | without a restart, store and table are the fold of the log up to lastApplied, also after a snapshot moved it back |
| KvReplay.StoreIsFold | raftKv/src/kvraft/server.go:142-220 | with restarts too, they are the fold of a prefix, and each key answers with the last value put to it by a fresh write, followed by what fresh writes have appended since |
| KvReplay.FoldDeduplicates | raftKv/src/kvraft/server.go:187-198 | the same of the fold itself; fresh is a write that no earlier write of its client makes old |
| KvReplay.AnswersAreCurrent | raftKv/src/kvraft/server.go:184-204 | along every stream a Get is answered from the fresh writes so far, and a write OK, the first time and as a duplicate |
| KvReplay.TableIsExact | raftKv/src/kvraft/server.go:59-62 | the table calls a write old exactly if some write of that client in the prefix has at least its number |
| KvReplay.ReplayIsIdle | raftKv/src/kvraft/server.go:176-198 | a command the store has seen changes nothing when applied again |
| KvReplay.SnapshotsAreFolds | raftKv/src/kvraft/server.go:206-217 | among replicas that make, install and restart from snapshots, each snapshot is the fold of the log up to its index and each store the fold of what Raft has handed over |
| KvReplay.ReplicasAgree | raftKv/src/kvraft/server.go:171-220 | replicas that have been handed equally much hold the same store and table |
| KvReplay.KVServer.constructor | raftKv/src/kvraft/server.go:157-164 | an empty store, replaced by the snapshot if there is one, with lastApplied at 0 |
| KvReplay.KVServer.RestoreFromSnapshot | raftKv/src/kvraft/server.go:260-275 | store and table of the snapshot; nothing if it is empty |
| KvReplay.KVServer.MakeSnapshot | raftKv/src/kvraft/server.go:251-257 | the snapshot holds store and table |
| KvReplay.KVServer.RequestDuplicated | raftKv/src/kvraft/server.go:59-62 | whether the write is old |
| KvReplay.KVServer.ApplyToStateMachine | raftKv/src/kvraft/server.go:223-235 | the store and the reply |
| KvReplay.KVServer.Take | raftKv/src/kvraft/server.go:174-217 | one message equals the model's step, and its client is told the model's answer |
| KvReplay.KVServer.ApplyTask | raftKv/src/kvraft/server.go:171-220 | the loop takes and answers the messages one after another |
| Kmp.GetNext | LeetCode/practice/test15.go:21-33 | each entry is the length of the longest proper border of its prefix |
| Kmp.StrStr | LeetCode/practice/test15.go:3-19 | the first occurrence of a nonempty needle, -1 exactly if there is none |
| Kmp.ShortestDivides | LeetCode/practice/test16.go:16-18 | the shortest period divides every period that leaves room for both |
| Kmp.BorderDecides | LeetCode/practice/test16.go:16-19 | the test on the longest border holds exactly for strings that repeat a shorter one |
| Kmp.RepeatedSubstringPattern | LeetCode/practice/test16.go:3-20 | true exactly if the nonempty string is a shorter one written at least twice |
| MessageCodec.SeriesInverse | qpGames/framework/protocol/protocol.go:85-107 | after any series of SetDictionary calls, in any map order, routes and codes are inverse to each other |
| MessageCodec.AddKeepsInverse | qpGames/framework/protocol/protocol.go:90-106 | one call keeps them inverse and never changes or loses an entry |
| MessageWire.AddsUpToClash | qpGames/framework/protocol/protocol.go:90-106 | a call takes the entries up to the first whose route or code is taken, and none after it |
| MessageWire.VarintSpells | qpGames/framework/protocol/protocol.go:121-134 | an id is spelled seven bits to a byte, the lowest first, as shortly as possible, with only the last byte below 128 |
| MessageWire.MessageOnWire | qpGames/framework/protocol/protocol.go:110-147 | the flag byte of each kind in numbers, and the order of id, route and data; other kinds are refused |
| MessageWire.MarksRead | qpGames/framework/protocol/protocol.go:172-231 | with upper flag bits set besides, 16 delivers the inflated data, 32 the error mark, and the others nothing |
| MessageWire.UnknownKind | qpGames/framework/protocol/protocol.go:174-178 | the lower four bits from 8 on name no kind and are refused |
| MessageWire.UnfinishedId | qpGames/framework/protocol/protocol.go:181-194 | an id whose bytes run out is kept as far as it was read and delivered as data as well |
| MessageWire.UnknownCode | qpGames/framework/protocol/protocol.go:201-208 | a code that is not in the dictionary is an error |
| MessageCodec.ScanReadsVarint | qpGames/framework/protocol/protocol.go:181-194 | reading back an encoded id yields it, for every 64-bit id |
| MessageCodec.RoundTrip | qpGames/framework/protocol/protocol.go:110-231 | decoding an encoded message gives its kind, id, route and data as far as the format carries them |
| MessageCodec.RouteArrivesIff | qpGames/framework/protocol/protocol.go:135-143 | route and data arrive whole exactly if the route has a code or at most 255 bytes |
| MessageCodec.PacketRoundTrip | qpGames/framework/protocol/protocol.go:248-263 | kind and body arrive; the length in the header is right exactly if the body is shorter than 2^24 bytes |
| MessageWire.PacketOnWire | qpGames/framework/protocol/protocol.go:248-263 | one byte for the kind, three for the length, the high one first, then the body; kind 0 and more than 2^24 bytes are refused |
| MessageWire.BigEndian | qpGames/framework/protocol/tools.go:13-19 | the first byte counts most |
| MessageCodec.LengthRoundTrip | qpGames/framework/protocol/tools.go:4-19 | three bytes carry every length below 2^24 |
| MessageCodec.AccumulateBytes | qpGames/framework/protocol/tools.go:13-19 | the big-endian number the bytes spell |
| MessageCodec.AppendId | qpGames/framework/protocol/protocol.go:121-134 | appends the id's encoding |
| MessageCodec.ReadId | qpGames/framework/protocol/protocol.go:181-194 | the id and the offset behind it; the offset stays put if the bytes run out |
| MessageCodec.BuildPacket | qpGames/framework/protocol/protocol.go:248-263 | header and body in one buffer |
| MessageCodec.Protocol.constructor | qpGames/framework/protocol/protocol.go:14-17 | two empty tables |
| MessageCodec.Protocol.SetDictionary | qpGames/framework/protocol/protocol.go:85-107 | some order of the map explains the tables, which stay inverse and only grow |
| MessageCodec.Protocol.MessageEncode | qpGames/framework/protocol/protocol.go:110-147 | equals the model's encoding |
| MessageCodec.Protocol.MessageDecode | qpGames/framework/protocol/protocol.go:172-231 | equals the model's decoding, error and out-of-range cases included |

## Left out

- InstallSnapshot, installToPeer and the application ticker: they send on channels or read the log outside the lock, so they are not atomic steps; the cluster runs with compaction off and `CompactLog` treats compaction by itself.
- Timers, tickers, retries of clerks, notification channels and what a waiting client is told: wall-clock time and delivery of replies.
- Liveness: `ShardKvRest` shows that later configurations can be reached from every state, not that they will be.
- Raft replies to a server that has crashed in between may still arrive in the model; this only adds behaviours.
- RaftNode.Raft.StartReplication: a request holds a copy of the leader's entries; in the source `tail` hands out a slice that shares the leader's backing array and is encoded outside the lock.
- RaftNode: the server's log is a sequence whose positions are log indices, as it is with compaction off; the RaftLog object is modelled in `CompactLog`.
- ShardKvSystem: the reply to DeleteShardsData is not modelled; a puller may finish a move at any time after it has taken the shards in, which includes every behaviour of the source; `ShardKvPatient` treats the runs in which it waits.
- ShardKvSystem: snapshots of a group's own state are not modelled; a restored replica is at an earlier or the same state of its log.
- ShardKvClients.ExactlyOnce: a clerk is answered with the reply of its own command; the source matches replies to waiting requests by log index alone.
- ShardKvClients.AtMostOnce: assumes that clients give one tag to one key only, as clerks do by counting; `AtMostOncePerShard` needs no such assumption.
- ShardKvLostWrite.HandedIffNothingLost: for at most 256 shards, so that every shard has some key (a key's shard is its first byte modulo the number of shards).
- ShardBalance: the controller's measure replaces a sum of squares by the largest size and the number of groups that have it.
- KvHistory: the order of the parts after Partition (sorted keys) is not modelled, since each part is checked by itself.
- Checker: the kill flag, partial linearizations, parallel checking, renumbering of event histories and the visualization; `Equal` is equality of states.
- Bitset: a bitset is a value and a word a sequence of 64 bits; the in-place sharing of Go slices is not modelled (the source clones before it sets).
- Sorting: sort.Ints and sort.Sort are insertion sorts, of which only the order and the contents matter.
- MessageCodec: gzip inflation and trimming of white space are parameters; handshake bodies (JSON) are not modelled.
- The clerks, labrpc, labgob, the test harnesses, and the rest of the repository (HTTP, SQL and Redis services, card games, the other exercises): outside the core or finite domains.
