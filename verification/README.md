# Nexus-Mind in Dafny

A model of the distributed core of Nexus-Mind and proofs about it. Four parts of the Go sources are covered:
the Porcupine linearizability checker, the Raft implementation, the shard migration protocol of the sharded
key/value store, and the shard controller together with the replicated key/value server. `dafny verify
dfyconfig.toml` checks the whole project; nothing in it is executed.

## The linearizability checker

`Linearizability` says what the checker decides: a history is linearizable if all its operations have an order
that respects real time and that the sequential specification accepts. `Search` has the invariant of the
backtracking search over (linearized set, state) pairs, free of data structures: why pruning by the cache loses
nothing, why an exhausted search means that no order exists, and why the search ends. `Bitsets` refines 64-bit words
to finite sets. `LinkedEntries` and `EntryLists` treat the doubly linked list that `lift` and `unlift` rewrite in
place: at any time it is the history without the operations on the stack, and every lifted operation can still be
put back. `Checker.CheckSingle` is the loop itself, proved to decide linearizability, to end, never to follow a nil
pointer, and to record the longest legal orders. `Operations` turns timed operations into calls and returns,
`KvLocality` proves that a key/value history may be checked key by key, and `KvCheck.CheckOperations` puts it all
together. `KvConformance` ties the model to the servers that it judges: the model takes the key/value server's steps,
and every history that a server answers from one log is linearizable. Histories are well formed: ids are dense, each operation has one call and, later, one return, and is called
no later than it returns. `Equal` is an equivalence that `Step` respects. Library sorts are insertion sorts here; the
results use only that the outcome is sorted and a permutation.

## Raft

`RaftNode` gives each handler as a function on a peer's state; `RaftServer` and `RaftLogs` are the classes with the
fields of the source, whose methods are proved to do what those functions say. `RaftProtocol` is the cluster: peers,
the messages ever sent, and steps in which messages may be lost, delayed, repeated and reordered and peers may crash
and restart from disk. A step whose handler would index outside its log is a panic and is not taken. `RaftCore` and
`RaftCompleteness` hold the argument on terms, ballots, leaders' logs and acknowledgements; `RaftInvariant`,
`RaftSteps`, `RaftKeeping` and `RaftSafety` connect it to the peers; `RaftTheorems` states the results, and
`RaftApplication` what they mean for the entries delivered to the services. `RaftHandlers` says what the handlers mean
to other peers: when a vote is granted and an election won, who steps down, whom a leader calls, and when it commits.

Election safety and log matching hold in every run. State machine safety does not: an accepted AppendEntries call cuts
the log right after `PrevLogIndex` (`src/raft/raft_log.go:110-112`), and the network may reorder calls
(`src/labrpc/labrpc.go:35-36`), so a late call can undo an acknowledged entry. `RaftReorder` has a run of three peers
in which two leaders commit different commands at index 1. `RaftDelivery.AcceptedCallKeeps` says, for every run, which
accepted calls leave a follower with all it acknowledged in the term: exactly those that end no earlier than every
call of that term it has acknowledged. In runs whose accepted calls meet this condition, state machine safety and
leader completeness hold, local compaction included, and no handler indexes outside its log; lost, delayed and repeated
calls, and reordered ones that meet it, are covered. Handling each term's calls in the order they were made is enough
for it (`OrderedIsKeeping`).

`RaftBackup` is about the search for the matching index after a rejection, for a leader that has not compacted its log.
While the follower has not compacted its log either, the search ends within `nextIndex` exchanges with the leader's log
at the follower (`BackupFindsMatch`). With a compacted follower it still ends within that many exchanges, but it may end
where a further rejection leaves `nextIndex` as it is. `BackupExact` says exactly when: the first probe is below the
follower's snapshot, or above an index at which the follower goes on with the snapshot's term and the leader does not.
`RaftStuck` has a run of three peers, all calls handled in order, that leads there; the leader then repeats the same
probe as long as it leads with its whole log, and sends its snapshot once it has compacted it
(`src/raft/raft_replication.go:206-217`).

## The sharded store

A replica group applies the commands of its log one at a time, so it is one state machine (`ShardGroup`, and the class
in `ShardServer`). Its leaders may lag, so whatever a leader reads is some state that the group has had; proposals and
replies stay available for ever. `ShardProtocol` is that system. Each of its steps is, for every single shard, a step
of the machine in `MigrationCore` (`ShardProjection`), and the invariant is proved there (`MigrationSteps`,
`MigrationMoves`). All groups see the same numbered configurations.

A change of owner to gid 0 or from gid 0 moves no data (`src/shardkv/conf_change.go:56-69`), so what counts is the last
group that owned the shard (`MigrationGaps`). The results hold for all configurations in which a shard that is left to
nobody goes back to that group, and the condition is exact: under any other configurations the store has a run in which
a group serves a shard without an accepted write (`ShardExact.SafeConfigs`). On a single shard the last owner may even
go on serving next to the new one (`MigrationExact`); `ShardGaps` has such runs of the whole store for every gap of
every length after which all shards go to another group, and ties them to the controller: one group joins, leaves, and
another joins. `SafeHistories` says which histories of the controller are safe: those in which every join after the
departure of the last group restores the assignment.

`ShardReplies` is about the answers. A group refuses exactly what it does not serve. A write that is answered OK has
taken effect, and stays, for a client that waits for each answer before its next write; for one that does not, an
overtaken write is answered OK and dropped (`OvertakenIsLost`), and `AnsweredIsIn` says exactly when. `ShardClerks` adds
the clerks, which do wait (`src/shardkv/client.go:109-150`), and proves that they lose nothing they heard an OK for.

The new owner proposes its own clean-up without waiting for the old owner's answer. The source does wait for it
(`src/shardkv/task.go:132-138`), but it matches answers by log index only, so the answer may belong to another command;
the model allows the proposal at any time.

## The controller and the key/value server

`Assignments` counts shards and owner changes, `Levelling` is the loop of Join, and `ShardController` the state
machine. Maps are walked in an arbitrary order wherever the source ranges over a map. Join is modelled for non-zero
gids. `KvServer` is the replicated store with its duplicate table; after a restart `lastApplied` is 0 again while the
store already holds the snapshot, so commands may be applied a second time.

Findings about the sources, besides those above:

- With no partition at all, `checkParallel` waits for a result that never comes (`src/porcupine/checker.go:291-304`), so
  `CheckOperations` asks for a non-empty history.
- A join that leaves the cluster without groups gives every shard to the id -1
  (`src/shardctrler/state_machine.go:204-218`), and a move does not ask whether the group exists; `Join` and `Move` say
  exactly when the new configuration is well formed.
- A cluster of a single peer never elects a leader: the votes are counted only when another peer grants one
  (`src/raft/raft_election.go:133-188`, `RaftHandlers.ElectedWhen`).
- A snapshot message without data leaves the store as it is but sets `lastApplied` (`src/kvraft/server.go:214-218`).
  `DamageExactly` says that this does harm exactly when the message is ahead of the store, and `EmptySnapshotLoses` when
  the harm shows. The Raft of this repository sends no such message with an index above 0
  (`src/raft/raft_compaction.go:9-23`).

## Model

| member | source | states |
|---|---|---|
| `Linearizability.LegalIsLinearization` | src/porcupine/checker.go:179-253 | A complete order built operation by operation, each ready and accepted in turn, is a linearization by the definition on all pairs of operations, and conversely |
| `Search.SearchPush` | src/porcupine/checker.go:198-207 | Taking a call whose pair has not been seen keeps the invariant: legal stack, every seen pair either on the stack or exhausted |
| `Search.SearchSkip` | src/porcupine/checker.go:208-213 | Passing a call that is refused or whose pair was seen keeps the invariant |
| `Search.SearchPop` | src/porcupine/checker.go:214-242 | At a return the top pair is exhausted, so popping it keeps the invariant and the scan resumes right after the operation taken back |
| `Search.Exhausted` | src/porcupine/checker.go:198-243 | Once every seen pair is exhausted, the pair after any legal order has been seen up to `Equal`: pruning loses nothing |
| `Search.NoneExists` | src/porcupine/checker.go:215-217 | Giving up with an empty stack is right: no linearization exists |
| `Search.CacheBounded` | src/porcupine/checker.go:190-243 | All seen pairs belong to a finite set, which bounds the search |
| `Bitsets.MembersInjective` | src/porcupine/bitset.go:62-72 | Word sequences of one length with the same positions set are equal |
| `Bitsets.Bitset.constructor` | src/porcupine/bitset.go:10-17 | A new bitset is the empty set and has room for the asked number of positions, rounded up to words |
| `Bitsets.Bitset.Clone` | src/porcupine/bitset.go:19-23 | A fresh copy with the same words |
| `Bitsets.Bitset.Set` | src/porcupine/bitset.go:29-33 | Adds exactly one position to the set |
| `Bitsets.Bitset.Clear` | src/porcupine/bitset.go:35-39 | Removes exactly one position from the set |
| `Bitsets.Bitset.Get` | src/porcupine/bitset.go:41-44 | Membership |
| `Bitsets.Bitset.PopCount` | src/porcupine/bitset.go:46-52 | The number of positions in the set |
| `Bitsets.Bitset.Hash` | src/porcupine/bitset.go:54-60 | The words xored into the population count modulo 2 to the 64, a function of the words alone |
| `Bitsets.HashMoves` | src/porcupine/bitset.go:54-60 | Adding a position to a set changes its hash by exactly the position's bit and the two counts |
| `Bitsets.Bitset.Equals` | src/porcupine/bitset.go:62-72 | True exactly when the words are equal, and for one size exactly when the sets are equal |
| `LinkedEntries.InsertBefore` | src/porcupine/checker.go:70-81 | The node stands before the mark and after what stood before it; without a mark nothing changes |
| `LinkedEntries.Length` | src/porcupine/checker.go:83-90 | The number of nodes of the list |
| `LinkedEntries.Lift` | src/porcupine/checker.go:159-167 | The list loses exactly a call and its return; both keep pointing to the neighbours they had, pointers of other removed nodes do not change, and no nil node is followed |
| `LinkedEntries.Unlift` | src/porcupine/checker.go:169-177 | The list regains exactly the call and return that `Lift` removed, at their places |
| `LinkedEntries.UnliftPointers` | src/porcupine/checker.go:159-177 | Putting a return and its call back, in the reverse order of removal, restores the list of the larger set |
| `EntryLists.MakeLinkedEntries` | src/porcupine/checker.go:121-138 | One fresh node per entry, in order, each call pointing to its own return |
| `EntryLists.LiftCall` | src/porcupine/checker.go:203-207 | With one more operation lifted the list is again the history without the lifted operations, all of them restorable in reverse order |
| `EntryLists.UnliftCall` | src/porcupine/checker.go:235-241 | Undoes the last `LiftCall` |
| `Checker.CacheContains` | src/porcupine/checker.go:145-152 | Finds a pair exactly when a pair with the same set and an equal state was stored, though it looks only in one hash bucket |
| `Checker.RecordLongest` | src/porcupine/checker.go:219-234 | Replaces what is recorded for an operation of the stack exactly when there is nothing or something shorter |
| `Checker.NowLongest` | src/porcupine/checker.go:185-234 | When the search is exhausted, no legal order that contains an operation is longer than the one recorded for it |
| `Checker.Take` | src/porcupine/checker.go:200-207 | Taking a call keeps the loop invariant and leaves fewer unseen pairs |
| `Checker.Backtrack` | src/porcupine/checker.go:218-242 | Backtracking keeps the loop invariant and shortens the stack |
| `Checker.CheckSingle` | src/porcupine/checker.go:179-253 | Ends; returns true if and only if the history is linearizable; every recorded order is legal and contains its operation; on success, or when partial results are asked for, no legal order with an operation is longer than the recorded one |
| `Operations.MakeEntries` | src/porcupine/checker.go:48-60 | The calls and returns of all operations, sorted by time with calls before returns at one time |
| `Operations.SortedPrecedes` | src/porcupine/checker.go:39-46 | In any such sorting, an operation returns before another is called exactly when its return time is strictly smaller than the other's call time |
| `Operations.SameVerdict` | src/porcupine/checker.go:39-60 | However ties are sorted, the resulting history is linearizable exactly when the timed operations are |
| `KvModel.StoreByKey` | src/models/kv.go:35-54 | In the store of all keys each key has the value its own operations give it by the single-key step |
| `KvModel.AcceptedByKey` | src/models/kv.go:40-54 | The store of all keys accepts an order exactly when every key accepts its part |
| `KvLocality.Merge` | src/porcupine/model.go:28-32 | Orders of the single keys, each in real time, merge into one order of everything in real time |
| `KvLocality.PartitionExact` | src/models/kv.go:18-54 | A history is linearizable against the store of all keys if and only if every key's subhistory is linearizable against the single-key model |
| `KvCheck.LexMeans` | src/models/kv.go:28 | Keys are compared at the first place where they differ, a proper prefix first |
| `KvCheck.Partition` | src/models/kv.go:18-34 | One subhistory per key that occurs, in key order, each holding that key's operations in their order; independent of the order of the map walk |
| `KvCheck.CheckOperations` | src/porcupine/checker.go:274-373 | The verdict on a key/value history is Ok if and only if it is linearizable against one store of all keys |
| `KvConformance.StepIsServers` | src/models/kv.go:40-54 | The model of the whole store leads where the server goes, and accepts of a read exactly the value that the server answers |
| `KvConformance.ServedIsLinearizable` | src/kvraft/server.go:173-236 | Every history whose operations a server answers from one log, each at a command between its call and its return, is linearizable against one store of all keys |
| `RaftTypes.FirstForFromSpec` | src/raft/raft_log.go:86-95 | On terms in order, the scan finds the first index of a term from the snapshot on, or that there is none |
| `RaftLogs.RaftLog.constructor` | src/raft/raft_log.go:20-33 | The uncompacted log is what the snapshot stands for, followed by the entries |
| `RaftLogs.RaftLog.Size` | src/raft/raft_log.go:65-67 | The size of the uncompacted log |
| `RaftLogs.RaftLog.At` | src/raft/raft_log.go:69-79 | The uncompacted log's term at and above the snapshot index, and its entry above it |
| `RaftLogs.RaftLog.Last` | src/raft/raft_log.go:81-84 | Last index and term of the uncompacted log |
| `RaftLogs.RaftLog.FirstFor` | src/raft/raft_log.go:86-95 | The scan gives what it would give on the uncompacted log from the snapshot index on |
| `RaftLogs.RaftLog.Tail` | src/raft/raft_log.go:97-103 | The uncompacted log from an index above the snapshot on; from the snapshot index itself, its term and everything after it |
| `RaftLogs.RaftLog.Append` | src/raft/raft_log.go:106-108 | Appends to the uncompacted log |
| `RaftLogs.RaftLog.AppendFrom` | src/raft/raft_log.go:110-112 | Cuts the uncompacted log after the given index and appends |
| `RaftLogs.RaftLog.DoSnapshot` | src/raft/raft_log.go:132-150 | Compaction leaves the uncompacted log as it is; at or below the present snapshot it does nothing |
| `RaftNode.MajorityIndexSpec` | src/raft/raft_replication.go:112-119 | An index is at most the computed majority index exactly when more than half of the peers have matched it |
| `RaftServer.Raft.constructor` | src/raft/raft.go:228-262 | A server starts as a follower from what is on disk, or in term 1 with an empty log |
| `RaftServer.Raft.PersistLocked` | src/raft/raft_persistence.go:20-37 | Term, vote, log, snapshot index and snapshot go to disk |
| `RaftServer.Raft.ReadPersist` | src/raft/raft_persistence.go:40-85 | They come back from disk, with commit and applied index at the snapshot |
| `RaftServer.Raft.BecomeFollowerLocked` | src/raft/raft.go:106-122 | The whole new state: follower of the term, vote cleared and state saved on a new term, nothing for an older term |
| `RaftServer.Raft.BecomeCandidateLocked` | src/raft/raft.go:124-135 | The whole new state: next term, own vote, saved; nothing for a leader |
| `RaftServer.Raft.BecomeLeaderLocked` | src/raft/raft.go:137-149 | The whole new state: leader with next indexes at the end of the log and nothing matched; only for a candidate |
| `RaftServer.Raft.Start` | src/raft/raft.go:178-194 | A leader appends the command in its term and saves; others refuse |
| `RaftServer.Raft.RequestVote` | src/raft/raft_election.go:58-93 | New state and reply of the vote handler, with its saving points: the reply has the term before the call, and the vote is granted exactly in a later term, or without a vote in this one, to a candidate that is not behind |
| `RaftServer.Raft.RunElection` | src/raft/raft_election.go:164-188 | The candidate counts itself and asks every other peer with its last index and term |
| `RaftServer.Raft.HandleVoteReply` | src/raft/raft_election.go:133-162 | Votes are counted in the same term and role only; the majority makes a leader |
| `RaftServer.Raft.AppendEntries` | src/raft/raft_replication.go:47-105 | New state and reply of the handler: the four rejections, the cut and append, the commit index |
| `RaftServer.Raft.GetMajorityIndexLocked` | src/raft/raft_replication.go:112-119 | The largest index that more than half of the peers have matched |
| `RaftServer.Raft.StartReplication` | src/raft/raft_replication.go:191-234 | A round: the leader's own indexes, a call with the whole tail for each peer above the snapshot, a snapshot for the others |
| `RaftServer.Raft.HandleAppendReply` | src/raft/raft_replication.go:127-189 | A rejection lowers the probe, never raises it; a success sets the matched index and commits a majority index of the own term |
| `RaftServer.Raft.TakeCommitted` | src/raft/raft_application.go:10-24 | The entries of the log above the applied index and the snapshot, up to the commit index or the end of the log, in index order, and the applied index after them |
| `RaftServer.Raft.TakeSnapshot` | src/raft/raft_compaction.go:9-23 | Compaction up to a committed index above the present snapshot, saved; otherwise nothing |
| `RaftHandlers.VoteGrantedWhen` | src/raft/raft_election.go:58-93 | A vote is granted if and only if the term is later, or equal without an earlier vote, and the candidate's last entry is not behind; the reply carries the voter's term, and the vote is saved |
| `RaftHandlers.RefusalUnseatsCandidate` | src/raft/raft_election.go:65-146 | A candidate that asks a peer of a later term and hears the answer is a follower of that term |
| `RaftHandlers.ElectedWhen` | src/raft/raft_election.go:133-188 | Whatever answers a candidate hears, it leads if and only if one granted its vote and, with its own, more than half did |
| `RaftHandlers.StandsWhen` | src/raft/raft.go:124-135 | Every peer but a leader stands in the next term with its own vote, saved |
| `RaftHandlers.EveryoneIsCalled` | src/raft/raft_replication.go:191-234 | In a round a leader calls exactly the other peers that are not behind its snapshot |
| `RaftHandlers.CallCarries` | src/raft/raft_replication.go:219-229 | A call carries the rest of the leader's log after the entry it names, and the commit index |
| `RaftHandlers.CallAcceptedWhen` | src/raft/raft_replication.go:47-90 | A call is accepted if and only if it is of no earlier term and the log has the entry it names at or above the snapshot; the answer has the term before the call, and a call of an earlier term changes nothing |
| `RaftHandlers.AcceptedCallWrites` | src/raft/raft_replication.go:92-104 | An accepted call leaves the old entries up to the one it names, then its own and nothing more, saved, and the larger commit index |
| `RaftHandlers.RejectionUnseatsLeader` | src/raft/raft_replication.go:52-139 | A leader that calls a peer of a later term and hears the answer is a follower of that term |
| `RaftHandlers.SuccessMoves` | src/raft/raft_replication.go:178-188 | A success sets the peer's indexes, and the commit index moves exactly to the largest index that more than half have, if larger and of this term |
| `RaftHandlers.CommandTakenWhen` | src/raft/raft.go:178-194 | Exactly a leader takes a command, as one entry of its term at the end of its log, saved |
| `RaftHandlers.SnapshotTakenWhen` | src/raft/raft_compaction.go:9-23 | The snapshot index moves exactly to a committed index above it |
| `RaftApplication.DeliversCommitted` | src/raft/raft_application.go:10-31 | What a peer delivers at an index is its log's entry there, for exactly the indexes above the applied index and the snapshot and up to the commit index |
| `RaftApplication.DeliveriesAgree` | src/raft/raft_application.go:26-31 | When no accepted call ends before one acknowledged in its term: entries that any two peers deliver at one index, at any two times, are equal |
| `RaftApplication.AppliedGrows` | src/raft/raft_application.go:43-46 | Only a restart takes a peer's applied index back, so until then no index is delivered twice |
| `RaftCompleteness.UpToDateCovers` | src/raft/raft_election.go:20-28 | A candidate that is not behind a voter has every choosable entry that the voter has |
| `RaftTheorems.ElectionSafety` | src/raft/raft_election.go:58-93 | In every run, at most one peer is ever leader in a term |
| `RaftTheorems.LogMatching` | src/raft/raft_replication.go:73-94 | In every run, two logs at any two times that have the same term at an index agree on all entries up to it |
| `RaftTheorems.NothingUnsaved` | src/raft/raft_persistence.go:20-85 | In every run and state, a crash loses neither term nor vote nor log nor snapshot index, and commit and applied index start from the snapshot |
| `RaftTheorems.StateMachineSafety` | src/raft/raft_replication.go:47-105 | When no accepted call ends before one acknowledged in its term: entries that any two peers have committed at one index, at any two times, are equal, and nothing is applied that is not committed |
| `RaftTheorems.LeaderCompleteness` | src/raft/raft_replication.go:179-188 | When no accepted call ends before one acknowledged in its term: what a peer has committed is in the log of every leader of a later term |
| `RaftTheorems.NeverOutOfBounds` | src/raft/raft_log.go:69-75 | When no accepted call ends before one acknowledged in its term: no handler indexes outside its log |
| `RaftReorder.ReorderingBreaksStateMachineSafety` | src/raft/raft_log.go:110-112 | A run with one late call in which two peers commit different commands at index 1 |
| `RaftDelivery.AcceptedCallKeeps` | src/raft/raft_replication.go:73-94 | In every run, an accepted call leaves the follower with all it acknowledged in that term if and only if no acknowledged call ends after it |
| `RaftDelivery.OrderedIsKeeping` | src/raft/raft_replication.go:191-234 | In a run whose followers handle each term's calls in the order they were made, no accepted call ends before an acknowledged one |
| `RaftBackup.RejectionLowersProbe` | src/raft/raft_replication.go:149-165 | A rejection keeps the next index at least 1, and lowers it if and only if the probe was not below the follower's snapshot or the leader has the snapshot's term at or below the probe |
| `RaftBackup.BackupMakesProgress` | src/raft/raft_replication.go:149-165 | In every run without compaction, each rejection at the current next index strictly lowers it, and index 1 is accepted |
| `RaftBackup.BackupEnds` | src/raft/raft_replication.go:149-165 | From any next index, after fewer rejections than it, a probe is accepted and the follower has the leader's log, or the next index no longer moves; the former exactly when the logs do not diverge within the term of the follower's snapshot below the first probe, which is not below the snapshot |
| `RaftBackup.BackupFindsMatch` | src/raft/raft_replication.go:149-177 | In every run, from a leader and a follower that have compacted nothing: a chain of at most as many exchanges as the next index says, all rejected but the last, after which the follower has the leader's log |
| `RaftBackup.BackupExact` | src/raft/raft_replication.go:73-90 | In every run whose accepted calls cut nothing acknowledged, with any compaction at the follower: the backup ends with the leader's log there if and only if the first probe is neither below its snapshot nor above a divergence within the snapshot's term |
| `RaftBackup.StuckStays` | src/raft/raft_replication.go:79-84 | Once the next index no longer moves, the same exchange repeats and leaves the leader as it is |
| `RaftStuck.BackupGetsStuck` | src/raft/raft_replication.go:79-84 | A run of three peers with all calls handled in order, after which a whole further exchange with a compacted follower changes no peer |
| `MigrationMoves.StepInv` | src/shardkv/conf_change.go:54-120 | Every step on a shard keeps the invariant about owners, holder, frozen data, messages and earlier states |
| `MigrationMoves.TakeFacts` | src/shardkv/conf_change.go:79-93 | When data arrive at a group that waits for them, the old owner still holds the shard, frozen, and the message carries exactly the accepted writes |
| `MigrationMoves.CleanNotPending` | src/shardkv/conf_change.go:106-117 | A clean-up order reaches a group only after the new owner has taken the shard |
| `MigrationGaps.SameStep` | src/shardkv/conf_change.go:54-77 | Under such owners every step is the same step as under the last owners, who never leave the shard to nobody |
| `MigrationExact.GivingAwayLosesWrites` | src/shardkv/conf_change.go:56-69 | For all owners that give a shard to another group after a gap of any length, and every write: a reachable state in which the last owner serves the shard with the write and the new owner serves it without |
| `MigrationExact.SafeOwners` | src/shardkv/conf_change.go:54-120 | For all owners of one shard: every server has all writes, and there is one server at a time, if and only if a shard left to nobody always goes back to its last owner |
| `ShardGroup.FirstCharacter` | src/shardkv/client.go:20-27 | The shard of a key depends on its first character only, and successive characters take the shards in turn |
| `ShardGroup.ConfigTakenWhen` | src/shardkv/conf_change.go:54-77 | Exactly the next configuration is taken; shards from and to other groups are marked, and nothing else changes |
| `ShardGroup.AnswersWhenReached` | src/shardkv/task.go:168-197 | A group hands out its shards if and only if it has reached the asked configuration |
| `ShardGroup.MergedEntries` | src/shardkv/conf_change.go:95-101 | Of two tables each client keeps the entry with the larger number, its own group's on a tie |
| `ShardGroup.TakeShardsAt` | src/shardkv/conf_change.go:81-93 | In whatever order the arrived shards are walked, each is left alone or was awaited and gets the data |
| `ShardGroup.CleanShardsAt` | src/shardkv/conf_change.go:108-117 | Each shard is left alone or, if it was waiting for it, gets cleaned up |
| `ShardServer.MemoryKVStateMachine.CopyData` | src/shardkv/state_machine.go:32-38 | A copy, whatever the order of the walk |
| `ShardServer.MergeInto` | src/shardkv/conf_change.go:95-101 | The later entry for every client, whatever the order of the walk |
| `ShardServer.ShardKV.constructor` | src/shardkv/server.go:193-233 | All shards empty and normal under the first configuration, or the state of the group that the snapshot holds |
| `ShardServer.ShardKV.RestoreFromSnapshot` | src/shardkv/server.go:270-297 | The state of the group becomes that of the snapshot; without data nothing changes but missing shards, which start empty |
| `ShardServer.ShardKV.MatchGroup` | src/shardkv/server.go:78-82 | True when the group owns the key's shard and it is normal or waits for clean-up only |
| `ShardServer.ShardKV.ApplyClientOperation` | src/shardkv/task.go:220-239 | New state and reply: refused for another group's key, answered from the table if repeated, applied otherwise |
| `ShardServer.ShardKV.ApplyNewConfig` | src/shardkv/conf_change.go:54-77 | New state: the next configuration only, with the shards that move marked |
| `ShardServer.ShardKV.ApplyShardMigration` | src/shardkv/conf_change.go:79-104 | New state for some order of the map walk, which stops at the first shard not awaited; tables merged |
| `ShardServer.ShardKV.ApplyShardGC` | src/shardkv/conf_change.go:106-120 | New state of the walk over the listed shards, which stops at the first with nothing to clean |
| `ShardServer.ShardKV.GetShardByStatus` | src/shardkv/task.go:150-165 | For each former owner other than 0, exactly the shards with the status, in order |
| `ShardServer.ShardKV.GetShardsData` | src/shardkv/task.go:168-197 | Copies of the asked shards and the table; refused by a server that does not lead, and while behind |
| `ShardProjection.ClientStep` | src/shardkv/task.go:220-239 | A client operation is an accepted write on its shard and changes no other |
| `ShardProjection.MigrationStep` | src/shardkv/conf_change.go:79-104 | Applying a migration is, on each shard, taking its data or nothing |
| `ShardSafety.ChangeIsSafe` | src/shardkv/task.go:55-83 | A proposed configuration change finds all shards normal when it takes effect, though it was proposed from an earlier state |
| `ShardSafety.RunInv` | src/shardkv/conf_change.go:54-120 | The invariant of every shard holds in every state of every run |
| `ShardBatches.MigrationWhole` | src/shardkv/conf_change.go:81-93 | A migration takes all shards of its batch or none, whatever the order of the walk |
| `ShardBatches.AskedBatch` | src/shardkv/task.go:150-165 | The shards a group waits for from one source are the whole batch of that move |
| `ShardTheorems.OneGroupServes` | src/shardkv/server.go:78-82 | In every reachable state at most one group serves a shard |
| `ShardTheorems.ServerHasAllWrites` | src/shardkv/conf_change.go:54-120 | In every reachable state the serving group's data are exactly the accepted writes in order, and its table knows all of them |
| `ShardTheorems.NothingIsLost` | src/shardkv/conf_change.go:54-120 | In every reachable state all accepted writes of a shard are at one group, which serves it, keeps it for the next owner, or was the last owner while nobody owns it |
| `ShardTheorems.WritesAtMostOnce` | src/shardkv/task.go:220-239 | In every run a client's writes to a shard take effect with strictly growing sequence numbers, so none twice, across moves |
| `ShardTheorems.ChangesWhenNormal` | src/shardkv/conf_change.go:54-77 | In every run a configuration change takes effect only when every shard of the group is normal |
| `ShardTheorems.BatchesMoveTogether` | src/shardkv/conf_change.go:54-120 | In every reachable state shards on the same move have the same status |
| `ShardTheorems.ReadsTheMap` | src/shardkv/server.go:235-247 | In every run an answered Get returns the value of its key in the one map of all accepted writes, OK if and only if one of them wrote the key |
| `ShardTheorems.StepsOfTheMap` | src/shardkv/conf_change.go:54-120 | An accepted Put or Append changes that map at its key only; every other step leaves it as it is |
| `ShardReplies.RunTables` | src/shardkv/task.go:220-239 | In every run, every entry of every duplicate table, in groups and in messages, is the OK reply to an accepted write with that number |
| `ShardReplies.RefusedWhen` | src/shardkv/task.go:220-239 | In every run an operation is refused if and only if the group does not serve its shard, without any change; a served write is answered OK |
| `ShardReplies.AnsweredIsIn` | src/shardkv/task.go:220-239 | In every run a write with its own number that is answered OK has taken effect, if and only if no later write of its client has overtaken it in the group's table |
| `ShardReplies.AcknowledgedIsKept` | src/shardkv/client.go:109-150 | In every run, for a client that waits for each answer: a write answered OK is among the accepted writes of its shard in every later state |
| `ShardReplies.OvertakenIsLost` | src/shardkv/task.go:226-228 | For any owner of all shards and any two writes of one client: after the later one the earlier one is answered OK and has no effect |
| `ShardClerks.ClerksWritesAreIn` | src/shardkv/client.go:109-150 | In every run of store and clerks, each sending any of its writes again at any time and starting the next only after an OK: every write that was answered OK has taken effect on its shard |
| `ShardExact.GivingAwayLoses` | src/shardkv/conf_change.go:56-69 | For all configurations that give a shard to another group after a gap of any length, whatever happens to the other shards, and every write: a run of the whole store after which the new owner serves the shard without the accepted write |
| `ShardExact.SafeConfigs` | src/shardkv/conf_change.go:54-120 | For all configurations: in every run every serving group has exactly the accepted writes, if and only if every shard left to nobody goes back to its last owner |
| `ShardExact.Drive` | src/shardkv/task.go:55-150 | From rest in one configuration the groups can come to rest in any later one, all moves fetched, taken and cleaned up, with data that are not moved where they were |
| `ShardGaps.GapForks` | src/shardkv/conf_change.go:56-69 | For any two groups, any length of the gap between them and every write: a run of the whole store after which both serve the written shard, the later one without the write |
| `ShardGaps.TurnsFork` | src/shardctrler/state_machine.go:135-153 | The same under every history of the controller in which one group joins, leaves, and another joins |
| `ShardGaps.TakeTurns` | src/shardctrler/state_machine.go:23-155 | The controller's state machine has such a history |
| `ShardGaps.SafeHistories` | src/shardctrler/state_machine.go:23-170 | The configurations of a history are safe for the groups if and only if every join after the departure of the last group restores the assignment of before |
| `Assignments.BalancedCounts` | src/shardctrler/state_machine.go:77-87 | In an assignment balanced within one, every load is the average rounded down or up |
| `Assignments.Optimal` | src/shardctrler/state_machine.go:77-87 | A levelled balanced assignment changes no more owners than any balanced assignment |
| `Assignments.KeepsMore` | src/shardctrler/state_machine.go:135-149 | An assignment that keeps every owner that another one keeps changes no more owners |
| `Levelling.FairStep` | src/shardctrler/state_machine.go:78-86 | One round moves a shard that has not moved, from a group that has only given to one that has only taken |
| `Levelling.LevellingIsDeterministic` | src/shardctrler/state_machine.go:77-87 | From the same lists the rounds and the result are the same |
| `ShardController.GidWithMaxShards` | src/shardctrler/state_machine.go:182-202 | Unassigned shards first, then the smallest id among the largest groups |
| `ShardController.GidWithMinShards` | src/shardctrler/state_machine.go:204-218 | The smallest id among the smallest real groups, or -1 if there is none |
| `ShardController.BuildLists` | src/shardctrler/state_machine.go:53-59 | For each group and owner exactly its shards in order, whatever the order of the walk |
| `ShardController.StoreLists` | src/shardctrler/state_machine.go:90-95 | The assignment that the lists spell out, whatever the order of the walk |
| `ShardController.LevelShards` | src/shardctrler/state_machine.go:77-87 | The loop ends; the result is balanced within one, and there were as many moves as shards that changed owner |
| `ShardController.JoinLevels` | src/shardctrler/state_machine.go:23-100 | Every join from a well-formed configuration is balanced within one and changes the fewest owners of all balanced assignments |
| `ShardController.JoinIsDeterministic` | src/shardctrler/state_machine.go:34-97 | The outcome of a join does not depend on any map walk |
| `ShardController.LeaveOk` | src/shardctrler/state_machine.go:102-155 | A leave reassigns only the leaving groups' shards, to groups that stay, keeps loads within one, and changes the fewest owners of all assignments to the groups that stay |
| `ShardController.LeaveIsDeterministic` | src/shardctrler/state_machine.go:113-149 | The outcome of a leave does not depend on any map walk |
| `ShardController.CtrlerStateMachine.constructor` | src/shardctrler/state_machine.go:9-13 | One configuration, number 0, without groups or owners |
| `ShardController.CtrlerStateMachine.Query` | src/shardctrler/state_machine.go:15-20 | The configuration of that number, or the latest for a number out of range |
| `ShardController.CtrlerStateMachine.Join` | src/shardctrler/state_machine.go:23-100 | Appends one configuration and changes no earlier one: every old group keeps its servers, every new one has those given, and there is no other; loads within one, fewest owner changes, each shard moved at most once; it is well formed if and only if there is a group, and without one every shard goes to -1 |
| `ShardController.CtrlerStateMachine.Leave` | src/shardctrler/state_machine.go:102-155 | Appends one configuration and changes no earlier one: the groups are gone, only their shards have new owners |
| `ShardController.CtrlerStateMachine.Move` | src/shardctrler/state_machine.go:157-170 | Appends the last configuration with one shard at the given id, well formed if and only if that is a group, or 0 when there are none |
| `ShardController.HistoryOk` | src/shardctrler/state_machine.go:15-170 | In every run configuration i has number i, and either there are no groups and no owners or every owner is a current group |
| `ShardController.HistoryBalanced` | src/shardctrler/state_machine.go:23-155 | Runs of joins and leaves alone stay balanced within one |
| `ShardController.ReplicasAgree` | src/shardctrler/state_machine.go:23-170 | Replicas that apply the same changes have the same configurations |
| `KvServer.ReplayIsDeduplicated` | src/kvraft/server.go:186-200 | Applying a log makes the store of its fresh writes, those above all earlier numbers of their client, and a table of each client's largest number |
| `KvServer.FreshOnce` | src/kvraft/server.go:60-63 | No write of a client takes effect twice |
| `KvServer.ReplayedAgain` | src/kvraft/server.go:186-200 | Commands applied before change nothing when applied again, in any order and number |
| `KvServer.ReadAnswers` | src/kvraft/server.go:224-236 | A Get after some commands of the log returns the value that their fresh writes give its key, OK if and only if one of them wrote it |
| `KvServer.WriteAnswers` | src/kvraft/server.go:189-200 | A write is answered OK; a repeated one changes nothing and gets the reply that the client's last fresh write got |
| `KvServer.KVServer.constructor` | src/kvraft/server.go:144-170 | A restart brings back the snapshot's content with lastApplied at 0 |
| `KvServer.KVServer.OnCommand` | src/kvraft/server.go:177-200 | The next command extends the applied prefix of the log by one; a repeated one changes neither store nor table; a Get is answered with the value of the fresh writes so far, a write with OK |
| `KvServer.KVServer.OnSnapshot` | src/kvraft/server.go:214-218 | A snapshot replaces the content by that of its index; one without data leaves it, and the server still holds the effect of the log up to lastApplied if and only if it had reached that index |
| `KvServer.KVServer.MakeSnapshot` | src/kvraft/server.go:249-255 | A snapshot holds the content of the applied prefix |
| `KvServer.DamageExactly` | src/kvraft/server.go:173-222 | Of all that can happen to a server, only a snapshot message without data, ahead of what it has reached, makes it lose its place in the log |
| `KvServer.EmptySnapshotLoses` | src/kvraft/server.go:180-218 | After such a message and all commands up to its index, the store and table differ from those of the log if and only if a skipped command was a write that is no repetition |
| `KvServer.FirstWriteLost` | src/kvraft/server.go:180-218 | A run in which the first write of all is skipped that way |
| `KvServer.RunsReplayTheLog` | src/kvraft/server.go:173-272 | After any mix of deliveries, repetitions, snapshots, restarts and snapshot messages without data that are not ahead, store and table are those of a prefix of the log applied once |

## Left out

- Porcupine's kill switch, timeout, goroutines and result sets of `checkParallel`, the event API (`renumber`, `convertEntries`) and the visualization.
- The checker's cache keeps the words of a bitset: the source stores a clone that never changes, so aliasing does not arise.
- Raft's InstallSnapshot: it drops the whole tail, so the safety results cover local compaction only.
- `RaftServer.Raft.TakeCommitted`: takes and delivers the committed entries in one step, while the source releases its lock around the channel sends.
- Timers, random timeouts and every liveness claim that depends on time.
- `RaftServer.Raft.TakeSnapshot`: the snapshot bytes are opaque text.
- Go slice aliasing and data races: a message is a value copied when it is made.
- The bytes written by labgob and the persister, the labrpc network code and the test scaffolding.
- Notify channels and client timeouts: which reply reaches which waiting handler is not modelled.
- `ShardClerks.ClerksWritesAreIn`: a clerk hears the answer to its own command, while the source hands answers to waiting handlers by log index only.
- The server lists of shardkv configurations: the protocol model needs owners only.
- Replication inside a shardkv group, and its snapshots: a group is one state machine whose applied states form a sequence.
- `ShardController.HistoryOk`: histories have neither a move to an unknown group nor a join that leaves no group, after which a configuration need not be well formed.
- `RaftBackup.BackupExact`: the leader has its whole log; below its own snapshot it sends InstallSnapshot, which is not modelled.
- `ShardServer.ShardKV.ApplyClientOperation`: 64-bit client and sequence numbers are unbounded integers.
- The vector store, its index, filters, serialization and HTTP interface are not modelled.
