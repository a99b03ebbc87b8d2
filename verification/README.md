# SimpleKV, modelled and proved in Dafny

SimpleKV is a stack of distributed services: a Raft log with compaction, a replicated state machine
on top of it, a versioned key/value store, the same store split over shard groups that controllers
rebalance, clerks that talk to all of them over a lossy network, a lock built on compare-and-swap, and
a MapReduce engine. This project models the parts that are hard to get right and proves, for every
input, every run or every reachable state, what they are for.

Verify with `dafny verify dfyconfig.toml`.

## How the project is organised

* **Raft** (`src/raft1/raft.go`). `RaftNode` holds the lock-held regions as functions on a peer's
  state, and `RaftHandlers` says what each amounts to as rules about terms, indexes and majorities; `RaftPeer` is the
  peer as it runs, a class whose methods update its fields and are each
  proved equal to those functions, with the persisted copy equal to memory whenever the lock is
  released. `RaftSystem` is a whole cluster: peers, services, and a network that loses, delays,
  reorders and duplicates; a step is one lock-held region, one message handed to a service, one
  compaction, or a crash and restart. `TermLogs` and `HistorySteps` are an abstract account of Raft
  (who voted for whom, what each term's leader ever had in its log, who acknowledged what) whose
  invariant is inductive; `RaftGlue`, `RaftElections`, `RaftReplication`, `RaftFollowing`,
  `RaftReplies` and `RaftSafety` show that every step of the cluster is a step of that account, logs
  being compacted or not. `RaftTheorems` states the results in terms of the cluster alone, and `RaftExample` follows
  one run from election to a transferred snapshot.
* **Replicated state machine** (`src/kvraft1`). `ReplicatedService` adds Submit, its channels and the
  reader to the cluster; `StartedCommands` and `StartedOnce` track where commands come from;
  `ReplicatedStore` is the key/value server on top.
* **Sharding** (`src/shardkv1`). `ShardGroup` is one group; `ShardMigration` is the service with any
  number of groups and any number of controllers, each a machine that may stall at any point and be
  overtaken, with requests executed late and repeatedly. `ShardSafety`, `ShardSteps` and `ShardExec`
  carry the invariant, `ShardTheorems` and `ShardHistory` the results, `ShardProgress` what controllers and groups
  do achieve, `ShardInit` one particular run. `Assignments` and
  `Rebalancing` treat `Rebalance`, Join and Leave.
* **Clerks and locks** (`src/kvsrv1`, `src/kvraft1`, `src/shardkv1`). `VersionedStore`, `Clerks`,
  `LockService`.
* **MapReduce** (`src/mr`, `src/main/mrsequential.go`). `MapReduceData` is what is computed,
  `MapReduceCoordinator` the coordinator, `MapReduceRuns` a whole job, `MapReduceProgress` how it can be finished.

## What is assumed

* Encoding followed by decoding (gob, JSON) gives the value back; configurations are compared as
  values where the source compares their JSON text.
* Operation identities (random start plus counter) and lock tokens are never reused.
* Versions, terms, indices and configuration numbers do not wrap.
* `Key2Shard` and `ihash` are arbitrary functions into their range.
* A group id never comes back with fresh state, and all controllers initialise with the same first
  configuration, which puts every shard at group 1.
* In the sharded model a group and the configuration store are atomic objects; the replicated
  service results are what justifies this.

## Findings

* The reply `XLen = logOffset + 1` of a follower that compacted the probed index moves the probe
  *up*. It stays within the leader's log only because of Leader Completeness
  (`RaftReplies.BackUpInRange`, `RaftTheorems.FastBackup`).
* A refused `Leave` or `Join` has already removed or added the groups it met before the offending
  one, and no rebalancing follows, so not every sequence of JoinBalance and LeaveBalance keeps shards
  on member groups or loads even. `Rebalancing.RefusedLeaveKeepsPlacementIff` and
  `Rebalancing.RefusedJoinKeepsPlacementIff` say exactly when the configuration survives, in terms of
  the call's arguments; `Rebalancing.RefusedLeaveMayStrand` and `Rebalancing.RefusedJoinMayUnbalance`
  are concrete failures.
* A completion report that is counted although its task is already done makes the coordinator's counter
  too small, and the phase is declared over early. `MapReduceCoordinator.ReportKeepsCountIff` gives the
  exact condition for one report, `MapReduceRuns.MapPhaseOverIff` and `MapReduceRuns.JobDoneIff` for whole
  runs, and `MapReduceCoordinator.DuplicateReportEndsMapPhaseEarly` a concrete failure. Reporting each
  token at most once is enough to avoid it (`MapReduceRuns.ReportedOnceNeverHits`); the shipped worker does.
* A controller that calls InitConfig after a later configuration has been published panics, although it
  brings the very first configuration. `ShardTheorems.InitPanicsIff` says exactly when, and
  `ShardInit.LateInitPanics` is a run that gets there.

## Model

| member | source | states |
|---|---|---|
| RaftTheorems.StateMachineSafety | src/raft1/raft.go:650-683 | over a whole run with loss, reordering, crashes, compaction and installed snapshots, no two services execute different commands, or answer differently, at one index |
| RaftTheorems.OneLogExplainsTheRun | src/kvraft1/rsm/rsm.go:139-172 | for every run there is one list of commands such that at every moment every replica is the fold of the prefix it consumed, every snapshot taken or installed stands for exactly the prefix it replaces, every log retains the list's commands from there to its commit index, everything handed to a service is the list's command at that index, and every reply is that of executing the list in order |
| RaftTheorems.LeaderCompletenessOverRuns | src/raft1/raft.go:875-896 | whatever any server ever knew to be committed in a term is in the logical log of every leader of every later term, at every moment of its reign, compacted or not: the leader's log reaches that far, above its snapshot it retains exactly those commands of the one list, and its snapshot folds the rest |
| RaftTheorems.LogMatchingOverRuns | src/raft1/raft.go:321-347 | two servers, at any two moments, that hold the same term at the same index, snapshot slot included, agree through it: on every entry both retain, and where one has compacted an entry the other retains the command of the list the snapshot folds |
| RaftTheorems.OneLeaderPerTerm | src/raft1/raft.go:505-585 | over a whole run, restarts included, at most one server is ever leader in a term |
| RaftTheorems.ApplyStreamContinuous | src/raft1/raft.go:650-683 | what is offered to a service is the next command after the last one consumed, or a snapshot strictly further on |
| RaftTheorems.FastBackup | src/raft1/raft.go:847-869 | acting on a rejection keeps the probe between 1 and lastLogIndex+1, strictly lowers it for a conflicting term or a short log, and raises it to just above the follower's snapshot when the follower had compacted the probed index |
| RaftSafety.IndexSafety | src/raft1/raft.go:92-102 | in every reachable state logOffset <= lastApplied <= commitIndex <= lastLogIndex, every leader has matchIndex+1 <= nextIndex <= lastLogIndex+1 for every peer, and no step that can be taken indexes a log out of bounds |
| RaftSafety.NextGlued | src/raft1/raft.go:286-409 | every step of the cluster is a step of the abstract account of Raft that keeps its invariant, and only Start on a leader adds an entry |
| RaftReplies.BackUpInRange | src/raft1/raft.go:853-869 | a rejection acted on leaves nextIndex in range, using Log Matching and Leader Completeness for the compacted follower |
| RaftReplies.LastOfTermBelowProbe | src/raft1/raft.go:855-862 | if the leader holds the conflicting term at all, its last entry of that term lies below the probed index |
| RaftFollowing.RetainsIffContains | src/raft1/raft.go:385-399 | an installed snapshot keeps the log suffix exactly when the follower's logical log contains the prefix the snapshot stands for |
| RaftFollowing.AcceptLog | src/raft1/raft.go:333-347 | accepting entries turns the logical log into one that contains the leader's prefix, truncating only what conflicts |
| RaftElections.ComparisonFaithful | src/raft1/raft.go:277-284 | comparing last term and index of compacted logs holds if and only if the logical logs compare so, and the vote is granted if and only if the abstract account allows it |
| RaftReplication.MayCommitChosen | src/raft1/raft.go:875-896 | an index the commit rule accepts is acknowledged by a majority in the leader's own term |
| TermLogs.LogMatching | src/raft1/raft.go:307-347 | logs whose entries stem from their terms' leaders and agree on a term at an index agree on everything up to it |
| TermLogs.LeaderCompleteness | src/raft1/raft.go:277-284 | a prefix committed in a term is a prefix of every later leader's log, by quorum intersection and the vote's comparison |
| TermLogs.ElectionSafety | src/raft1/raft.go:248-275 | two vote majorities of one term elect the same server |
| TermLogs.CommittedAgree | src/raft1/raft.go:348-357 | any two committed prefixes are prefixes of one another |
| HistorySteps.CastVoteSound | src/raft1/raft.go:248-275 | granting a vote to an up-to-date candidate keeps the invariant |
| HistorySteps.WinSound | src/raft1/raft.go:586-605 | starting a reign on a majority of votes keeps the invariant |
| HistorySteps.ExtendSound | src/raft1/raft.go:462-482 | a leader appending an entry keeps the invariant |
| HistorySteps.AdoptSound | src/raft1/raft.go:286-359 | a follower taking over a prefix of its leader's log keeps the invariant, without losing anything it acknowledged in earlier terms |
| RaftPeer.Raft.Make | src/raft1/raft.go:606-648 | a peer started from what was persisted is the specified restarted peer, its term, vote, log, offset and snapshot as persisted |
| RaftPeer.Raft.Persist | src/raft1/raft.go:173-185 | the persisted copy equals memory |
| RaftPeer.Raft.RequestVote | src/raft1/raft.go:248-275 | new state and reply are those of the specified vote handler, persisted before release |
| RaftPeer.Raft.CandidateLogIsUpToDate | src/raft1/raft.go:277-284 | the candidate's last term is larger, or equal with a last index at least as large |
| RaftPeer.Raft.BeginElectionLocked | src/raft1/raft.go:505-521 | candidate in the next term with its own vote, persisted, and the vote request to send |
| RaftPeer.Raft.HandleVoteReply | src/raft1/raft.go:522-585 | state and counted votes are those of the specified reply handler, for which ElectedIff and LaterTermWins hold |
| RaftPeer.Raft.InitLeader | src/raft1/raft.go:586-605 | nextIndex just past the log, matchIndex zero except the leader's own |
| RaftPeer.Raft.AppendEntry | src/raft1/raft.go:286-359 | new state and reply are those of the specified append handler, for which AppendFollows, AppendStores, AppendCommits and RejectionTells hold, persisted before release |
| RaftPeer.Raft.FirstIndexOfRun | src/raft1/raft.go:320-331 | the first index of the run of the conflicting term within the retained log |
| RaftPeer.Raft.StoreEntries | src/raft1/raft.go:333-347 | the log is cut at the first conflict only and extended by what is missing |
| RaftPeer.Raft.Start | src/raft1/raft.go:462-482 | a leader appends the command in its term, persisted; others change nothing |
| RaftPeer.Raft.BeginHeartbeat | src/raft1/raft.go:684-703 | the append request for a peer: previous index and term, and the retained tail from nextIndex |
| RaftPeer.Raft.PushForwardLocked | src/raft1/raft.go:875-896 | the downward scan computes the specified commit point, for which CommitsLargest holds |
| RaftHandlers.CommitsLargest | src/raft1/raft.go:875-896 | the new commit index is the largest index past the old one whose entry is of the current term and which more than half of the peers have, or the old one when there is none |
| RaftHandlers.VoteGrantedIff | src/raft1/raft.go:248-284 | a vote is granted exactly in a term not past, to the first asker of the term, whose last term is later or the same with a log no shorter; and the state it leaves |
| RaftHandlers.StandsInNextTerm | src/raft1/raft.go:505-521 | the next term, the own vote, and a request that names exactly the end of the own log |
| RaftHandlers.ElectedIff | src/raft1/raft.go:522-605 | a candidate becomes leader exactly on a granted vote of its term that completes a strict majority, probing every peer just past its log |
| RaftHandlers.LaterTermWins | src/raft1/raft.go:553-560 | a reply of a later term makes a follower of that term with a free vote, and changes nothing else |
| RaftHandlers.AppendFollows | src/raft1/raft.go:286-331 | an append succeeds exactly in a term not past when the entry before the new ones agrees; otherwise log and commit index stay |
| RaftHandlers.AppendCommits | src/raft1/raft.go:348-357 | after an accepted append the commit index covers exactly what it covered before and what the leader had committed as far as the request vouches for |
| RaftHandlers.AppendStores | src/raft1/raft.go:333-347 | everything before the first conflict stays, and if the entries are not all there already the log ends with them from there |
| RaftHandlers.RejectionTells | src/raft1/raft.go:307-331 | what a rejection tells the leader: just above the snapshot, just past the end, or the term found and exactly where its run begins |
| RaftHandlers.ProbesWhereTold | src/raft1/raft.go:847-869 | where the leader probes next: past its own last entry of the conflicting term, at the start of the follower's run when it has none, or where the follower says; stale rejections change nothing |
| RaftHandlers.StartAppendsOne | src/raft1/raft.go:462-482 | Start adds one entry of the leader's term at the end of its log, and elsewhere does nothing |
| RaftHandlers.RequestCarriesTheRest | src/raft1/raft.go:684-703 | the request for a peer carries every entry from its next index to the end of the log |
| RaftHandlers.SuccessAdvances | src/raft1/raft.go:829-846 | a successful append moves the peer's indexes up to what was sent, never down, and applies the commit rule |
| RaftHandlers.SnapshotAdvances | src/raft1/raft.go:781-788 | an acknowledged snapshot moves the peer's indexes past it |
| RaftHandlers.SnapshotCompacts | src/raft1/raft.go:221-245 | an applied, not yet compacted index is compacted through exactly, the log after it unchanged; any other is ignored |
| RaftHandlers.SnapshotInstalls | src/raft1/raft.go:361-409 | a snapshot beyond the commit index becomes the compacted, committed and applied prefix and is queued; the log after it stays exactly when its term agrees there |
| RaftHandlers.ApplierHandsOver | src/raft1/raft.go:650-683 | a queued snapshot first, then each committed command in turn, resting only when all is handed over |
| RaftHandlers.RestartKeeps | src/raft1/raft.go:606-648 | a restart keeps everything persisted and starts as a follower with the compacted prefix applied |
| RaftExample.CommittedAndTransferred | src/raft1/raft.go:462-896 | for every machine and command a cluster of three has a run that elects a leader, commits and answers the command, compacts, and brings the third service to the same state by snapshot |
| RaftPeer.Raft.HandleAppendReply | src/raft1/raft.go:817-869 | step down, advance, commit, or back up exactly as specified |
| RaftPeer.Raft.Snapshot | src/raft1/raft.go:221-245 | the log is cut at an applied index, whose term becomes the snapshot slot; anything else is ignored |
| RaftPeer.Raft.BeginInstallSnapshot | src/raft1/raft.go:705-715 | the snapshot request: the compacted prefix's index, term and contents |
| RaftPeer.Raft.InstallSnapshot | src/raft1/raft.go:361-409 | a newer snapshot replaces the prefix, keeps a matching suffix, and is queued for the service; an older one is ignored |
| RaftPeer.Raft.HandleSnapshotReply | src/raft1/raft.go:767-788 | step down, or move matchIndex and nextIndex up past the snapshot |
| RaftPeer.Raft.ApplyNext | src/raft1/raft.go:650-683 | a pending snapshot first, otherwise the next committed command |
| ReplicatedService.SubmitIsLinearizable | src/kvraft1/rsm/rsm.go:98-172 | one list of committed operations, none of them twice, explains all replicas; every Submit that returned OK returned the result of its own operation at its position in it; and an operation whose Submit had returned comes before every operation whose Submit began later |
| ReplicatedService.ServiceRun | src/kvraft1/rsm/rsm.go:70-172 | every run of the service contains a run of its Raft cluster, so the Raft results apply to it |
| ReplicatedService.RSM.Register | src/kvraft1/rsm/rsm.go:105-118 | an operation for the request under an identity never issued before, with an empty channel of its own and no other channel touched |
| ReplicatedService.RSM.Await | src/kvraft1/rsm/rsm.go:112-136 | the wait ends with the result, or without one when leadership or the apply stream is gone; the channel is removed on every return |
| ReplicatedService.RSM.Read | src/kvraft1/rsm/rsm.go:139-172 | a command is executed and its result put on its own channel if that is open and empty, every other channel unchanged; a snapshot replaces the state |
| ReplicatedService.WaitingSubmitCompletes | src/kvraft1/rsm/rsm.go:98-172 | whenever a server's reader is about to take an operation whose Submit waits there, it takes it and that Submit can return OK with the result at the operation's very index in the list |
| StartedOnce.CommittedOnce | src/raft1/raft.go:462-482 | a command started once occupies one place in the committed log |
| ReplicatedStore.ReplicatedVerdictsAreTrue | src/kvraft1/client.go:84-111 | over a whole run of the replicated server, a clerk Put that returned OK took effect exactly once and one that returned ErrVersion never did, late commits included |
| ReplicatedStore.ReplicatedCallsAnsweredRight | src/kvraft1/server.go:31-70 | every completed Get returned the value of the last successful Put of its key before it in the list and their number as version, or ErrNoKey when there was none; every Put succeeded exactly when it named that number |
| VersionedStore.PutIsCompareAndSwap | src/kvsrv1/server.go:58-84 | a Put succeeds exactly when it names the key's version (0 when missing), moves that key alone to the next version, and otherwise changes nothing |
| VersionedStore.KVServer.Get | src/kvsrv1/server.go:40-56 | the stored value and version, or ErrNoKey |
| VersionedStore.KVServer.Put | src/kvsrv1/server.go:58-84 | state and error are those of the compare-and-swap |
| VersionedStore.KVServer.DoOp | src/kvraft1/server.go:31-70 | state and reply are those of executing the request on the map, for which ReadsLastWrite holds |
| Clerks.ReadsLastWrite | src/kvraft1/server.go:31-70 | in any legal history a request not refused is answered as the Puts before it call for: last value written and number of writes, ErrNoKey when none; a Put succeeds exactly at that number |
| VersionedStore.KVServer.Restore | src/kvraft1/server.go:83-95 | a snapshot replaces the whole map; an absent one changes nothing |
| Clerks.OneSuccessPerVersion | src/kvsrv1/server.go:58-84 | at most one Put per key and version ever succeeds |
| Clerks.VerdictsAreTrue | src/kvsrv1/client.go:51-90 | OK means exactly one attempt of the call took effect in the whole run, ErrVersion that none ever does |
| Clerks.PutToServer | src/kvsrv1/client.go:69-90 | the verdict is the first answer, ErrVersion turned into ErrMaybe after a lost call, and is grounded in the attempts |
| Clerks.Clerk.PutToLeader | src/kvraft1/client.go:84-111 | the same going round the servers past ErrWrongLeader, one server on for each call that came to nothing |
| Clerks.Clerk.PutToGroup | src/shardkv1/shardgrp/client.go:63-89 | the same with each server asked at most once, ErrWrongLeader when none answered |
| Clerks.PutToShards | src/shardkv1/client.go:90-131 | the same over rounds at changing groups, ErrVersion surviving only when the first attempt of all was answered, going on until an answer decides |
| ShardHistory.ShardedHistoryIsLegal | src/shardkv1/shardgrp/server.go:54-99 | the client requests executed in any run, migrations included, are a history of one versioned store |
| ShardHistory.ShardedCallsAnsweredRight | src/shardkv1/shardgrp/server.go:54-99 | across migrations, a Get not refused returns the value of the last successful Put of its key anywhere before it and their number, or ErrNoKey when there was none; a Put succeeds exactly when it names that number |
| ShardHistory.ShardedVerdictsAreTrue | src/shardkv1/client.go:90-131 | clerk verdicts hold across shard moves |
| LockService.MutualExclusion | src/kvsrv1/lock/lock.go:35-123 | two Lock objects never hold one name, in any run |
| LockService.HolderIsStored | src/kvsrv1/lock/lock.go:35-80 | from the return of Acquire until Release is called the stored value is the holder's token |
| LockService.OnlyTheHolderFrees | src/kvsrv1/lock/lock.go:82-123 | while an object's token is stored the only write that can succeed is idle, once that object is inside Release; no delayed write takes effect |
| LockService.UntilFreed | src/kvsrv1/lock/lock.go:82-123 | during Release the token is still stored, or this object's idle write came right after it |
| LockService.StepInv | src/kvsrv1/lock/lock.go:35-123 | every step of every Lock object and every late write keeps the lock invariant |
| LockService.UnheldLockCanBeTaken | src/kvsrv1/lock/lock.go:35-80 | from every reachable state in which nobody has the lock an undisturbed Acquire returns holding it, whether told of its write or having to look |
| LockService.HeldLockCanBeFreed | src/kvsrv1/lock/lock.go:82-123 | an undisturbed Release leaves the lock idle and no longer held |
| ShardGroup.KVServer.FreezeShard | src/shardkv1/shardgrp/server.go:101-147 | status, number and returned state as specified, repeats and stale numbers included |
| ShardGroup.KVServer.InstallShard | src/shardkv1/shardgrp/server.go:148-180 | the shard's entries are replaced by those received and served, only for a larger number on an absent shard |
| ShardGroup.KVServer.DeleteShard | src/shardkv1/shardgrp/server.go:181-211 | state and reply are those of the specified delete, for which AbsentShardsAreEmpty and RequestsTakeEffect hold |
| ShardGroup.KVServer.GetOrPut | src/shardkv1/shardgrp/server.go:56-99 | state and reply are those of the specified client operation: refused exactly when not served, otherwise as ShardedCallsAnsweredRight says |
| ShardGroup.KVServer.Execute | src/shardkv1/shardgrp/server.go:54-215 | the dispatch equals the specified operation |
| ShardGroup.KVServer.EncodeShard | src/shardkv1/shardgrp/server.go:266-288 | exactly the entries whose key belongs to the shard |
| ShardGroup.KVServer.Restore | src/shardkv1/shardgrp/server.go:232-246 | data, statuses and numbers all come back |
| ShardGroup.KVServer.constructor | src/shardkv1/shardgrp/server.go:340-373 | group 1 serves every shard at number 1, others none |
| ShardMigration.ListMoves | src/shardkv1/shardctrler/shardctrler.go:177-194 | the shards whose owner changes, in order, with both ends |
| ShardSafety.MovesOfOk | src/shardkv1/shardctrler/shardctrler.go:177-194 | the listed moves are exactly the shards that change owner |
| ShardSteps.ReadingInv | src/shardkv1/shardctrler/shardctrler.go:64-155 | initialising, reading the keys and choosing what to do keep the invariant |
| ShardSteps.MovingInv | src/shardkv1/shardctrler/shardctrler.go:167-256 | recording the goal and going through freeze, install, delete and publish, or stopping anywhere, keep the invariant |
| ShardExec.PutInv | src/shardkv1/shardctrler/shardctrler.go:139-153 | a write to either configuration key, however late, keeps the invariant and only ever extends the chain of configurations |
| ShardTheorems.RequestHops | src/shardkv1/shardgrp/server.go:101-211 | a freeze, install or delete, however late or repeated, does nothing or takes its shard exactly one phase further |
| ShardTheorems.RefinesOneMap | src/shardkv1/shardgrp/server.go:54-211 | along every run there is one map, empty at first; a client request is refused exactly when the group does not serve its shard, and otherwise answered and carried out as the map alone would; nothing any controller does shows |
| ShardProgress.AbsentShardsAreEmpty | src/shardkv1/shardgrp/server.go:181-211 | in every reachable state a group has no data of a shard that is absent there |
| ShardProgress.RequestsTakeEffect | src/shardkv1/shardgrp/server.go:101-211 | a controller's request for a change that is over does nothing; for the change in progress it always succeeds and what it asks for is so afterwards |
| ShardProgress.FencedByNumber | src/shardkv1/shardgrp/server.go:101-211 | on any group, a smaller number is answered ErrVersion and a larger one on the wrong side ErrWrongGroup, both without effect |
| ShardProgress.RecoveryCompletes | src/shardkv1/shardctrler/shardctrler.go:64-94 | from every reachable state with a recorded change, whatever was left half done, one undisturbed controller makes the next configuration current |
| ShardProgress.ChangeCompletes | src/shardkv1/shardctrler/shardctrler.go:110-256 | from every reachable state without a change in progress, one undisturbed controller makes the configuration asked for current, whether told of its write or having to look |
| ShardTheorems.TheMapIsDetermined | src/shardkv1/shardgrp/server.go:54-99 | that map is determined by each state |
| ShardTheorems.ExclusiveOwnership | src/shardkv1/shardgrp/server.go:101-211 | at most one group serves a shard, however many controllers run or stall |
| ShardTheorems.EveryShardHeldOnce | src/shardkv1/shardctrler/shardctrler.go:195-238 | exactly one group holds each shard at every moment: it serves it, or keeps it frozen while nobody serves it |
| ShardTheorems.OneConfigPerNumber | src/shardkv1/shardctrler/shardctrler.go:110-155 | each configuration number has one configuration, ever |
| ShardTheorems.NextAtMostOneAhead | src/shardkv1/shardctrler/shardctrler.go:118-153 | current.Num <= next.Num <= current.Num+1, and numbers equal key versions |
| ShardTheorems.InitPanicsIff | src/shardkv1/shardctrler/shardctrler.go:36-60 | a controller initialising a key finds another configuration there, and panics, if and only if the key has been written at least twice |
| ShardInit.LateInitPanics | src/shardkv1/shardctrler/shardctrler.go:36-60 | a run in which a second controller initialises with the same first configuration after a change, and panics |
| ShardTheorems.DeletedOnlyAfterInstalled | src/shardkv1/shardctrler/shardctrler.go:211-238 | whenever a delete would drop data, another group has installed the shard for that number and serves it |
| ShardTheorems.NothingIsNeverDecoded | src/shardkv1/shardgrp/server.go:159-168 | the empty state a repeated freeze may return never reaches the decoder |
| Assignments.FewestMoves | src/shardkv1/shardcfg/shardcfg.go:122-154 | no even assignment to the member groups changes fewer shards than a one-way one that either raises nobody above the floor or lowers nobody below the ceiling |
| Rebalancing.MoveOne | src/shardkv1/shardcfg/shardcfg.go:139-153 | moving a shard from a most to a least loaded group keeps everything the minimality argument needs, and the shard had never been moved |
| Rebalancing.AdoptOrphan | src/shardkv1/shardcfg/shardcfg.go:131-138 | giving an unassigned shard to a least loaded group keeps gainers within one of the floor |
| Rebalancing.ShardConfig.Analyze | src/shardkv1/shardcfg/shardcfg.go:80-111 | the most and least loaded member groups with their loads, ties to the smallest id, sentinels when there is no group |
| Rebalancing.ShardConfig.Rebalance | src/shardkv1/shardcfg/shardcfg.go:122-154 | terminates; every shard on a member group, loads within one, no group both gains and loses, each changed shard written once, and no even assignment changes fewer shards |
| Rebalancing.ShardConfig.Join | src/shardkv1/shardcfg/shardcfg.go:156-183 | groups and outcome are those of adding in the order the map was traversed; done exactly for new groups sharing no server |
| Rebalancing.ShardConfig.Leave | src/shardkv1/shardcfg/shardcfg.go:185-205 | which groups are gone and whether it was done, refused or fatal |
| Rebalancing.ShardConfig.JoinBalance | src/shardkv1/shardcfg/shardcfg.go:207-213 | when done the configuration is balanced with fewest moves; otherwise shards and number are untouched |
| Rebalancing.ShardConfig.LeaveBalance | src/shardkv1/shardcfg/shardcfg.go:215-221 | the same for leaving, and unassigned shards when the last group leaves |
| Rebalancing.LeaveDoneIff | src/shardkv1/shardcfg/shardcfg.go:185-205 | leaving succeeds exactly for a nonempty list of different member groups |
| Rebalancing.RefusedLeaveKeepsPlacementIff | src/shardkv1/shardcfg/shardcfg.go:185-221 | after a refused leave the configuration is still well placed exactly when no removed group had a shard |
| Rebalancing.RefusedLeaveMayStrand | src/shardkv1/shardcfg/shardcfg.go:185-221 | a concrete refused leave after which every shard is at a group that is gone |
| Rebalancing.RefusedJoinKeepsPlacementIff | src/shardkv1/shardcfg/shardcfg.go:156-213 | whatever order the map of groups is traversed in, a refused join leaves the configuration well placed, if and only if no group to be joined is a member, or none can be added, or no member has two shards |
| Rebalancing.RefusedJoinMayUnbalance | src/shardkv1/shardcfg/shardcfg.go:156-213 | a concrete refused join that leaves loads 12 and 0 |
| MapReduceRuns.JobEqualsSequential | src/mr/coordinator.go:60-151 | when the job is done, and no counted report hit a finished reduce task, the output files hold, as a multiset of lines, exactly what the sequential program writes, for any order-insensitive reduction, despite expiry, re-execution, repeated reports and dead workers |
| MapReduceRuns.JobReportedOnce | src/mr/coordinator.go:60-151 | in particular when each token is reported at most once, and then every map task had succeeded |
| MapReduceRuns.MapPhaseOverIff | src/mr/coordinator.go:125-137 | once the map phase is declared over, all map tasks are done if and only if no counted report hit a finished map task |
| MapReduceRuns.JobDoneIff | src/mr/coordinator.go:138-151 | at the moment the job is declared done, all reduce tasks are done if and only if no counted report hit a finished reduce task |
| MapReduceRuns.ReportedOnceNeverHits | src/mr/coordinator.go:125-151 | if each token is reported at most once, no report hits a finished task |
| MapReduceRuns.ReduceOnlyAfterAllMaps | src/mr/coordinator.go:60-151 | while a reduce task is out every map task has succeeded if and only if no counted report hit a finished map task, and then every file it reads is there with its right contents |
| MapReduceRuns.TaskOfBucket | src/mr/worker.go:85-87 | taskID % nReduce maps the reduce tasks one to one onto the buckets |
| MapReduceRuns.AllOutputsThere | src/mr/coordinator.go:125-151 | every output ever written is correct, and all are there when the job is done and no counted report hit a finished reduce task |
| MapReduceCoordinator.Coordinator.TaskAlloc | src/mr/coordinator.go:60-123 | state and grant are those of the specified allocation |
| MapReduceCoordinator.HandsOutFirstAvailable | src/mr/coordinator.go:60-123 | the first task of the phase that is waiting or has expired, under a token one larger than any before; a wait exactly when there is none, an exit exactly when the job is done |
| MapReduceProgress.JobCanFinish | src/mr/coordinator.go:60-151 | from every reachable state in which no counted report hit a finished map task the job can be finished |
| MapReduceCoordinator.Coordinator.TaskComplete | src/mr/coordinator.go:125-151 | a report counts only for the expected token of a task of the current phase |
| MapReduceCoordinator.Coordinator.constructor | src/mr/coordinator.go:176-205 | map tasks then reduce tasks, all waiting |
| MapReduceCoordinator.ReportKeepsCountIff | src/mr/coordinator.go:125-151 | a counted report keeps the count of open tasks if and only if its task was not yet done |
| MapReduceCoordinator.DuplicateReportEndsMapPhaseEarly | src/mr/coordinator.go:125-137 | a token reported twice declares the map phase complete with a map task undone |
| MapReduceData.GroupAndReduce | src/main/mrsequential.go:68-84 | the grouping loop writes one line per run of equal keys |
| MapReduceData.GroupsAreLines | src/mr/worker.go:133-156 | on sorted input that is exactly one line per key, with the reduction of all its values |
| MapReduceData.FillBuckets | src/mr/worker.go:41-45 | bucket r holds, in order, exactly the pairs whose key hashes to r |
| MapReduceData.DistributedEqualsSequential | src/mr/worker.go:85-156 | outputs of all buckets together equal one pass over all pairs, as multisets of lines, whatever order the sorts leave equal keys in |

## Left out

- Timers, timeouts, sleeps and heartbeats are steps that may happen at any time; progress is shown only as what undisturbed participants can achieve, and for Raft's whole pipeline on a cluster of three, so nothing is claimed about every follower catching up.
- The transport, the test harness, visualisation, daemons and application plugins.
- The bytes of gob and JSON, and the FNV hash.
- A server restart is one step: the peer and its service come back together.
- The vote counter of an election is a set of peers; the sentinels -1 for no vote and no conflicting term are an optional value.
- Acquire, Release and the controller's procedures are step machines, because any of their steps may be interleaved with other clients'; ListMoves is the one loop of the controller given as a loop.
- The clerks' Get loops, and the Freeze, Install and Delete retry loops, which only repeat a request; in the sharded model every such request may be executed again at any time.
- The sharded clerk's cache of group clerks; each round is given the clerk for its group.
- Fatal exits of Join and Leave are an outcome, and the panic of InitConfig is a state the controller stays in; the process they end is not modelled.
- The server lists inside a configuration play no part in migration; group ids stand for the groups reached.
- Verdict claims are made for OK and ErrVersion only: after a retry ErrNoKey says nothing about earlier attempts.
- Start times of MapReduce tasks: which tasks count as expired is chosen freely at each request.
- File system errors in MapReduce workers: a worker that meets one simply stops.
