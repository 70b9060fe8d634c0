# A verified model of a replicated, sharded key/value store

The repository modelled here is a Go implementation of a sharded key/value service: Raft with log
compaction, a crash-safe write-ahead log under it, a replicated state machine and versioned
key/value servers on top of it, shard groups with online migration, and a lock built from the
clerk's conditional writes. This project models the hard parts of all of them in Dafny and proves
what they are for.

Verify everything with `dafny verify dfyconfig.toml`.

## How the model is built

**Raft** (`RaftTypes`, `RaftNode`, `RaftServer`, `RaftHistory`, `RaftRefinement`, `RaftCluster`,
`RaftSafety`, `RaftTheorems`, `RaftVotes`, `RaftDurability`, `RaftProbe`, `RaftAnswers`, `RaftSteps`,
`RaftCommit`, `RaftProgress`, `RaftStuckRun`, `RaftExample`).

- `RaftServer.Raft` is the server object. Each method is one critical section with the loops and
  in-place updates of the Go code, proved equal to a value-level function in `RaftNode`.
- `RaftCluster` puts any number of such servers on a network that loses, delays, reorders and repeats
  requests. A vote call returns at most once. A server may crash between any two writes to its
  write-ahead log.
- `RaftHistory` is the protocol over uncompacted logs with history variables: who was elected with
  which log, who voted for whom, who acknowledged what. Its invariant gives leader completeness.
- `RaftRefinement` and `RaftSafety` show that every step of the cluster, snapshots, crashes and
  restarts included, is explained by steps of that protocol. `RaftTheorems` reads the results off.
- `RaftAnswers` and `RaftCommit` say what the handlers must do, not only what they may: exactly when a vote
  is granted, a message accepted, an index committed by the leader and passed on to a follower.
  `RaftProgress` puts it together: from every reachable state any majority can get a command committed.
- `RaftDurability` joins the server to both write-ahead logs: the operations a critical section issues,
  carried out by either and stopped anywhere, leave a state the cluster model lets a crash fall back to.
- A snapshot is the service state itself. The service is free (it remembers the commands it has
  applied), so every deterministic service's state is a function of it.

**Write-ahead log** (`ByteStrings`, `Records`, `MemFileSystem`, `WalModel`, `FileWal`, `WalRuns`,
`PersisterWal`). The file system crashes inside any write, leaving a strict prefix, or on either side
of a rename. The checksum is any function. Serialisation is a parameter of which only "decoding
inverts encoding" is assumed.

**Shard migration** (`ShardGroup`, `ShardServer`, `ShardControl`, `ShardConfigs`, `ShardMigration`,
`ShardSafety`, `ShardRecovery`, `ShardSteps`, `ShardSkipping`, `ShardLostRun`). Any number of
controllers, any of which may stop anywhere; every request ever sent may be executed any number of
times later; clients write at any group at any time. A history variable holds the one versioned map the
clients should see. A run is *sound* if every migration in it was one that may be begun: for every shard
the new configuration moves, the controller believes the shard to be where the previous configuration
puts it, or the move has been done already. `ShardSkipping` shows that this is the exact condition for
safety.

**Balancing** (`ShardBalance`, `ShardCfg`), **key/value semantics** (`VersionedMap`, `KvService`,
`KvClerk`, `LockService`, `LockProgress`, `ApplyDedup`, `Rsm`).

## What turned out to be false

- An outcome of `ErrNoKey` does not mean that the write never happens. When the clerk has resent the
  write, a delayed earlier attempt can still take effect after someone else creates the key
  (`KvClerk.RefusedWriteTakesEffect`). It is final when the first attempt was the one answered
  (`KvClerk.FirstAnswerIsFinal`); `KvClerk.LateEffectExactly` says precisely when a reported write can
  still take effect.
- Migration is not safe in every run. `InitController` reads the current and the intended configuration
  in two calls; when a configuration is published and another announced in between, it migrates across
  the one it has missed. `ShardLostRun.SkippingLosesTheShard` is such a run, from the start, in which
  every caller proposes the very next configuration and a written pair ends up in no group.
  `ShardSkipping.RecoveryIsSafeExactly` gives the exact condition, and `ShardSafety.NeighbourMayBegin`
  and `ShardSkipping.FreshRunIsSound` two that a caller can check: the intent is the number after the one
  read, or nothing was published between the two reads.
- A follower that is known to hold the leader's whole log does not always learn what is committed. A late
  refusal whose probe lies exactly at the match index passes the leader's filter and sends the next probe
  back; if the follower has compacted its log beyond that probe, it refuses every message and the leader
  discards every refusal as late, although the handler's comment (`src/raft1/raft.go:278-279`) means it to make
  the leader resume from the snapshot. `RaftStuckRun.SomeoneGetsStuck`
  is such a run; `RaftCommit.CommitTravelsExactly` and `RaftCommit.CatchesUpExactly` give the exact conditions
  for one heartbeat and for any number of rounds.
- A submitter whose operation is applied is not always answered: one that gives up removes the
  registration of whoever has since been given the same log index (`Rsm.GivingUpDropsTheNewcomer`).
  `Rsm.AnsweredExactly` says precisely who is answered. Answers are never mixed up.
- The handler's comment says an installed snapshot discards all logs; the code keeps the suffix when
  the terms agree, and the model follows the code.

## Model

| member | source | states |
|---|---|---|
| RaftServer.Raft.constructor | src/raft1/raft.go:757-812 | a restarted server is exactly what the durable state recovers, with commit and applied index at the snapshot; when nothing was found, a blank server with the stored snapshot |
| RaftServer.Raft.SaveMeta | src/raft1/wal.go:23-24 | the write has the effect the write-ahead log contract gives it |
| RaftServer.Raft.AppendLog | src/raft1/wal.go:25-26 | one durable state per entry on the way, so a crash can leave any prefix of the entries |
| RaftServer.Raft.TruncateSuffix | src/raft1/wal.go:27-28 | only the entries from the given absolute index on are dropped, the sentinel too if it is asked for |
| RaftServer.Raft.SaveSnapshot | src/raft1/wal.go:29-33 | log, snapshot index and snapshot change in one durable step |
| RaftServer.Raft.StepDownTo | src/raft1/raft.go:175-182 | memory and write-ahead log agree again after stepping down |
| RaftServer.Raft.BeginElectionLocked | src/raft1/raft.go:199-212 | the new term and own vote are durable before the round is sent |
| RaftServer.Raft.RequestVote | src/raft1/raft.go:233-260 | state, reply and every durable state written on the way are those of the value-level handler, which RaftAnswers.VoteExactly pins down; memory equals write-ahead log afterwards |
| RaftServer.Raft.ReceiveVote | src/raft1/raft.go:432-457 | a vote counts only for the round it was asked for; winning resets every match and next index |
| RaftServer.Raft.ResetProgress | src/raft1/raft.go:451-455 | the reset loop leaves every match index 0 and every next index past the leader's end |
| RaftServer.Raft.TimeoutNow | src/raft1/raft.go:638-667 | starts an election only for the recognised leader's own last entry, with the same durable transition as a timeout |
| RaftServer.Raft.AppendEntriesHandler | src/raft1/raft.go:262-365 | the whole handler, both kinds of message, keeps the durable mirror and writes exactly the stated trail |
| RaftServer.Raft.FollowLeader | src/raft1/raft.go:278-365 | the part after the term check, case by case |
| RaftServer.Raft.Install | src/raft1/raft.go:281-307 | a stale snapshot is acknowledged and ignored, a newer one replaces the log up to it |
| RaftServer.Raft.Replace | src/raft1/raft.go:290-300 | keeps the suffix exactly when the snapshot's entry is held with the same term, and reaches the disk in one step |
| RaftServer.Raft.Kept | src/raft1/raft.go:292-297 | the log that is left after a snapshot is installed starts with the snapshot's own entry |
| RaftServer.Raft.SkipConflict | src/raft1/raft.go:321-332 | names the last index before the conflicting run of terms, or 0 |
| RaftServer.Raft.FindMissing | src/raft1/raft.go:341-351 | finds the first entry not already held |
| RaftServer.Raft.Overwrite | src/raft1/raft.go:352-358 | truncation and append reach the disk as separate states in that order |
| RaftServer.Raft.Accept | src/raft1/raft.go:336-364 | truncates only at a conflict, then raises the commit index |
| RaftServer.Raft.RaiseCommit | src/raft1/raft.go:361-364 | the looser minimum, never a step back; RaftCommit says when it brings the follower up to the leader |
| RaftServer.Raft.Heartbeat | src/raft1/raft.go:500-535 | the message for a peer: entries after the probe, or the snapshot if the log does not reach back |
| RaftServer.Raft.ReceiveAppend | src/raft1/raft.go:369-429 | match and next index, and the filter against late rejections |
| RaftServer.Raft.AdvanceCommit | src/raft1/raft.go:398-416 | the counting loop ends at the greatest committable index, or leaves the commit index alone; RaftAnswers.CountedExactly says what is counted |
| RaftServer.Raft.Start | src/raft1/raft.go:468-487 | only a leader accepts, and the entry is durable when its index is returned |
| RaftServer.Raft.Compact | src/raft1/raft.go:142-157 | the sentinel keeps the term of the snapshot's last entry, nothing after it is lost and one durable state is written; within the commit index the indices stay in order |
| RaftServer.Raft.Apply | src/raft1/raft.go:590-636 | hands over exactly what lies between applied and commit index, led by the snapshot if that reaches further |
| RaftNode.FirstMissing | src/raft1/raft.go:341-351 | everything before the result is held with equal terms, and the result is not |
| RaftNode.BeforeRun | src/raft1/raft.go:321-332 | everything between the result and the probe has the conflicting term, and the result has another |
| RaftNode.LeaderCommit | src/raft1/raft.go:398-416 | the result is of the current term and held by a majority, and nothing above it is |
| RaftNode.CommandsShape | src/raft1/raft.go:622-634 | delivered commands carry consecutive absolute indices and the log's own entries |
| RaftHistory.LogMatching | src/raft1/raft.go:315-360 | two logs with equal terms at an index are identical up to it |
| RaftHistory.SharedVoter | src/raft1/raft.go:233-260 | a committed entry's acknowledgers and a later winner's voters share a server whose vote came after its acknowledgement |
| RaftHistory.LeaderCompleteness | src/raft1/raft.go:244-258 | every later leader's log holds every entry committed before, by induction on terms |
| RaftHistory.CommittedAgree | src/raft1/raft.go:398-416 | any two committed prefixes agree, whatever the leaders that committed them |
| RaftHistory.AdoptKeepsInv | src/raft1/raft.go:175-182 | adopting a term keeps the protocol invariant |
| RaftHistory.CastKeepsInv | src/raft1/raft.go:233-260 | casting a vote under the up-to-date rule keeps the protocol invariant |
| RaftHistory.StandKeepsInv | src/raft1/raft.go:199-212 | standing for election keeps it |
| RaftHistory.WinKeepsInv | src/raft1/raft.go:446-455 | winning with a majority keeps it: no term is won twice |
| RaftHistory.AppendKeepsInv | src/raft1/raft.go:468-480 | a leader's own append keeps it |
| RaftHistory.TakeOverKeepsInv | src/raft1/raft.go:338-360 | replacing a follower's log by any prefix of a leader's that keeps what is committed keeps it |
| RaftHistory.AcknowledgeKeepsInv | src/raft1/raft.go:386-396 | acknowledging a prefix of the current leader's log keeps it |
| RaftHistory.SetCommitKeepsInv | src/raft1/raft.go:361-364 | raising a commit index over a committed prefix keeps it |
| RaftHistory.CommitSurvives | src/raft1/raft.go:338-360 | conflict-only truncation never cuts into what the server has committed |
| RaftRefinement.VoteRefines | src/raft1/raft.go:233-260 | the vote handler on compacted logs is explained by protocol steps on uncompacted ones |
| RaftRefinement.VoteReplyRefines | src/raft1/raft.go:432-457 | counting a reply, and winning, is explained |
| RaftRefinement.TimeoutNowRefines | src/raft1/raft.go:638-667 | the second way into an election is explained by the same steps |
| RaftRefinement.AppendRefines | src/raft1/raft.go:262-365 | the append handler is explained, and a success reply is a true acknowledgement |
| RaftRefinement.AcceptRefines | src/raft1/raft.go:336-364 | accepting entries ends on a prefix of the leader's log, and the looser commit minimum covers only verified entries |
| RaftRefinement.InstallRefines | src/raft1/raft.go:281-307 | an installed snapshot, suffix kept or not, is explained without losing anything committed |
| RaftRefinement.AppendReplyRefines | src/raft1/raft.go:369-429 | every match index is backed by an acknowledgement, so the new commit index is over a committed prefix |
| RaftRefinement.CommittableQuorum | src/raft1/raft.go:398-412 | the counted holders and the leader form a majority of acknowledgers |
| RaftRefinement.HeartbeatFaithful | src/raft1/raft.go:500-535 | every message sent tells the truth about the leader's uncompacted log, and its commit claim is covered |
| RaftRefinement.StartRefines | src/raft1/raft.go:468-480 | a leader's append is the protocol's |
| RaftRefinement.SnapshotRefines | src/raft1/raft.go:142-157 | compaction changes the view, not the log |
| RaftRefinement.RecoverRefines | src/raft1/raft.go:784-805 | a restart from the durable state is explained |
| RaftRefinement.AppendRecoverable | src/raft1/raft.go:352-358 | every durable state written inside the append handler, including between truncation and append, recovers to an explained server with nothing committed lost |
| RaftRefinement.VoteRecoverable | src/raft1/raft.go:244-254 | the same for the vote handler |
| RaftSafety.StepRelated | src/raft1/raft.go:142-667 | every event of the cluster keeps the explanation and only adds to its history |
| RaftSafety.ExplainRun | src/raft1/raft.go:142-667 | every run has an explanation, state by state, whose history only grows |
| RaftTheorems.StateMachineSafety | src/raft1/raft.go:233-365 | entries committed by any two servers at any two times of any run are the same |
| RaftTheorems.AppliedSafety | src/raft1/raft.go:590-636 | no two services are ever handed different commands for one index |
| RaftTheorems.ElectionSafety | src/raft1/raft.go:432-457 | a term has one leader over the whole run, restarts and forced elections included |
| RaftVotes.VotesAreDistinct | src/raft1/raft.go:446-447 | in every run, a candidate's vote count is the number of a set of servers each of which had, at some moment so far, that term and a vote for the candidate |
| RaftVotes.RunKeeps | src/raft1/raft.go:233-260 | throughout a run every counted or travelling vote was cast by its sender, and no server is counted twice |
| RaftTheorems.CommittedIsDurable | src/raft1/raft.go:352-358 | a server never loses or changes an entry it has committed, whatever crashes in between |
| RaftTheorems.LogsMatch | src/raft1/raft.go:281-360 | equal terms at an index, sentinels included, mean equal entries below it, across servers and times |
| RaftTheorems.WholeLogsMatch | src/raft1/raft.go:281-360 | the same for the uncompacted logs, compacted parts included |
| RaftTheorems.IndicesInOrder | src/raft1/raft.go:606-611 | snapshot index, applied index, commit index and last index stay in order in every reachable state, so every slice is in bounds |
| RaftTheorems.StreamsInOrder | src/raft1/raft.go:590-636 | each service receives the next command or a snapshot strictly beyond all it has, without gap or step back |
| RaftTheorems.ServicesAgree | src/raft1/raft.go:590-636 | any two services have applied the same commands up to the smaller applied index, over snapshots and restarts |
| RaftTheorems.LeaderCommitCovered | src/raft1/raft.go:517-535 | a message without snapshot never claims more committed than it verifies |
| RaftAnswers.VoteExactly | src/raft1/raft.go:233-260 | a vote is granted if and only if the term is not behind, the vote of that term is not somebody else's, and the candidate's whole log is at least as up to date as the voter's; the reply carries the later term |
| RaftAnswers.CountedExactly | src/raft1/raft.go:403-411 | an index counts as held by a majority if and only if there is one, whichever servers it is made of |
| RaftAnswers.CommitsExactly | src/raft1/raft.go:386-416 | on an acknowledgement the leader's commit index reaches N if and only if N or a later index of its term is known to be held by a majority |
| RaftAnswers.TakesOverExactly | src/raft1/raft.go:638-667 | a server asked to take over stands if and only if it is of the leader's term, follows that leader and has exactly its log |
| RaftAnswers.AnswersCarryTerm | src/raft1/raft.go:233-275 | every answer carries the later of the two terms |
| RaftAnswers.LaterTermsSpread | src/raft1/raft.go:377-384 | whoever is answered with a later term adopts it and steps down |
| RaftAnswers.CompactsExactly | src/raft1/raft.go:142-157 | compaction reaches the index asked for, and every later entry stays |
| RaftAnswers.OnlyLearns | src/raft1/raft.go:386-429 | no answer takes back what the leader knows of a follower, success is taken in, and a late refusal changes nothing |
| RaftAnswers.NeverFalls | src/raft1/raft.go:142-667 | in every reachable state, no event but a crash takes a server's commit index, applied index, term or snapshot back |
| RaftCommit.CommittedIsLed | src/raft1/raft.go:244-258 | whatever a server of no later term has committed is in the leader's log |
| RaftCommit.MatchedHolds | src/raft1/raft.go:386-396 | a match index that has reached the end of the leader's log tells the truth about the follower's whole log |
| RaftCommit.AcceptsExactly | src/raft1/raft.go:278-340 | a follower accepts the leader's message if and only if it is a snapshot or builds on a place it has not compacted and up to which the whole logs are identical; otherwise it names where to go on |
| RaftCommit.CommitTravelsExactly | src/raft1/raft.go:361-364 | a heartbeat and its handling bring the commit index of a follower that holds the whole log up to the leader's if and only if it is there already, the probe lies in both logs, or the snapshot sent covers it |
| RaftCommit.StuckStays | src/raft1/raft.go:308-313 | a follower that has compacted beyond a probe the leader believes long matched learns nothing, however many rounds there are |
| RaftCommit.CatchesUpExactly | src/raft1/raft.go:369-429 | some number of rounds brings the follower's commit index up to the leader's if and only if it is there already or the follower is not stuck |
| RaftStuckRun.SomeoneGetsStuck | src/raft1/raft.go:418-427 | a run in which a late refusal leaves a follower stuck for good, whatever commands the leader goes on to take in |
| RaftProgress.CanElect | src/raft1/raft.go:199-260 | from every reachable state any majority of at least two can elect its most up to date server |
| RaftProgress.CommandCanBeServed | src/raft1/raft.go:142-667 | from every reachable state, for any majority of at least two servers and any command, the run has a continuation in which the command is handed under one index to the service of every one of them |
| RaftProbe.BackOneRun | src/raft1/raft.go:321-332 | a rejection skips exactly one run of equal terms |
| RaftProbe.RoundProgresses | src/raft1/raft.go:308-428 | every round finds the match or lowers the bound on the rounds left |
| RaftProbe.ProbeConverges | src/raft1/raft.go:308-428 | from fresh leadership the follower is known to hold the whole log after at most its runs of equal terms plus four rounds |
| RaftExample.CommitHappens | src/raft1/raft.go:233-636 | a run exists in which a leader is elected and any given command is committed and applied |
| Records.ParsedIsPrefix | src/wal/record.go:37-56 | re-encoding the recovered records gives exactly a prefix of the data, for every byte string |
| Records.HealedIsFixed | src/wal/record.go:69-86 | replaying the healed file recovers the same records |
| Records.ParseEncoded | src/wal/record.go:22-56 | replay inverts encoding, whatever follows the encoded records |
| Records.TornIsNothing | src/wal/record.go:39-44 | a strict prefix of a record is never taken for a record |
| Records.TornTail | src/wal/record.go:37-56 | appending any strict prefix of a further record changes nothing recovered |
| Records.ReplayRecords | src/wal/record.go:37-56 | the scanning loop returns exactly those records, and the length of their encoding |
| MemFileSystem.MemFs.Create | src/wal/memfs.go:47-53 | an empty file and a handle at its start, unless crashed |
| MemFileSystem.MemFs.OpenAppend | src/wal/memfs.go:65-73 | a handle at the end; no content changes |
| MemFileSystem.MemFs.ReadFile | src/wal/memfs.go:75-84 | the content, empty if there is no file |
| MemFileSystem.MemFs.Truncate | src/wal/memfs.go:86-96 | shortens the file, refuses to lengthen it |
| MemFileSystem.MemFs.Rename | src/wal/memfs.go:98-113 | happens wholly or not at all, whichever side the crash is on; a missing file renames to an empty one |
| MemFileSystem.MemFs.Reboot | src/wal/memfs.go:41-45 | the disk survives, the crash and the faults do not |
| MemFileSystem.MemFile.Write | src/wal/memfs.go:136-151 | writes everything, or crashes after a strict prefix; without a fault it completes |
| MemFileSystem.MemFile.Put | src/wal/memfs.go:154-163 | overwrites from the offset, padding a gap with zeros |
| MemFileSystem.AtomicWrite | src/wal/atomic.go:10-31 | the file has its old or its new content, never anything else, and no other file changes |
| FileWal.RecordLog.Append | src/wal/record.go:93-99 | adds one frame at the end; a crash leaves a strict prefix of it |
| FileWal.OpenRecordLog | src/wal/record.go:69-86 | recovers the records, cuts the torn tail, and stands at the end |
| FileWal.EntriesAdded | src/filewal/filewal.go:109-120 | entry records append exactly their entries to what is recovered |
| FileWal.CutAdded | src/filewal/filewal.go:114-116 | a truncation record removes exactly the entries from its absolute index on |
| FileWal.SnapshotWritten | src/filewal/filewal.go:154-166 | a rewritten log recovers to the snapshot followed by the suffix |
| FileWal.FileWAL.Open | src/filewal/filewal.go:65-84 | heals the file without changing what it recovers to, and counts the log bytes |
| FileWal.FileWAL.Log | src/filewal/filewal.go:134-147 | a record is on disk whole or not at all as far as recovery can tell |
| FileWal.FileWAL.SaveMeta | src/filewal/filewal.go:129-131 | term and vote change together or not at all |
| FileWal.FileWAL.AppendLog | src/filewal/filewal.go:134-140 | a crash lets a prefix of the entries through |
| FileWal.FileWAL.TruncateSuffix | src/filewal/filewal.go:143-147 | takes effect wholly or not at all, for every index from the snapshot's to the end |
| FileWal.FileWAL.Compose | src/filewal/filewal.go:155-166 | the new content is the encoding of header and suffix, and the bytes counted are the suffix's |
| FileWal.FileWAL.SaveSnapshot | src/filewal/filewal.go:154-177 | log and snapshot change together or not at all, and the handle moves to the new end |
| FileWal.FileWAL.Perform | src/filewal/filewal.go:128-177 | any operation completes, or leaves an effect the reference allows |
| FileWal.FileWAL.Load | src/filewal/filewal.go:89-126 | the parsing loop returns exactly the recovered state; not found means blank |
| FileWal.FileWAL.Parsed | src/filewal/filewal.go:109-120 | the loop over entry and truncation records gives the log they describe |
| FileWal.FileWAL.Size | src/filewal/filewal.go:150 | the payload bytes since the last snapshot, the header not counted |
| WalModel.TrailIsEffects | src/raft1/wal.go:22-40 | the crash states the Raft model allows inside an append are exactly those a write-ahead log can leave |
| WalModel.SectionTrail | src/raft1/wal.go:22-40 | what a stretch of operations writes is the trail of those operations from the state they found |
| WalModel.OnTheWay | src/raft1/wal.go:22-40 | a state inside any one of several operations is on the way through all of them |
| WalRuns.EmptyDiskIsBlank | src/filewal/filewal.go:89-126 | a life can begin on an empty disk, which loads as a new node |
| WalRuns.Live | src/filewal/filewal.go:65-177 | one operation under armed faults, with reboot and reopening after a crash, ends where the reference model does |
| WalRuns.LiveThrough | src/filewal/filewal.go:65-177 | over any operations, faults, crashes and reopenings the final load is the reference model after all of them, interrupted ones to an allowed part; without an armed fault nothing is interrupted |
| WalRuns.UndisturbedIsFold | src/raft1/wal.go:12-21 | a life without interruption ends in the plain fold of its operations |
| WalRuns.RunSection | src/filewal/filewal.go:65-177 | several operations in a row under armed faults leave a state on their way, and their whole effect if none is interrupted |
| PersisterWal.WAL.constructor | src/raft1/wal.go:96-106 | the model is seeded from what is stored, so the first write cannot wipe the log |
| PersisterWal.WAL.Perform | src/raft1/wal.go:114-141 | any operation has the reference effect in memory and on storage alike |
| PersisterWal.WAL.Load | src/raft1/wal.go:145-152 | returns the model, or only the snapshot for a new node |
| PersisterWal.RunSection | src/raft1/wal.go:108-141 | several operations stopped anywhere leave a state on their way, in memory and on storage alike |
| RaftDurability.SectionIsItsOps | src/raft1/raft.go:142-667 | the durable states a critical section accounts for are those of the operations it issued, which end where memory is |
| RaftDurability.HandleAppendSection | src/raft1/raft.go:262-365 | the append handler is such a section, with the trail of its value-level account |
| RaftDurability.OnFiles | src/filewal/filewal.go:65-177 | the operations of a section, carried out on files under any faults, leave the state before or one of the section's trail; uninterrupted they leave what the server has in memory |
| RaftDurability.OnPersister | src/raft1/wal.go:79-152 | the same on the full model, stopped after any number of operations |
| ShardServer.KVServer.constructor | src/shardkv1/shardgrp/server.go:307-320 | a new group starts at configuration 1 and only the boot group owns anything |
| ShardServer.KVServer.DoGet | src/shardkv1/shardgrp/server.go:76-93 | ownership is checked before the key |
| ShardServer.KVServer.DoPut | src/shardkv1/shardgrp/server.go:95-119 | a served write is the versioned map's |
| ShardServer.KVServer.DumpShard | src/shardkv1/shardgrp/server.go:125-138 | collects exactly the pairs of the shard |
| ShardServer.KVServer.LoadShard | src/shardkv1/shardgrp/server.go:141-155 | merges the dump, and does nothing for a stale freeze |
| ShardServer.KVServer.DeleteShardData | src/shardkv1/shardgrp/server.go:157-163 | deletes exactly the pairs of the shard while ranging over the map |
| ShardServer.KVServer.DoFreezeShard | src/shardkv1/shardgrp/server.go:165-179 | strict fence; a late freeze changes nothing and returns no data |
| ShardServer.KVServer.DoInstallShard | src/shardkv1/shardgrp/server.go:181-195 | non-strict fence; an install is taken once per number |
| ShardServer.KVServer.DoDeleteShard | src/shardkv1/shardgrp/server.go:197-210 | strict fence; the delete of the current number passes |
| ShardConfigs.StepKeepsConfigs | src/shardkv1/shardctrler/shardctrler.go:35-91 | every step of every controller keeps the configuration store in order; nothing is assumed of who proposes what |
| ShardConfigs.VersionIsNumber | src/shardkv1/shardctrler/shardctrler.go:55-62 | the version of either key is always the number of the configuration under it |
| ShardConfigs.OneConfigPerNumber | src/shardkv1/shardctrler/shardctrler.go:66-82 | whatever two configurations with one number are ever stored under either key, they are equal, group addresses included |
| ShardConfigs.MigratesOnlyToStored | src/shardkv1/shardctrler/shardctrler.go:78-85 | no controller moves shards towards anything but the configuration stored for that number, ambiguous outcomes and re-reads included |
| ShardConfigs.MigrationsAgree | src/shardkv1/shardctrler/shardctrler.go:66-110 | two controllers migrating to one number agree on the target |
| ShardMigration.FreezeKeeps | src/shardkv1/shardgrp/server.go:165-179 | executing a freeze of a move at any time keeps every shard in one place; its dump is the shard or comes too late to matter |
| ShardMigration.InstallKeeps | src/shardkv1/shardgrp/server.go:181-195 | executing an install of a move at any time does |
| ShardMigration.DeleteKeeps | src/shardkv1/shardgrp/server.go:197-210 | executing a delete of a move at any time does |
| ShardMigration.SpareKeeps | src/shardkv1/shardgrp/server.go:165-210 | so does a freeze or delete at a group that is not to have a shard with which the configuration has nothing more to do |
| ShardMigration.SpareInstallKeeps | src/shardkv1/shardgrp/server.go:181-195 | so does an install at the owner of such a shard |
| ShardMigration.InstallIsTimely | src/shardkv1/shardgrp/server.go:186-193 | an install that passes the fence meets an empty place and carries exactly the clients' pairs |
| ShardMigration.PublishKeeps | src/shardkv1/shardctrler/shardctrler.go:87-90 | publishing after every move was cleared keeps it |
| ShardMigration.WriteKeepsCore | src/shardkv1/shardgrp/server.go:95-119 | a client's write at the serving group keeps it |
| ShardSafety.StepKeepsData | src/shardkv1/shardctrler/shardctrler.go:35-110 | every step of the whole system keeps the shards in order, unless it begins a migration that may not be begun |
| ShardSafety.NeighbourMayBegin | src/shardkv1/shardctrler/shardctrler.go:66-85 | a migration to the number after the one that was read may always be begun |
| ShardSafety.AdjacentRunIsSound | src/shardkv1/shardctrler/shardctrler.go:35-110 | a run whose migrations all go to the very next number is sound |
| ShardSafety.InOrderIsSafe | src/shardkv1/shardctrler/shardctrler.go:93-110 | in every state in order a shard has one server at most, with exactly the clients' pairs, is kept by somebody, and at rest is served by the group named for it |
| ShardSafety.OneServerPerShard | src/shardkv1/shardgrp/server.go:165-210 | at most one group serves a shard, at every moment of every sound run |
| ShardSafety.ReadsAreTrue | src/shardkv1/shardgrp/server.go:76-93 | exactly the group that serves the shard answers a read, with what the one versioned map holds |
| ShardSafety.WritesAreTrue | src/shardkv1/shardgrp/server.go:95-119 | exactly the group that serves the shard answers a write, as the one versioned map would, and acts accordingly |
| ShardSafety.NoShardIsLost | src/shardkv1/shardctrler/shardctrler.go:97-110 | at every moment some group serves the shard or is the only one to hold it, with exactly the clients' pairs |
| ShardSafety.AtRestOwnersServe | src/shardkv1/shardctrler/shardctrler.go:84-90 | when nothing is announced beyond the current configuration, the groups it names serve |
| ShardRecovery.MoveShard | src/shardkv1/shardctrler/shardctrler.go:98-109 | freeze, install, delete from any reachable state clears the shard |
| ShardRecovery.Migrate | src/shardkv1/shardctrler/shardctrler.go:97-110 | running the migration again from whatever an interrupted one left completes it: every shard at its new home with its pairs |
| ShardSteps.MoveAlone | src/shardkv1/shardctrler/shardctrler.go:98-109 | the exact effect of freeze, install and delete in a row, from any state of the two groups, and on no other shard |
| ShardSteps.Advance | src/shardkv1/shardctrler/shardctrler.go:97-110 | a controller that is left alone gets through the loop, and disturbs only the shards it passes |
| ShardSkipping.PoliteRunStaysClose | src/shardkv1/shardctrler/shardctrler.go:66-78 | if callers propose the number after the published one, at most one configuration is announced ahead, throughout the run |
| ShardSkipping.OnlyRecoveriesSkip | src/shardkv1/shardctrler/shardctrler.go:66-85 | then ChangeConfigTo only begins migrations that may be begun |
| ShardSkipping.FreshRecoveryIsSound | src/shardkv1/shardctrler/shardctrler.go:35-47 | so does InitController if nothing was published between its two reads |
| ShardSkipping.FreshRunIsSound | src/shardkv1/shardctrler/shardctrler.go:35-91 | a run with such callers and such recoveries is sound |
| ShardSkipping.MovedFromNowhere | src/shardkv1/shardctrler/shardctrler.go:98-109 | a migration that moves a shard from where it is not makes two groups serve it, or one serve it empty |
| ShardSkipping.Stranded | src/shardkv1/shardctrler/shardctrler.go:101-103 | a migration that wrongly believes a shard to be at its destination publishes a configuration whose owner does not serve it |
| ShardSkipping.StaleCopyReturns | src/shardkv1/shardctrler/shardctrler.go:104-108 | a copy that such a migration leaves at the old owner can later overwrite what clients have written |
| ShardSkipping.RecoveryIsSafeExactly | src/shardkv1/shardctrler/shardctrler.go:35-48 | every continuation of a recovery is safe if and only if its migration may be begun |
| ShardSkipping.MigrationCanFinish | src/shardkv1/shardctrler/shardctrler.go:35-48 | from every state in order a new controller can complete the migration: the intended configuration comes into force and its groups serve every shard with the clients' pairs |
| ShardSkipping.EveryMigrationCanFinish | src/shardkv1/shardctrler/shardctrler.go:35-48 | so it is after every sound run with polite callers |
| ShardLostRun.SkippingLosesTheShard | src/shardkv1/shardctrler/shardctrler.go:35-48 | a run from the start, every caller proposing the very next configuration, in which a recovery skips one and a written pair ends up in no group |
| ShardCfg.ShardConfig.Counts | src/shardkv1/shardcfg/shardcfg.go:81-84 | the counters are the loads |
| ShardCfg.ShardConfig.Analyze | src/shardkv1/shardcfg/shardcfg.go:80-110 | the most and least loaded groups, ties to the smallest number, whatever order the map is walked in |
| ShardCfg.ShardConfig.Assign | src/shardkv1/shardcfg/shardcfg.go:130-136 | shards of no member go to the least loaded group, one after the other; ShardBalance.RebalancedIsMinimal says what that is for |
| ShardCfg.ShardConfig.Spread | src/shardkv1/shardcfg/shardcfg.go:139-151 | the balancing loop ends, in a state that depends only on the assignment and the set of groups |
| ShardCfg.ShardConfig.Rebalance | src/shardkv1/shardcfg/shardcfg.go:120-152 | the whole of it is a function of the assignment and the set of groups |
| ShardBalance.MoveLightens | src/shardkv1/shardcfg/shardcfg.go:139-151 | each move makes the sum of squared loads smaller |
| ShardBalance.RebalancedIsFair | src/shardkv1/shardcfg/shardcfg.go:120-152 | every shard ends with a member and loads differ by at most one; without members every shard ends with group 0 |
| ShardBalance.RebalancedIsStable | src/shardkv1/shardcfg/shardcfg.go:120-152 | a balanced configuration is left alone |
| ShardBalance.ShiftTracks | src/shardkv1/shardcfg/shardcfg.go:139-151 | a group that has received never gives, and the other way round |
| ShardBalance.EachShardMovesOnce | src/shardkv1/shardcfg/shardcfg.go:139-151 | the loop takes as many steps as there are shards that end elsewhere; givers and receivers are disjoint, and a giver loses its lowest shards |
| ShardBalance.FillStaysLow | src/shardkv1/shardcfg/shardcfg.go:130-136 | a group that is given a shard of no member ends at most one above the least loaded |
| ShardBalance.RebalanceTracks | src/shardkv1/shardcfg/shardcfg.go:120-152 | such a group never gives a shard away |
| ShardBalance.RebalancedIsMinimal | src/shardkv1/shardcfg/shardcfg.go:120-152 | no even assignment of all shards to the groups takes fewer shards away from the members that had them |
| ShardBalance.BalanceIsMinimal | src/shardkv1/shardcfg/shardcfg.go:139-151 | where every shard has a member, no other even assignment to the same groups moves fewer |
| KvService.KVServer.Get | src/kvsrv1/server.go:41-54 | reads the versioned map |
| KvService.KVServer.Put | src/kvsrv1/server.go:60-80 | writes exactly under the version the key has |
| VersionedMap.ReadThenWrite | src/kvsrv1/server.go:41-80 | a write is accepted under exactly the version a read reports, and the next read gives the written value and one version more |
| KvService.Clerk.Put | src/kvraft1/client.go:74-98 | the retry loop reports the first usable answer, turned into ErrMaybe when it is a version error to a resend, and walks the servers in turn |
| KvClerk.StepKeeps | src/kvsrv1/client.go:66-84 | every attempt, late or lost, keeps the account of what took effect |
| KvClerk.OutcomesAreTrue | src/kvsrv1/client.go:66-84 | at every later moment OK was executed exactly once, ErrVersion never, anything else at most once |
| KvClerk.FirstAnswerIsFinal | src/kvraft1/client.go:76-81 | an answer to the first attempt settles whether the write took effect |
| KvClerk.MaybeExactly | src/kvsrv1/client.go:66-84 | the outcome is ErrMaybe if and only if the write was resent and its last attempt refused for its version; otherwise it is what the server said to the last attempt |
| KvClerk.VersionCountsWrites | src/kvraft1/server.go:55-69 | a key's version is the number of writes it has taken |
| KvClerk.RefusedWriteTakesEffect | src/kvsrv1/client.go:74-82 | a run in which a write reported as ErrNoKey takes effect afterwards |
| KvClerk.LateEffectExactly | src/kvsrv1/client.go:74-82 | a write that was reported and has not taken effect can still do so if and only if an attempt is outstanding and the key has not passed its version |
| LockService.StepKeeps | src/kvsrv1/lock/lock.go:37-65 | the key carries a client's name exactly when the lock is that client's, known to it or not |
| LockService.MutualExclusion | src/kvsrv1/lock/lock.go:37-65 | no two clients are between the return of Acquire and the effect of Release together |
| LockService.MaybeIsRecognised | src/kvsrv1/lock/lock.go:46-51 | after ErrMaybe the second look finds the own name if and only if the write took effect |
| LockService.ReleaseReleases | src/kvsrv1/lock/lock.go:59-65 | when Release returns, its write has taken effect |
| LockService.ReleaseFindsOwnName | src/kvsrv1/lock/lock.go:61-62 | a holder that releases always finds its own name |
| LockProgress.AcquireCanSucceed | src/kvsrv1/lock/lock.go:37-45 | in every reachable state in which a client tries for the lock and nobody owns it, the run has a continuation in which that client holds it |
| LockProgress.FirstAcquire | src/kvsrv1/lock/lock.go:40-41 | the first Acquire, with the key still absent, is such a state |
| LockProgress.EveryoneCanHold | src/kvsrv1/lock/lock.go:37-65 | every reachable state has a continuation in which a given client holds the lock |
| LockProgress.ReleaseCanReturn | src/kvsrv1/lock/lock.go:59-65 | whoever holds the lock can give it back, leaving it free, without anybody else moving |
| LockProgress.PlainAnswerDecides | src/kvsrv1/lock/lock.go:42-45 | a write of Acquire that was sent once makes the client the holder as soon as it is answered if it took effect, and lets it try again if not |
| ApplyDedup.RedeliveryIsIdle | src/kvraft1/server.go:32-43 | delivering an old index again changes nothing, and any answer is the old one |
| ApplyDedup.StoreIsFold | src/kvraft1/server.go:32-69 | over any crashes, replays and restores, of stores ahead of their snapshot's index too, the store is the log applied once up to the highest index delivered |
| ApplyDedup.CaughtUp | src/kvraft1/server.go:32-69 | a life that has caught up holds the whole log applied once |
| ApplyDedup.KVStore.Put | src/kvraft1/pebblestore/pebblestore.go:72-78 | pair and index are committed together, or only the pair for the store in memory |
| ApplyDedup.KVServer.DoGet | src/kvraft1/server.go:45-51 | reads the store |
| ApplyDedup.KVServer.DoPut | src/kvraft1/server.go:55-69 | only an accepted write moves the index |
| ApplyDedup.KVServer.DoOp | src/kvraft1/server.go:32-43 | skips what the index covers; the store in memory skips nothing |
| ApplyDedup.KVServer.Replay | src/kvraft1/server.go:134-140 | redelivery from any earlier snapshot ends in the whole log applied once |
| Rsm.RSM.Register | src/kvraft1/rsm/rsm.go:170-185 | closes a channel at most once, and both maps name the new submitter |
| Rsm.RSM.Abandon | src/kvraft1/rsm/rsm.go:194-208 | both maps lose the same index |
| Rsm.RSM.Apply | src/kvraft1/rsm/rsm.go:216-231 | sends without blocking on an open empty channel when the hash numbers agree, and closes it otherwise |
| Rsm.RSM.Receive | src/kvraft1/rsm/rsm.go:188-193 | takes out what lies in the channel, which is the result of the submitter's own operation at its own index |
| Rsm.AnsweredExactly | src/kvraft1/rsm/rsm.go:159-240 | a submitter whose operation is applied has the result in its channel, then and ever after, if and only if nobody has registered under or abandoned its index in between |
| Rsm.DeliveredMeans | src/kvraft1/rsm/rsm.go:216-231 | whatever lies in a channel is the result of the one later event that applied the submitter's own operation undisturbed |
| Rsm.TakenIsDelivered | src/kvraft1/rsm/rsm.go:188-193 | a submitter gets an answer if and only if it looks after the answer was delivered |
| Rsm.Interleave | src/kvraft1/rsm/rsm.go:159-240 | over every interleaving of submitters and apply loop, who has got which answer is exactly what the event sequence says, with no panic and no blocked send on the way |
| Rsm.GivingUpDropsTheNewcomer | src/kvraft1/rsm/rsm.go:196-208 | a sequence of events in which a submitter's operation is applied and it is never answered, because another gave up |

## Left out

- gRPC, protobuf, labrpc, the tester, `cmd/` and deployment: the network is a set of messages.
- Timers, goroutine scheduling, `electionGeneration`, `TransferLeadership`: an election may start whenever its guard permits, and a TimeoutNow message may arrive at any time with any content.
- Go integer widths and version wrap-around: terms, indices and versions are unbounded.
- FileWal.FileWAL.AppendLog: requires, like SaveSnapshot and TruncateSuffix, that every record is shorter than the 2^32 bytes its length field can state.
- KvService.Clerk.Put: assumes that some answer in the end is usable; the source retries for ever.
- Corruption of bytes already on disk: the crash model is torn writes and renames; a wrong checksum only ends the scan.
- `FaultWriteLimit` fires once in the source; here it is a schedule of limits, one per write, so that a crash can hit any write of an operation.
- `fsync`, `SyncDir` and `Close`: no effect in the crash semantics taken from `src/wal/memfs.go`.
- RaftProgress.CommandCanBeServed: asks for a majority of at least two. A cluster of one server never elects a leader in the source, because votes are counted only when a reply arrives.
- Progress under particular timings: the progress theorems say that a continuation exists, not that timers and the network bring it about.
- `NodeID` strings: servers are numbered by their position in the node list.
- The apply loop hands a batch over one message at a time outside the mutex; the model hands it over in one step.
- `Join`, `Leave`, `GidServers`, `IsMember` and JSON of configurations: easy, and configurations compare as values.
- `Key2Shard`: any function of the key.
- Reaching a group by its addresses: they are carried and compared, but a request goes to the group's number, and configurations that leave a shard with no group are not treated specially.
- ShardSkipping.RecoveryIsSafeExactly: assumes that no shard in transit is empty, since such a shard has nothing to lose, and that at most one configuration is announced ahead, which polite callers ensure.
- The sharded clerk's outcomes: it starts afresh after `ErrWrongGroup`, so only the groups' own answers are covered.
- Pebble, tar archives and directory replacement: only "pair and index are committed together" is used, and a crash between raft saving an installed snapshot and the service restoring it is excluded.
- `src/mr`, `src/mrapps`, `src/main`, `src/persist/file.go`: skeletons, wrappers and an easier framing.
