# A verified model of the keyval Raft store

keyval is a replicated key-value store in Go: a Raft core (`pkg/raft`), a key-value state machine
(`pkg/statemachine`), a write-ahead log and a keyed store (`pkg/storage`), and single-server
membership changes (`pkg/cluster`). This project models its hardest parts in Dafny and proves what
they promise.

**The Raft core.** `RaftNode.Node` is a node as the source writes it: fields updated in place, one
method per lock-held section, the source's loops. Each method is proved to perform one of the pure
steps of `NodeSpec`, and `Answers` says what each of those steps must answer and leave behind, in
both directions and without its branches. `Cluster` puts any number of nodes on a network that may
lose, delay, reorder and duplicate messages; a run is any sequence of steps. `Protocol` is Raft over
histories of elections, votes, acknowledgements and commits; `ProtocolSteps` shows that each of its
steps keeps the invariant, `LeaderCompleteness` derives the central induction over terms, and
`Refinement` and `RefinementAppend` show that every step of the cluster is a step of the protocol.
`Runs` carries the invariant along runs. `Safety` and `Stability` state the results over whole runs
and any two moments of a run, in the terms of sections 5.1 to 5.4 of "In Search of an Understandable
Consensus Algorithm". Two nodes' entries are compared after `Canon`, because the wire format has no
batch type and a batch reaches followers as a normal entry.

**Where the code and its documentation differ.** The steps take a `Rules` value; `AS_WRITTEN` is the
code.

- *Follower commit bound.* The comment at `pkg/raft/append_entries.go:244` bounds the commit index
  by the last new entry; line 247 uses the follower's own last index. What does not depend on the
  bound (election safety, log matching, the shape of logs, match indices, leader completeness for
  what leaders commit by counting) is proved for the code as it is: `Erasure` shows that a run under
  one bound has its like under the other. What nodes take as committed is proved for the documented
  bound, max(commitIndex, min(leaderCommit, prevLogIndex + entries)), and for every run of the code
  whose deliveries are harmless. For other runs it is false: `LiteralRuns.SafeIffHarmless` shows that
  a run of the code satisfies state machine safety if and only if every delivery in it is harmless,
  and `StaleTail.SafetyFailsAsWritten` is a run of thirteen steps of three nodes that commits two
  different entries at index 1. `CoversTail` is a sufficient condition that the receiver can check.
- *Thresholds and vote counting.* `pkg/raft/election.go:46` and `pkg/raft/commit.go:50` need
  ceil(n/2) nodes, a majority only for odd n, and `pkg/raft/election.go:55` records every peer's vote
  under the key "", so that a tally never exceeds two. `ClusterSizes.ElectionSafetyExactly` states
  the consequence: with the code's keys all sizes but four elect at most one leader a term, from five
  nodes on because nobody is ever elected; counted by voter, exactly the odd sizes and sizes up to
  two do. All results are for the sizes that are safe under the rules they are about.
- *Sending.* The leader check (`pkg/raft/replication.go:70-74`) and the request build
  (`pkg/raft/append_entries.go:11-22`) take the lock separately in the source. The model sends in one
  step, whose guard is being leader; heartbeats likewise. `StaleTail.LateSendIsUnsafe` shows what the
  gap allows: a node that steps down between the two overwrites a committed entry.

**Storage.** `Wal.FileWal` is the segmented log with its bufio buffer, rotation, truncation and
reopening, over the record codec of `WalCodec`; it is proved to behave like a plain list. `Store`,
`Persistence` and `Recovery` model the keyed store, the layer that writes both copies, and
checkpointing. A record of 4 GiB or more does not fit its own header and cannot be read back; the
contracts say what holds then.

**Membership.** `Configuration` and `Membership` model the propose/commit/abort manager of
configuration changes and the learner tracking on top of it; the point is that quorums of successive
configurations meet (section 4.1 of "Consensus: Bridging Theory and Practice").

**Conventions.** Node identifiers are natural numbers, and `None` stands for the empty string that
means "nobody". Raft terms and indices are unbounded naturals; on disk, and in learner progress, the
widths are explicit. Peers are distinct and exclude the node itself, logs start empty, nodes do not
crash. Timeouts are steps that are always possible. JSON decoding, CRC32 and the clock are
parameters. Methods such as `Wal.ReadBack` and `Persistence.TwoCopies` state results about arbitrary
operation sequences by performing the sequence.

`dafny verify dfyconfig.toml` checks the whole project.

## Model

| member | source | states |
|---|---|---|
| Safety.StateMachineSafety | pkg/raft/append_entries.go:170-256 | In every careful run (documented follower commit bound, or the code's own with harmless deliveries) of a cluster of safe size, whatever two nodes hold as committed, at any two moments, is the same entry at every index both have reached. |
| LiteralRuns.SafeIffHarmless | pkg/raft/append_entries.go:244-252 | A run of the code's own bound satisfies state machine safety, at all moments and for all nodes, if and only if every delivery in it is harmless: where the receiver accepts a request and keeps entries past its end, those up to the commit index offered equal the sender's. |
| Safety.LeaderCompletenessOverRuns | pkg/raft/election.go:154-174 | In every careful run, what any node ever holds as committed is, entry for entry, in the log of every node that leads a later term, whichever moment comes first. |
| Safety.LeaderCommitsForGood | pkg/raft/commit.go:47-71 | In every run of the code, whatever its deliveries: what a leader holds as committed when it raises its commit index is in the log of every node that leads a later term. |
| Safety.CountedIsKept | pkg/raft/commit.go:29-71 | The same for any entry of the leader's term that its match indices count on enough nodes, before it is committed. |
| Safety.RaisedByCounting | pkg/raft/commit.go:47-71 | A leader that stays one raises its commit index only to an entry of its own term that it has counted on enough nodes. |
| Safety.CommitsPromptly | pkg/raft/commit.go:14-72 | In every run of the code, whatever its deliveries: once a leader hears in its term that a peer has entries, nothing is left above its commit index that is of its term and that half the cluster has by its match indices. |
| Safety.ElectionSafety | pkg/raft/election.go:46-70 | Over a whole run of the code, and under each of its rules, at most one node is ever leader in a term, for every safe size. |
| ClusterSizes.ElectionSafetyExactly | pkg/raft/election.go:46-70 | All runs have at most one leader a term if and only if the size is safe for the rules; for the code's vote keys, if and only if it is not four. |
| Safety.LogMatchingOverRuns | pkg/raft/append_entries.go:206-296 | In every run of the code, two entries with the same index and term, in any two logs at any two moments, end identical prefixes. |
| Safety.LogShape | pkg/raft/replication.go:134-191 | In every run of the code, every log carries the indices 1..n in order, with terms that never decrease and never exceed the node's term. |
| Safety.ReplicaAgreement | pkg/raft/commit.go:161-194 | In every careful run, every node's store is the in-order replay of its log up to lastApplied, lastApplied <= commitIndex <= log length, and nodes that have applied equally far have equal stores. |
| Safety.StoreIsLastWrites | pkg/statemachine/kv.go:26-68 | In every careful run a node's store holds v under a key if and only if the last applied entry that puts or deletes the key puts v. |
| Safety.AppliesAll | pkg/raft/commit.go:161-194 | In every careful run an apply step leaves lastApplied at the commit index, and the store the replay of exactly that prefix. |
| Safety.MatchIndexSound | pkg/raft/append_entries.go:104-146 | In every run of the code, while a leader and a peer share a term, the peer's log agrees with the leader's through the recorded matchIndex, under late, reordered and repeated replies. |
| Stability.CommittedPrefixStable | pkg/raft/append_entries.go:237-252 | Between any two moments of a careful run commitIndex, lastApplied and the term do not decrease, a vote is not changed within its term, and no entry at or below a node's commitIndex is truncated or replaced. |
| Stability.VotesStable | pkg/raft/election.go:122-181 | In every run of the code a node's term does not decrease and its vote within a term does not change. |
| Erasure.RunAlike | pkg/raft/append_entries.go:244-252 | Every run has one under any other follower commit bound that is equal to it at every moment except for commit indices, what is applied, and the stores. |
| LiteralRuns.LiteralCommitCoincides | pkg/raft/append_entries.go:244-252 | On an accepted request, the code's commit bound and the documented one give the same result if and only if the request covers the receiver's tail, a condition on the receiver's log and the request alone. |
| LiteralRuns.CoveredIsHarmless | pkg/raft/append_entries.go:244-252 | In every state of a careful run a request that covers its receiver's tail is harmless. |
| LiteralRuns.CoveredRunsCoincide | pkg/raft/append_entries.go:244-252 | A run of the code whose delivered appends all cover their receivers' tails is, state for state, a run with the documented bound. |
| LiteralRuns.CoveredStateMachineSafety | pkg/raft/append_entries.go:244-252 | State machine safety of the code as written for all such runs. |
| StaleTail.SafetyFailsAsWritten | pkg/raft/append_entries.go:244-252 | A concrete run of the code's own bound, three nodes, after which two nodes have committed entries of different terms at index 1; its last delivery is not harmless. |
| StaleTail.LateSendIsUnsafe | pkg/raft/replication.go:65-80 | Under every rule: a node that passes the leader check, steps down and then builds its request makes a follower replace an entry that it and the leader hold as committed. |
| ClusterSizes.EvenClusterHasTwoLeaders | pkg/raft/election.go:46-70 | For every even cluster size from four on some run has two leaders of the same term, when votes are counted by voter; for four nodes also with the code's vote keys. |
| ClusterSizes.LargeClustersNeverElect | pkg/raft/election.go:55-55 | With the code's vote keys no run of five or more nodes ever has a leader. |
| ClusterSizes.SafeSizeIs | pkg/raft/election.go:46-46 | Every set of nodes large enough to win shares a node with every set large enough to win or to commit, if and only if the cluster size is odd or at most two. |
| Refinement.TallyIsSound | pkg/raft/types.go:332-343 | A tally that reaches the votes needed, under the code's vote keys or counted by voter, is backed by that many distinct voters of the candidate's term; with the code's keys none does from five nodes on. |
| LeaderCompleteness.CommittedInBase | pkg/raft/commit.go:47-71 | By induction over terms: an entry committed by a leader of some term is in the log every later leader was elected with. |
| LeaderCompleteness.KnownAgree | pkg/raft/commit.go:9-13 | Two prefixes known to be committed agree wherever both reach. |
| RefinementAppend.MergeRefines | pkg/raft/append_entries.go:259-296 | Merging a request into a log that satisfies log matching leaves the leader's log through the last entry sent, and cuts the log only where it departs from the leader's. |
| RefinementAppend.BackersAreEnough | pkg/raft/commit.go:29-50 | The match indices counted for an index belong to that many distinct nodes. |
| RefinementAppend.AnyStep | pkg/raft/append_entries.go:104-256 | Every step of the cluster keeps the invariant that ties it to the protocol and only extends the history, if the commit bound of a delivered append is the documented one or is backed by the leader's log. |
| Runs.HarmlessBacks | pkg/raft/append_entries.go:244-252 | A harmless delivery is backed by the leader's log as far as the receiver will commit. |
| Runs.RunKeeps | pkg/raft/commit.go:14-72 | The invariant carries from any moment of a careful run to any later one. |
| CommitRule.MajorityMatchIs | pkg/raft/commit.go:29-52 | Sorting the n match indices downwards and taking position (n-1)/2 gives the largest index that at least (n-1)/2 + 1 nodes have reached. |
| CommitRule.CommitThreshold | pkg/raft/commit.go:113-117 | That number is the documented quorum n/2 + 1 exactly when n is odd. |
| CommitRule.AdvanceIsLargestCommittable | pkg/raft/commit.go:47-71 | The downward scan picks the largest index above commitIndex of the current term that enough nodes match, or leaves commitIndex alone when there is none. |
| Answers.AdvancesExactly | pkg/raft/commit.go:14-72 | The commit step moves a leader's commit index to the largest index of its own term that it and the peers matching it, half the cluster or more, have, if one is above it, and changes nothing else; with the threshold as a count of distinct peers. |
| Answers.ReactsExactly | pkg/raft/append_entries.go:104-166 | A current reply to entries sent records exactly the last one sent and commits what that allows; a rejection moves nextIndex to the hint, or one back but not below 1; other peers are untouched. |
| Answers.LeavesNothing | pkg/raft/append_entries.go:127-146 | After such a success nothing the leader may commit is left above its commit index. |
| Answers.IgnoresOthers | pkg/raft/append_entries.go:116-125 | A reply to a request of another term, or to a node that no longer leads, changes nothing unless its own term is later. |
| Answers.GrantsExactly | pkg/raft/election.go:122-181 | A vote is granted if and only if the request is not stale, the vote of its term is free or already the candidate's, and the voter's last entry is, by term and then by index, no later than the candidate's; what the voter holds afterwards. |
| Answers.OneGrantsTheOther | pkg/raft/election.go:154-174 | Of any two nodes, whatever their logs, at least one gets the other's vote in a new term. |
| Answers.WinsExactly | pkg/raft/election.go:46-118 | A reply elects its receiver if and only if it grants a vote of the candidacy the receiver is still in and the votes counted then reach half the cluster; a later term deposes it. |
| Answers.RepliesInOwnTerm | pkg/raft/append_entries.go:170-185 | Every reply to an append or vote request carries the term its sender is in after the step, the later of the two. |
| Answers.StaleLeaderFollows | pkg/raft/append_entries.go:104-185 | A leader whose append or heartbeat reaches a node of a later term is, once the reply arrives, a follower in that term with its vote free and its log kept; the receiver is unchanged. |
| Answers.StaleCandidateFollows | pkg/raft/election.go:79-150 | So is a candidate whose vote request reaches one. |
| Answers.AnswersExactly | pkg/raft/append_entries.go:170-235 | An append is accepted if and only if it is not stale and the receiver has the entry before it; a rejection leaves log and commit index alone and points past a log that is too short, or to the first entry of the run of the term in the way. |
| Answers.AcceptsExactly | pkg/raft/append_entries.go:237-256 | An accepted append leaves the merge of its entries, and a commit index of at least x if and only if it was before or the leader's is and x is within the bound. |
| Answers.AppendsExactly | pkg/raft/replication.go:134-163 | A submitted command becomes exactly one entry at the end of a leader's log, in its term; nobody else's log changes. |
| Answers.SendsExactly | pkg/raft/append_entries.go:11-58 | For a nextIndex within the log or just past it, the request holds the entries from there on, as many as the limit allows, field by field, and the term of the entry before them. |
| Answers.AsksWithLast | pkg/raft/election.go:11-36 | A vote request names the candidate's last entry, or 0 and 0 for an empty log. |
| Answers.BeatsExactly | pkg/raft/heartbeat.go:139-180 | A heartbeat is the append request for the same peer without its entries. |
| Answers.BeatReactsExactly | pkg/raft/heartbeat.go:180-212 | A current heartbeat reply moves the peer's nextIndex one back if it failed, not below 1, and changes nothing else. |
| Answers.BeatsReachTheStart | pkg/raft/heartbeat.go:180-212 | n failed heartbeats take nextIndex back by n, or to 1. |
| Logs.ApplyEntriesIsMerge | pkg/raft/append_entries.go:259-296 | The entry-by-entry loop keeps a log that already holds all entries, and otherwise cuts it at the first missing or conflicting entry and continues with the request. |
| Logs.MergeWellIndexed | pkg/raft/append_entries.go:259-296 | The merge keeps the indices 1..n and reaches the end of the request. |
| Logs.WalkBackFindsRun | pkg/raft/append_entries.go:225-230 | The conflict hint is the first index of the run of entries with the conflicting term. |
| Logs.WireTrip | pkg/raft/log.go:288-341 | Converting an entry to the wire and back changes nothing but turning a batch into a normal entry. |
| StateMachine.ReplayCanon | pkg/raft/log.go:316-341 | Replicas replay the same store although batches reach them as normal entries. |
| StateMachine.LastWriteWins | pkg/statemachine/kv.go:26-68 | The replay of any log holds v under a key if and only if the last entry that is not a no-op and decodes to a put or delete of the key is a put of v. |
| NodeSpec.ApplyUpToIs | pkg/raft/commit.go:161-194 | The apply loop ends with lastApplied at the bound and the store equal to the replay of exactly that prefix: each index once, in order. |
| Answers.RoleChanges | pkg/raft/node.go:232-255 | A new leader starts every peer just past its last entry with nothing matched; any other change of role drops the leader state, and nothing else changes. |
| Answers.StepsDown | pkg/raft/node.go:290-301 | A node that steps down follows in the later of the two terms, with a vote only if it was cast in that term. |
| Answers.Stands | pkg/raft/node.go:305-320 | A candidacy is in the next term with the candidate's own vote and no other, and touches neither log nor store. |
| RaftNode.Node.SetState | pkg/raft/node.go:232-255 | Changes role; becoming leader initialises nextIndex and matchIndex, leaving a role drops them. |
| RaftNode.Node.StepDown | pkg/raft/node.go:290-301 | Adopts a higher term, clearing the vote, and follows. |
| RaftNode.Node.BecomeCandidate | pkg/raft/node.go:305-320 | Starts a candidacy in the next term with its own vote. |
| RaftNode.Node.AddVote | pkg/raft/types.go:332-343 | A key counts once. |
| RaftNode.Node.RequestVote | pkg/raft/election.go:122-181 | Grants exactly when the request is not stale, its term's vote is free or the candidate's, and the voter's last entry is no later; answers in the term it ends in, and performs the vote step of the verified protocol. |
| RaftNode.Node.CountVote | pkg/raft/election.go:46-118 | Performs the vote-counting step, including the shared key and stale replies. |
| RaftNode.Node.AppendLogEntry | pkg/raft/replication.go:134-191 | A leader's log grows by exactly the entry given, at the next index in its term, and that index is returned; others refuse and change nothing. |
| RaftNode.Node.BuildAppendEntriesRequest | pkg/raft/append_entries.go:11-58 | The request is the slice of the log from nextIndex on, limited in length, with the term before it; for a peer the leader does not know, nextIndex 0 wraps around. |
| RaftNode.Node.TruncateLogAfter | pkg/raft/append_entries.go:299-315 | Keeps the entries up to an index. |
| RaftNode.Node.ApplyLogEntries | pkg/raft/append_entries.go:259-296 | The loop performs the merge step for every list of entries. |
| RaftNode.Node.ProcessAppendEntries | pkg/raft/append_entries.go:170-256 | Accepts exactly a request that is not stale and whose previous entry it has, answers a stale leader with its own term, and performs the follower step of the code as written, with its conflict hints and commit bound. |
| RaftNode.Node.TryAdvanceCommitIndex | pkg/raft/commit.go:14-72 | Collecting, sorting and scanning moves the commit index to the largest index the leader may commit, if one is above it, and changes nothing else. |
| RaftNode.Node.HandleAppendEntriesResponse | pkg/raft/append_entries.go:104-166 | Performs the leader's reaction to a reply. |
| RaftNode.Node.HandleHeartbeatResponse | pkg/raft/heartbeat.go:180-212 | Performs the leader's reaction to a heartbeat reply. |
| RaftNode.Node.ApplyCommittedEntries | pkg/raft/commit.go:161-194 | Performs the apply step on the state machine object. |
| StateMachine.KVStateMachine.Apply | pkg/statemachine/kv.go:26-68 | After a put the key holds the value, after a delete it is absent, other keys keep theirs; gets and undecodable or unknown commands change nothing; the answer case by case. |
| StateMachine.KVStateMachine.Get | pkg/statemachine/kv.go:72-85 | Finds exactly the keys present. |
| Backoff.RejectionProgress | pkg/raft/append_entries.go:150-163 | A rejection changes neither log, strictly lowers nextIndex but not below 1, and uses up one run of equal terms. |
| Backoff.RejectionsBounded | pkg/raft/append_entries.go:150-163 | For any two well-indexed logs the rejections before a success are at most one more than the runs of equal terms in the follower's log. |
| Backoff.ExchangeCompletes | pkg/raft/replication.go:65-116 | Given log matching, repeated attempts leave the follower with the leader's whole log after as many attempts as there are rejections plus the requests it takes to carry the log, and it stays so. |
| Backoff.RejectionsWithinTerms | pkg/raft/append_entries.go:206-235 | With non-decreasing terms, at most one more than its distinct terms. |
| Backoff.RunsDrop | pkg/raft/append_entries.go:225-230 | Walking back drops exactly one run of equal terms. |
| Backoff.SuccessSynchronises | pkg/raft/append_entries.go:127-146 | Given log matching, the next non-empty success leaves the follower equal to the leader through the last entry sent, and matchIndex and nextIndex say so. |
| BigEndian.GetPut | pkg/storage/types.go:151-173 | Writing a number in n bytes and reading it back is the identity exactly on the numbers that fit. |
| BigEndian.PutGet | pkg/storage/types.go:151-173 | Reading n bytes and writing them back is the identity. |
| BigEndian.BelowIsLess | pkg/storage/types.go:151-173 | Keys of equal width order bytewise exactly as the numbers they hold. |
| WalCodec.SerializeEntry | pkg/storage/wal.go:372-402 | Filling the buffer field by field at a moving offset yields the record's encoding. |
| WalCodec.CodecRoundTrip | pkg/storage/wal.go:372-444 | Reading a record that was written, whatever follows it, gives it back if and only if its size fits the 32-bit header. |
| WalCodec.ReadSegmentLoop | pkg/storage/wal.go:341-370 | The reading loop returns all records, each with its own checksum, or the first torn tail, bad checksum or out-of-range slice. |
| WalCodec.PrefixReads | pkg/storage/wal.go:341-370 | Any byte prefix of a well-formed segment reads as a torn tail or as a prefix of the records written, the latter exactly when it is cut between records or just after a 4-byte size field. |
| WalCodec.WholeRecordsIs | pkg/storage/wal.go:404-416 | That prefix is the records wholly inside the cut. |
| WalCodec.WholeReads | pkg/storage/wal.go:341-370 | A whole segment reads back as exactly its records. |
| WalCodec.ReadSegmentFits | pkg/storage/wal.go:404-416 | Whatever bytes a segment holds, every record read from it fits its header. |
| WalCodec.ReadSegmentChecked | pkg/storage/wal.go:361-364 | Whatever bytes a segment holds, every record read from it carries the CRC of its own kind, index, term and data. |
| WalCodec.CorruptionReported | pkg/storage/wal.go:341-370 | A record whose stored checksum is not its own, after any number of sound ones and before any bytes, fails the read with a checksum error. |
| WalCodec.MalformedCrashes | pkg/storage/wal.go:404-444 | A body too short for its fields, or for the data length it declares, is an out-of-range slice, which panics. |
| WalCodec.Layout | pkg/storage/wal.go:372-402 | Where each field of a written record lies. |
| Wal.FileWal.Write | pkg/storage/wal.go:108-111 | The buffered writer's loop keeps file plus buffer equal to everything written. |
| Wal.FileWal.Append | pkg/storage/wal.go:90-114 | Appends exactly one record, with the entry's kind, index, term and data, its checksum and the time, to the list the log stands for, and rotates exactly when the file, without the buffer, would outgrow the segment size. |
| Wal.FileWal.AppendBatch | pkg/storage/wal.go:76-87 | Appends the batch in order and leaves nothing buffered. |
| Wal.FileWal.Sync | pkg/storage/wal.go:157-171 | Leaves nothing buffered and changes no record. |
| Wal.FileWal.Close | pkg/storage/wal.go:293-309 | Closing loses nothing. |
| Wal.FileWal.Reopen | pkg/storage/wal.go:44-64 | Reopening a log that is not open continues the same list. |
| Wal.FileWal.Crash | pkg/storage/wal.go:293-309 | Losing the writer's buffer leaves exactly the records that reached the disk, if the files end between records. |
| Wal.FileWal.Read | pkg/storage/wal.go:117-141 | Whatever the files hold: the records found with index at least the start, all carrying their own checksums, or the failure. If all records fit their headers: for a synced log exactly its records, for an unsynced one those that reached the disk, or a torn tail, and says which. |
| Wal.FileWal.ReadAll | pkg/storage/wal.go:144-146 | A synced log gives its whole list if and only if every record fits its header; an unsynced one gives a prefix of it or a torn tail. |
| Wal.FileWal.FoundIsContents | pkg/storage/wal.go:341-370 | The files of a synced log read as its list if and only if every record fits its header. |
| Wal.FileWal.Truncate | pkg/storage/wal.go:174-231 | Whatever the files hold: keeps exactly the records found with index up to the given one, restamped, or fails, on a bad checksum too, and changes nothing. If all records fit: from a synced log exactly its records up to the index; unsynced, what had not reached the disk is dropped. |
| Wal.StampKeeps | pkg/storage/wal.go:91-93 | Restamping a stored record changes only its time. |
| Wal.FromKeeps | pkg/storage/wal.go:133-137 | Reading from an index keeps exactly the records at or above it, each at the position its turn gives it. |
| Wal.UptoKeeps | pkg/storage/wal.go:194-199 | Truncating keeps exactly those at or below the index, likewise. |
| Wal.ReadFilesChecked | pkg/storage/wal.go:341-370 | Whatever the files hold, every record read from them carries its own checksum. |
| Wal.CorruptFileFails | pkg/storage/wal.go:341-370 | A record with a wrong checksum in any file, after what reads, fails the whole read. |
| Wal.ReadBack | pkg/storage/wal.go:68-231 | After any sequence of appends, batches, syncs, reopenings and synced truncations of readable logs, with any segment size, the log reads back as the plain list computed by those operations if and only if every record in it fits its header. |
| Store.BoltStore.SaveMetadata | pkg/storage/store.go:58-107 | What is saved is what a load finds, through the 8-byte term. |
| Store.BoltStore.SaveSnapshot | pkg/storage/store.go:299-313 | Keeps the latest snapshot metadata. |
| Store.BoltStore.SaveLogEntries | pkg/storage/store.go:115-136 | Puts each entry under its index, later ones winning. |
| Store.BoltStore.LoadAllLogEntries | pkg/storage/store.go:199-222 | Lists every stored entry exactly once, in increasing order of index. |
| Store.BoltStore.DeleteLogEntriesFrom | pkg/storage/store.go:225-252 | Removes exactly the entries from an index on. |
| Store.IncreasingUnique | pkg/storage/store.go:205-219 | That order and content determine the list. |
| Store.PutAllLast | pkg/storage/store.go:115-136 | Under an index lies the last entry of the list that has it. |
| Store.PutAllOthers | pkg/storage/store.go:115-136 | An index that no entry of the list has keeps what it held. |
| Store.KeepIs | pkg/storage/store.go:225-252 | Exactly the entries below the index survive a deletion, unchanged. |
| Persistence.ReplayBatch | pkg/raft/persistence.go:85-105 | Replaying a batch of log records puts its entries under their indices, the last write winning. |
| Persistence.ReplayUpto | pkg/raft/persistence.go:151-162 | Truncating the log's records at an index replays as deleting exactly the entries above it, and keeps term and vote. |
| Persistence.BatchRecords | pkg/raft/persistence.go:85-105 | A batch is one log record per entry, in order, with the entry's index and term and its JSON. |
| Persistence.PersistenceLayer.PersistMetadata | pkg/raft/persistence.go:26-49 | Sets term and vote in both copies, which go on agreeing. |
| Persistence.PersistenceLayer.PersistLogEntries | pkg/raft/persistence.go:68-106 | Puts the entries into both copies, which go on agreeing. |
| Persistence.PersistenceLayer.PersistSnapshot | pkg/raft/persistence.go:175-198 | Stores the metadata and changes neither the log nor the term and vote of either copy. |
| Persistence.PersistenceLayer.DeleteLogEntriesFrom | pkg/raft/persistence.go:151-162 | Deletes in the store; if the records fit their headers, the copies agree afterwards if and only if the index is at least 1 or there was nothing to delete. |
| Persistence.TwoCopies | pkg/raft/persistence.go:26-198 | After any sequence of metadata, log and snapshot persists and deletes from index 1 on, the store loads what the sequence means, and if the records fit their headers, last-write-wins replay of those read from disk equals it. |
| Persistence.DeleteFromZero | pkg/raft/persistence.go:151-162 | Deleting from index 0 wraps around: one persisted entry disappears from the store and stays in the log. |
| Recovery.CreateCheckpoint | pkg/raft/recovery.go:164-195 | Writes term, vote and every log entry over what was stored; both copies agree. |
| Recovery.RecoverState | pkg/raft/recovery.go:24-83 | Restores the stored term, vote and entries in index order, and succeeds exactly when the snapshot metadata, if any, decodes and the stored indices are 1..n. |
| Recovery.ValidateRecoveredState | pkg/raft/recovery.go:102-120 | Accepts exactly the logs with indices 1..n. |
| Recovery.AcceptedIffGapless | pkg/raft/recovery.go:102-120 | The listed log passes validation if and only if the stored indices have no gap and no zero. |
| Recovery.CheckpointRestores | pkg/raft/recovery.go:164-195 | What recovery lists after a checkpoint is the checkpointed log if and only if that log is 1..n and the store held no other index. |
| Recovery.CheckpointThenRecover | pkg/raft/recovery.go:24-195 | A checkpoint followed by recovery restores term and vote always, and succeeds with the same log on exactly that condition, given that the snapshot metadata decodes. |
| Configuration.VoterCount | pkg/cluster/types.go:129-137 | The loop counts the voters. |
| Configuration.QuorumIsLeast | pkg/cluster/types.go:140-142 | k is at least the quorum if and only if any two sets of k or more voters meet. |
| Configuration.ValidateExactly | pkg/cluster/types.go:315-359 | A change is valid if and only if it applies, does not lose the last voter, names an address if it adds, and demotes a voter if it demotes. |
| Configuration.AppliesExactly | pkg/cluster/types.go:362-384 | A change applies if and only if the node to add is absent, the one to promote a learner, the one to remove or demote a member. |
| Configuration.ValidateChange | pkg/cluster/types.go:315-359 | Accepts exactly the valid changes. |
| Configuration.ChangeEffect | pkg/cluster/types.go:362-384 | What each change does to the voters and the learners. |
| Configuration.ChangeTouchesOne | pkg/cluster/types.go:362-384 | A change leaves every other member alone, keeps the address of a member it promotes or demotes, and gives a new one the address proposed. |
| Configuration.AcceptedChange | pkg/cluster/types.go:255-279 | An accepted change moves to a non-empty voter set that differs in at most one member, and every quorum before meets every quorum after. |
| Configuration.RunsKeepQuorums | pkg/cluster/types.go:255-312 | Every propose/commit/abort run from a non-empty voter set keeps a voter; quorums before and after each step meet, and so do those of the current and the pending configuration. |
| Configuration.ReplayLosesVoters | pkg/cluster/types.go:387-407 | Replay, which does not validate, loses the last voter exactly by removing or demoting the only one. |
| Configuration.ReplayIsChain | pkg/cluster/types.go:387-407 | Folding replay over the changes any run committed gives the run's configuration, index, term and last change index, whatever was proposed and aborted in between. |
| Configuration.StepsCoherent | pkg/cluster/types.go:255-312 | Every operation keeps: at most one change pending, the pending configuration is that change applied to the current one, and lastChangeIndex is the current index. |
| Configuration.ConfigurationManager.ProposeChange | pkg/cluster/types.go:255-279 | Accepts exactly when nothing is pending and the change is valid; otherwise changes nothing. |
| Configuration.ConfigurationManager.CommitChange | pkg/cluster/types.go:282-302 | Makes the pending configuration current at the given index and term. |
| Configuration.ConfigurationManager.AbortChange | pkg/cluster/types.go:305-312 | Drops the pending change only. |
| Configuration.ConfigurationManager.ApplyConfigChange | pkg/cluster/types.go:387-407 | Applies a change directly and drops any pending one. |
| Configuration.ConfigurationManager.SetCurrent | pkg/cluster/types.go:410-419 | Installs a configuration with its own index. |
| Membership.LearnersTracked | pkg/cluster/membership.go:49-320 | In every run where commits name the pending change and replay neither demotes nor interrupts a pending addition, the tracked nodes are exactly the current learners and the pending one. |
| Membership.CommitAddTracks | pkg/cluster/membership.go:80-89 | A commit made for an addition keeps that if and only if what is pending is an addition, or retires no learner and demotes nobody. |
| Membership.CommitAndForgetTracks | pkg/cluster/membership.go:187-233 | A commit made for a promotion or removal keeps it if and only if the named node is the learner that leaves, or neither is tracked; for a pending addition, if and only if it names nobody tracked. |
| Membership.ReplayTracks | pkg/cluster/membership.go:267-296 | A replayed change keeps it if and only if it does not demote a voter and there is no pending addition other than the one replayed. |
| Membership.CaughtUpIsLastReport | pkg/cluster/membership.go:92-119 | In every run a tracked node is marked caught up if and only if its latest report since tracking began was within the gap, and its match index is that report's. |
| Membership.PromotionNeedsCatchUp | pkg/cluster/membership.go:157-184 | A promotion is accepted only for a current learner whose latest report, if not ahead of the leader, was within the gap of the leader's last index. |
| Membership.AheadWrapsAround | pkg/cluster/membership.go:110-113 | The gap is a uint64 difference: a report ahead of the leader counts as caught up exactly from 2^64 - gap entries on. |
| Membership.MembershipManager.SetPromotionCallback | pkg/cluster/membership.go:260-264 | Sets or clears the callback. |
| Membership.MembershipManager.AddLearner | pkg/cluster/membership.go:49-77 | Proposes an addition and starts tracking exactly when it is accepted. |
| Membership.MembershipManager.CommitAddLearner | pkg/cluster/membership.go:80-89 | Commits whatever is pending; the node it is given plays no part. |
| Membership.MembershipManager.RemoveNode | pkg/cluster/membership.go:202-218 | Proposes a removal through the configuration manager. |
| Membership.MembershipManager.CommitRemoveNode | pkg/cluster/membership.go:221-233 | Commits what is pending and forgets the named node. |
| Membership.MembershipManager.UpdateLearnerProgress | pkg/cluster/membership.go:92-119 | Records a report about a tracked node only, and starts the promotion callback exactly when one is set and the node has just caught up. |
| Membership.MembershipManager.PromoteLearner | pkg/cluster/membership.go:157-184 | Proposes a promotion exactly for a node marked caught up that the manager accepts. |
| Membership.MembershipManager.CommitPromoteLearner | pkg/cluster/membership.go:187-199 | Commits what is pending and forgets the named node. |
| Membership.MembershipManager.AbortChange | pkg/cluster/membership.go:246-257 | Drops the pending change and a learner that was only being added. |
| Membership.MembershipManager.ApplyConfigChange | pkg/cluster/membership.go:267-296 | Replays a change and updates the tracking by its kind. |
| Membership.MembershipManager.SetConfiguration | pkg/cluster/membership.go:299-320 | The loop rebuilds the tracking as exactly the learners of the restored configuration. |

## Left out

- Safety.StateMachineSafety: for careful runs; the code's own follower commit bound is unsafe in all other runs, as `LiteralRuns.SafeIffHarmless` shows.
- Persistence.TwoCopies: snapshot records are written but not replayed; a deletion also drops those above its index, while the store keeps its copy.
- Wal.FileWal.Crash: says nothing of the list when the files end inside a record; appending after such a tail is not modelled. Segment files are a sequence in the order of their numbers, which the log itself creates without gaps; file system errors are left out.
- Backoff.ExchangeCompletes: without the attempt limit of `replicateToPeer`, and over a network that loses nothing.
- Membership.PromotionNeedsCatchUp: gives the gap for reports not ahead of the leader; `Membership.AheadWrapsAround` covers the others.
- Crashes of Raft nodes: `Node` does not call the persistence layer, so runs are crash-free.
- Timers, tickers, retries and liveness: a timeout or a send is a step that may happen at any time.
- The gap between the leader check and building a request is closed by the guard of the send step, except in `StaleTail.LateSendIsUnsafe`; other interleavings inside a node are left out.
- Times of contact and of addition, and node replacement status in the membership manager.
- Configurations as shared references: the source clones them before every change, and the model uses values.
- The log bucket's range load, first and last index: no new behaviour beside listing and deleting.
- Linearizable and lease reads (`pkg/raft/read.go`, `pkg/raft/lease.go`): leadership is confirmed by sleeping and a local check.
- InstallSnapshot and snapshot files: the receiving side is a stub.
- The standalone `Log` class, except for its conversions: nodes use `ServerState.Log`.
- `pkg/api`, `pkg/rpc` and `cmd`: request routing, transport and command-line output.
- JSON, gob, SHA-256, CRC32 and BoltDB internals: parameters, or an ordered map.
