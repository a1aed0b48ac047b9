# A verified model of a Raft-replicated, sharded ledger

The system is a bank core: a hand-written Raft (leader election, log replication, snapshots, single-server
membership changes), a deterministic double-entry ledger replicated by one Raft group per shard, and two-phase
commit between shards for transfers whose accounts live in different groups. This project models its logic in
Dafny and proves what it is for.

Check the whole project with `dafny verify dfyconfig.toml`.

## Layers

**Raft.** `RaftState.dfy` writes each critical section of a server as a function on a server value, with its disk.
`RaftServer.dfy` has the server object itself, updated in place, every method proved to compute the function of the
same section. `RaftCluster.dfy` makes those functions the atomic steps of a cluster over a network that loses,
duplicates and reorders messages, with servers that crash and come back with only their disk. `RaftInvariant.dfy`
to `RaftReplication.dfy` hold the inductive invariant: history variables record every ballot and every reign, and
each log is anchored in the reigns of its terms. `RaftRuns.dfy` concludes Figure 3 of the extended Raft paper over
all runs. `RaftDelivery.dfy`, `RaftRepair.dfy`, `RaftCompaction.dfy`, `RaftInvisible.dfy` and `RaftRecovery.dfy`
prove duplicate delivery, log repair, log compaction and crash recovery; `RaftCompacting.dfy` and
`RaftSnapshots.dfy` put these together: clusters whose servers compact, ship snapshots and crash, in the middle of a
compaction included, are simulated by the cluster without compaction, in which `RaftOffers.dfy` has a committed prefix
sent entry by entry where the source sends a snapshot, so Figure 3 holds of them. `RaftHearing.dfy` shows that a server
may even hear of a term and lose it in a crash, as the replies of InstallSnapshot that take no snapshot let it.
`RaftAnswers.dfy` says exactly when each handler says yes, `RaftReach.dfy` gives a run that elects any member and
applies its command everywhere, and `RaftShipping.dfy` shows that a leader always has something to send.
`Membership.dfy` has the counting argument behind single-server changes, `RaftCodec.dfy` the durable record.

**Ledger.** `Ledger.dfy` has the ledger's operations on a ledger value, with int64 arithmetic written out;
`LedgerState.dfy` the object. `LedgerInvariant.dfy`, `LedgerOnce.dfy` and `LedgerAccounting.dfy` prove what every
interleaving of operations keeps; `LedgerEffects.dfy` what each operation does to which account, in plain integers.

**Shards.** `ShardMachine.dfy` and `ShardState.dfy` are the state machine of one shard; `TwoPhase.dfy` the
coordinator's control flow and the invariant of one transfer; `TwoPhaseRuns.dfy`, `TwoPhaseAccounting.dfy` and
`TwoPhaseHeadroom.dfy` the system of all shards, transfers, coordinator stops and recoveries; `TwoPhaseViews.dfy` what
recovery may read the decision from; `TwoPhaseRecovery.dfy` one recovery pass; `Coordinator.dfy` the coordinator object
over live shard machines; `Transfers.dfy` what an answered transfer does to the money; `Payments.dfy` what any answered
command does, from its routing to the accounts. `TwoPhaseReach.dfy` shows that the states these theorems speak of are
reached.
`LedgerSnapshot.dfy`, `ShardSnapshot.dfy`, `SnapshotIO.dfy` and `CommandCodec.dfy` cover the byte formats, `Ring.dfy`
the placement of accounts. `Restores.dfy` has what a restore loses, and `Replicas.dfy` joins the layers: replicas of a
shard that have applied equally far agree on every result, balance, reservation, phase and decision, however often
either was restored from a snapshot, and on their histories under an exact condition.

FNV-1a and CRC-32 are function parameters: everything holds for any hash, and where collisions matter their
absence is a stated hypothesis. Account ids, keys and shard ids are byte strings. The Raft state machine is the free
one, which remembers what it was fed, through snapshots too. A shard machine is what the entries fed to it and the
restores in between make of an empty one, and a restore drops what the snapshot format does not carry; `Replicas.dfy`
states its theorems for every way of placing restores among the entries a replica was fed.

## What the hypotheses are

* A transaction id belongs to one transfer, driven by one coordinator call; recovery acts on it only after that call
  has stopped; a decision takes effect when it is proposed or never. Prepares and outcomes may take effect at any
  later time, or more than once. `TwoPhaseHeadroom.EarlyRecoverySplits` and `TwoPhaseHeadroom.LateDecisionSplits`
  show, from either side, that recovery has to wait for the call. `TwoPhaseHeadroom.PendingDecisionSplits` shows that a
  decision must not be pending once it has: the credit is aborted for want of one, then it takes effect and the debit
  commits. `TwoPhaseReach.VotesComeIn` reaches the state all three start from.
* Phases account for the money in transit only if credits have room in their target account;
  `TwoPhaseHeadroom.LandsExactly` gives the exact condition, and `TwoPhaseAccounting.ExactAccounting` needs no such
  hypothesis.
* Atomicity needs recovery to be answered by a replica of the coordinator group that has applied the decision, if
  there is one. `TwoPhaseViews.InquiryExactly` shows that an inquiry is safe if and only if it is, and
  `TwoPhaseViews.CaughtUpFresh` that catching the coordinator group up once the call has stopped is enough. The code
  catches up only the group it scans: `TwoPhaseViews.StaleInquiryArises` reaches an unsafe inquiry from any transfer
  whose votes are in, and `TwoPhaseViews.StaleInquirySplits` goes on to split it. That a replica which has applied the
  catch-up entry shows all that any replica of its group had applied when it was proposed is
  `Replicas.CatchUpShows`. `TwoPhaseRecovery.OrderIrrelevant` and
  `TwoPhaseRecovery.OrderMatters` say the same of the order of a pass. Exact accounting does not depend on it.
* Membership is fixed in the cluster model.

## Where the code and its comments differ

* A decision-only record is said to move no money; on the credit side it does
  (`ShardMachine.UnpreparedOutcome`, `ShardMachine.UnpreparedCredit`).
* A reply to a snapshot is said to be able to advance the commit index; it cannot
  (`RaftCompaction.SnapshotReplyCommitsNothing`).
* A higher term is said to be durable before any reply, lest a restart resurrect the old one; the replies of
  InstallSnapshot that take no snapshot are not (`RaftDelivery.InstallDurableExactly`). It does no harm
  (`RaftHearing.AheadPreserves`): a request of that term ends in an entry of the term, so accepting it writes.
* Every replica of a shard is said to reach the same state from the same log, snapshots are said to hold everything
  derived from the log, and an outcome re-delivered by recovery is said to be booked at the time recorded at prepare.
  Snapshots carry no timestamps of recorded commands, so a leader restored from one recovers a transfer without its
  time. A replica that replayed the log then books it at the recorded time and a restored one at none
  (`Replicas.RestoredRecoveryParts`), and their histories and later snapshots differ for good. `Replicas.HistoriesExactly`
  and `Replicas.SnapshotsExactly` have the exact condition; everything but timestamps agrees regardless
  (`Replicas.ReplicasAgree`).
* Recovery takes a coordinator leader that shows no decision for a group that has made none, and calls the abort safe;
  it need not be (`TwoPhaseViews.InquiryExactly`).
* The error of RecoverInDoubt is meant to say whether anything is left unresolved. A proposal that meets a group no longer
  led here returns no error, settles nothing and is counted as resolved; `TwoPhaseRecovery.NilMeansSettled` has the exact
  condition.
* Only a transfer is said to span shards. An operation code that is none of the four is refused on one shard and carried
  out as a transfer between two (`Payments.AnsweredPaid`). Between shards, too, a full payee does not refuse the
  transfer but goes without it, and the answer is what the payer has free, where one shard answers with its balance.
* An arc of the ring is documented as containing its start and not its end; Lookup has it the other way round
  (`Ring.SegmentBoundary`).
* The commit index can move backwards on a request that carries a commit index beyond its own entries
  (`RaftDelivery.CommitCanRetreat`); no leader builds one (`RaftDelivery.BuiltRequestCovers`).
* Two different transfers between accounts whose ids contain NUL bytes can have one fingerprint
  (`LedgerOnce.RequestCollides`); without NUL bytes they cannot (`LedgerOnce.RequestDistinct`).

## Model

| member | source | states |
|---|---|---|
| RaftRuns.ElectionSafety | raft/loop.go:129-276 | over every run, including restarts, at most one server ever leads in a term |
| RaftRuns.LeaderAppendOnly | raft/loop.go:227-276 | while a server leads a term its log only grows |
| RaftRuns.LogMatching | raft/log.go:105-155 | any two logs at any two moments that agree on an index's term agree on everything up to it |
| RaftRuns.LeadersKeepCommits | raft/loop.go:432-460 | what any server has committed is in the log of every leader of a later term, at any moment of the run |
| RaftRuns.StateMachineSafety | raft/server.go:446-462 | no two servers, at any two moments, have applied different entries; one machine's input is a prefix of the other's |
| RaftHearing.StepPreserves | raft/server.go:281-437 | every enabled step of election, replication, commit, snapshot transfer, halt or crash keeps the inductive invariant and only extends history |
| RaftHearing.AheadPreserves | raft/snapshot.go:219-252 | so does every step of a server whose term in memory is ahead of the one on its disk |
| RaftHearing.RequestExtends | raft/loop.go:334-352 | a request of a term ends in an entry of that term, so a server whose disk is behind the term cannot accept it without writing |
| RaftHearing.AppendSame | raft/server.go:281-362 | with or without the term on disk AppendEntries does and answers the same, or it refuses and changes nothing a restart would bring back |
| RaftRuns.RunInv | raft/persist.go:189-224 | the invariant holds at every moment of every run, restarts from disk included |
| Replicas.ReplicasAgree | shard/machine.go:45-63 | replicas of a shard that have applied equally far, at any two moments of any run with compaction, snapshot transfer and crashes, and however often either machine was restored, agree on all but booked and recorded timestamps and byIndex, answer every further command sequence alike and have their books in order |
| Replicas.HistoriesExactly | shard/machine.go:250-255 | replicas fed the same entries, restored at any moments, have the same history if and only if no commit without a timestamp posted a leg for a record logged with one that just one of them was restored since |
| Replicas.SnapshotsExactly | shard/snapshot.go:43-60 | and their snapshots are the same bytes under the same condition |
| Replicas.StampedAgree | shard/machine.go:250-255 | if every commit outcome in the log carries a timestamp, restores leave no trace in the ledger |
| Replicas.StampsHeld | shard/snapshot.go:12-40 | a record has the timestamp its transaction was logged with, or none if the machine was restored after recording it |
| Replicas.RestoredRecoveryParts | shard/coordinator.go:425-429 | for any funded transfer, recovery proposed by a restored leader books the debit differently on a restored replica and on one that replayed the log |
| Replicas.CatchUpShows | shard/coordinator.go:328-337 | a replica that has applied an entry submitted to a leader of its group at some moment holds, timestamps apart, what any replica held by then with the commands logged since applied on top |
| RaftSnapshots.CompactingCatchUp | raft/server.go:126-141 | a server that has applied the entry a leader appended at some moment has been fed all that any server had been fed by then, with compaction, snapshot transfer and crashes; the entry itself, which waiting for its index does not tell from one that replaced it |
| Restores.BooksExactly | shard/machine.go:211-255 | one command makes equal histories of machines alike but for timestamps differ if and only if it is a commit without one that posts a leg for a record they have different timestamps for |
| Restores.BytesExactly | shard/snapshot.go:43-100 | machines alike but for timestamps have the same snapshot bytes if and only if they have the same history |
| Restores.RestoredRecoveryDiverges | shard/coordinator.go:425-429 | a decided prepared debit recovered from a restored record is booked under no time where its record was lost and under the prepare's where it was not |
| RaftAnswers.CommitExactly | raft/loop.go:432-460 | a leader commits exactly through the highest entry of its own term that more than half of its peers hold; nobody else commits |
| RaftAnswers.VoteExactly | raft/server.go:370-437 | a vote is granted if and only if the server is up, the term is not old, no leader was just heard from, the vote is free or the candidate's, and the candidate's last entry is as late; it is then on disk |
| RaftAnswers.LeadExactly | raft/loop.go:188-217 | a candidate may lead if and only if more than half of its peers have voted for it |
| RaftAnswers.VoteCounts | raft/loop.go:188-217 | a vote counts if and only if it was granted and the candidate still stands in the term it was asked for |
| RaftAnswers.LeaderContactHolds | raft/server.go:386-408 | a follower that has just heard from a leader turns away every candidate of any term and keeps its own term |
| RaftAnswers.AppendExactly | raft/server.go:281-362 | a request is taken if and only if the server is up, the term is not old and the entry before matches; the commit index then follows the leader's as far as the request covers |
| RaftAnswers.InstallExactly | raft/snapshot.go:209-292 | a snapshot replaces the machine if and only if it is of no old term, readable, and ahead of the log's base and of the machine |
| RaftAnswers.CompactsExactly | raft/snapshot.go:120-193 | a finished compaction leaves exactly the unapplied entries, if the log had reached the threshold and something was applied |
| RaftAnswers.MarkerKeepsUp | raft/server.go:464-489 | a saved marker names the last entry applied |
| RaftReach.CommandReachesAll | raft/loop.go:129-495 | from the start of any cluster there is a run in which any given member is elected by all and every server applies the command submitted to it, once and alone |
| RaftShipping.NeverStuck | raft/snapshot.go:319-392 | at any moment of any run with compaction and crashes a leader has entries or a snapshot of all it has discarded for any peer, and entries again once the snapshot is answered for |
| RaftSafety.LeaderCompleteness | raft/server.go:413-422 | an entry committed in a term is in the log every later term's leader was elected with |
| RaftSafety.UpToDateKeeps | raft/log.go:92-98 | a candidate at least as up to date as a voter that holds a leader's log through an entry of that leader's term holds it too, given that later leaders do |
| RaftSafety.QuorumsMeet | raft/log.go:162-164 | two majorities of one membership share a server |
| RaftLog.AppendFromClosedForm | raft/log.go:134-155 | on logs that match, appendFrom keeps a log that already holds the last entry and otherwise yields the leader's prefix |
| RaftLog.AppendFromKeepsPresent | raft/log.go:134-155 | entries already present change nothing |
| RaftServer.Server.AppendFrom | raft/log.go:134-155 | the in-place loop computes the fold over the entries and reports exactly whether the log changed |
| RaftServer.Server.AppendEntries | raft/server.go:281-362 | rules 1 to 5 in place: the new state and the reply are those of the step proved safe |
| RaftServer.Server.RequestVote | raft/server.go:370-437 | the vote and the new state are those of the step proved safe, with the leader-contact refusal as an input |
| RaftServer.Server.ApplyCommitted | raft/server.go:446-489 | the apply loop feeds exactly the committed commands in log order and records the marker if it can |
| RaftServer.Server.StartElection | raft/loop.go:129-156 | term, vote and role after a campaign starts, on disk before the request goes out |
| RaftServer.Server.OnVoteReply | raft/loop.go:188-217 | a higher term steps down durably; a stale reply counts nothing; a grant counts its voter once |
| RaftServer.Server.BecomeLeader | raft/loop.go:227-270 | progress maps reset, the no-op of the new term appended and persisted, commit index advanced |
| RaftServer.Server.AdvanceCommitIndex | raft/loop.go:432-460 | the downward scan commits the highest index of the leader's own term that a majority holds |
| RaftServer.Server.FindCommit | raft/loop.go:432-460 | the scan finds exactly that index |
| RaftServer.Server.Submit | raft/loop.go:471-495 | a leader appends, persists and counts itself; anyone else refuses and changes nothing |
| RaftServer.Server.PrepareAppend | raft/loop.go:308-353 | the request built from nextIndex, or none for a follower below the snapshot |
| RaftServer.Server.OnAppendReply | raft/loop.go:367-416 | progress moves only on replies of the leader's own term; a failed probe steps nextIndex back by one |
| RaftServer.Server.MaybeCompact | raft/snapshot.go:120-193 | snapshot saved before the log is cut, at each of the points the process may die |
| RaftServer.Server.DiscardThrough | raft/snapshot.go:197-203 | the prefix is replaced by a boundary entry and the tail kept |
| RaftServer.Server.InstallSnapshot | raft/snapshot.go:209-292 | machine, log, markers and disk move together; covered and unreadable snapshots leave them alone |
| RaftServer.Server.PrepareInstall | raft/snapshot.go:319-360 | the snapshot request of a leader that has one |
| RaftServer.Server.OnInstallReply | raft/snapshot.go:365-392 | match and next index rise to the snapshot, never fall |
| RaftServer.Server.Restore | raft/persist.go:189-338 | state, snapshot and marker files rebuild the server, replaying what the snapshot lacks |
| RaftDelivery.DuplicateAppend | raft/server.go:281-362 | handling any AppendEntries twice leaves what once leaves, and answers the same |
| RaftDelivery.DuplicateVote | raft/server.go:370-437 | handling any RequestVote twice leaves the state it left once and never revokes a vote |
| RaftDelivery.DuplicateInstall | raft/snapshot.go:209-292 | handling any InstallSnapshot twice leaves what once leaves |
| RaftDelivery.InstallDurableExactly | raft/snapshot.go:209-252 | the term InstallSnapshot answers with is on disk if and only if it was not ahead or the snapshot was taken |
| RaftDelivery.PersistBeforeReply | raft/server.go:345-352 | every other handler ends with term, vote and log on disk as in memory if any of them changed, and never unapplies an entry |
| RaftDelivery.CommitRetreatsExactly | raft/server.go:354-360 | AppendEntries moves the commit index backwards exactly when the request covers less than it claims committed and less than is committed here |
| RaftDelivery.CommitCanRetreat | raft/server.go:354-360 | a concrete request on which it does |
| RaftDelivery.BuiltRequestCovers | raft/loop.go:334-352 | the requests replicateTo builds never claim more than they cover |
| RaftDelivery.CommitNeverRetreats | raft/server.go:354-360 | so no step of the protocol but a crash lowers any commit index, however old the request |
| RaftRepair.ProbeStep | raft/loop.go:367-416 | one probe either repairs the follower or costs exactly one step of nextIndex |
| RaftRepair.RepairConverges | raft/loop.go:308-417 | for a stable leader and follower, at most nextIndex probes make the logs agree through the leader's last index |
| RaftRepair.RepairedStays | raft/loop.go:308-417 | and they stay in agreement under further probes |
| RaftCompaction.AppendRefines | raft/server.go:281-362 | a compacted follower answers AppendEntries as one with its whole log and stays its compaction |
| RaftCompaction.VoteRefines | raft/log.go:92-98 | a compacted server votes as one with its whole log |
| RaftCompaction.ElectionRefines | raft/loop.go:129-217 | it campaigns with the same arguments and hears votes the same |
| RaftCompaction.LeadRefines | raft/loop.go:227-276 | it takes the lead the same |
| RaftCompaction.SubmitRefines | raft/loop.go:471-495 | it accepts proposals the same |
| RaftCompaction.ReplyRefines | raft/loop.go:367-416 | it hears append replies, and advances its commit index, the same |
| RaftCompaction.BuildRefines | raft/loop.go:308-353 | it builds the same request, unless the peer needs discarded entries |
| RaftCompaction.CompactionStutters | raft/snapshot.go:120-203 | compacting, wherever it stops, changes nothing of the full server it stands for |
| RaftCompaction.InstallRefines | raft/snapshot.go:209-292 | InstallSnapshot does to a compacted server what an AppendEntries carrying the whole prefix does to the full one, keeping the tail exactly when entry-by-entry repair would |
| RaftCompaction.SnapshotReplyCommitsNothing | raft/snapshot.go:382-389 | counting a follower for a snapshot moves the commit index no further than it would go anyway |
| RaftCompaction.SnapshotReplyResumes | raft/snapshot.go:374-384 | after the reply the follower is sent entries again, not the snapshot |
| RaftInvisible.CompactionInvisible | raft/snapshot.go:120-203 | for every event sequence with compactions anywhere in it, the compacted and the full server give the same answers throughout |
| RaftInvisible.ProtocolConsistent | raft/loop.go:334-352 | every AppendEntries request of a run agrees with what any server it is not stale for has committed |
| RaftInvisible.ProtocolInstallable | raft/snapshot.go:352-362 | the snapshot of any server of a run meets what InstallRefines asks of any receiver |
| RaftOffers.TakenOk | raft/snapshot.go:209-292 | taking a committed prefix from any leader not behind keeps everything a server has promised, voted for and applied, even as a candidate of the same term |
| RaftSnapshots.Simulation | raft/snapshot.go:120-400 | every run of a cluster whose servers compact, ship snapshots, taken, refused or undecodable, and crash, in the middle of a compaction included, is matched moment by moment by a run in which no log is ever cut |
| RaftSnapshots.InstallPaired | raft/snapshot.go:209-292 | a snapshot on a compacting server and the covered prefix on its full counterpart leave the two in step, files included, with the same answer |
| RaftSnapshots.CompactingElectionSafety | raft/loop.go:129-276 | at most one leader per term with compaction, snapshot transfer and recovery from snapshots |
| RaftSnapshots.CompactingLogMatching | raft/snapshot.go:197-203 | two logs that agree on an index's term agree on every entry below it that both still hold |
| RaftSnapshots.CompactingLeadersKeepCommits | raft/snapshot.go:319-400 | a leader of a later term holds every committed entry it has not discarded |
| RaftSnapshots.CompactingStateMachineSafety | raft/persist.go:226-338 | with compaction, snapshot transfer and recovery from snapshots no two machines are ever fed differently, before or after any crash |
| RaftCompacting.RestartsPaired | raft/persist.go:189-338 | a server restored from state, snapshot and marker files is the compaction of one restored from its whole log |
| RaftRecovery.RecoveryExact | raft/persist.go:189-338 | Restore rebuilds the machine fed with the full log through max(snapshot index, min(marker, last index)), each entry once |
| RaftRecovery.CompactionKeepsDisk | raft/snapshot.go:161-193 | before, between and after the two saves the three files stand for the same log |
| RaftRecovery.CrashDuringCompaction | raft/snapshot.go:161-193 | killed at any point of a compaction, the server recovers at least as far as without it |
| RaftRecovery.RecoveredRefines | raft/persist.go:226-297 | the recovered server is a compaction of the one that kept its whole log |
| RaftRecovery.CrashDuringInstall | raft/snapshot.go:266-287 | killed between the snapshot save and the state save, recovery ends with the installed log and machine |
| RaftCodec.DurableRoundTrip | raft/persist.go:49-154 | decoding what was encoded gives the state back if and only if every field fits and no command is present but empty |
| RaftCodec.Encode | raft/persist.go:49-81 | the encoding loop produces exactly the format |
| RaftCodec.Decode | raft/persist.go:86-154 | the decoding loop reads it with the reader's short-read behaviour |
| Membership.DiffersExactly | raft/membership.go:113-131 | for duplicate-free configurations differsByOne holds if and only if one server was added or one removed |
| Membership.NeighbourQuorumsMeet | raft/membership.go:25-32 | every majority of one configuration meets every majority of a neighbour |
| Membership.TwoAtOnceSplits | raft/membership.go:14-20 | two servers at once can have disjoint majorities |
| Membership.AddedNeighbour | raft/membership.go:92-99 | adding an absent server gives a duplicate-free neighbour with exactly that server more |
| Membership.RemovedNeighbour | raft/membership.go:102-110 | removing a member gives a duplicate-free neighbour |
| Membership.TenureSafe | raft/membership.go:227-270 | in one leader's tenure, successive configurations have meeting majorities and all but the last are committed |
| Membership.AcceptedExactly | raft/membership.go:198-255 | a change is accepted if and only if the server leads, is in its configuration, has its last change committed, and the change adds someone new or removes one of several; the new members are then exactly those |
| Membership.NeverNotSingle | raft/membership.go:253-255 | AddServer and RemoveServer never trip the single-server check |
| Membership.Leader.UseConfiguration | raft/membership.go:283-308 | the leader tracks exactly the new members, kept ones unchanged, new ones from the end of the log, and forgets what it counted removed ones for |
| Membership.Leader.ChangeConfiguration | raft/membership.go:227-270 | each refusal; on acceptance the appended entry, the configuration in force and what is on disk; and that a failed save is reported with the change in force in memory |
| Membership.ConfigRoundTrip | raft/membership.go:137-185 | decoding an encoded configuration gives it back |
| LedgerInvariant.RunsOk | ledger/ledger.go:274-413 | every interleaving of all operations from the empty ledger keeps funds covered, books balanced and keys single-use |
| LedgerInvariant.FundsSound | ledger/reserve.go:41-71 | for every account 0 <= reserved <= balance <= maxMoney, available is their difference, and the history folds to the balances |
| LedgerInvariant.GuardExact | ledger/ledger.go:330-332 | the overflow guard, in wrapping arithmetic, admits exactly the credits that fit, and so refuses negative ones |
| LedgerOnce.ExactlyOnce | ledger/ledger.go:287-306 | after any intervening operations a retry returns the original result and changes nothing; another fingerprint under the key conflicts and changes nothing |
| LedgerOnce.RetryKeepsRequest | ledger/ledger.go:143-154 | key and timestamp do not enter the fingerprint |
| LedgerOnce.RequestSame | ledger/ledger.go:155-167 | exactly which commands hash the same bytes |
| LedgerOnce.RequestDistinct | ledger/ledger.go:155-167 | for ids without NUL bytes, only commands with the same op, accounts and amount do |
| LedgerOnce.RequestCollides | ledger/ledger.go:155-167 | two different transfers that do |
| LedgerOnce.ClientKeyOnce | ledger/ledger.go:287-306 | each client key yields at most one transaction in the history of any run |
| LedgerOnce.CreditNotPreempted | ledger/reserve.go:183-190 | no client commands and no other transaction make CommitCredit skip a credit |
| LedgerAccounting.ApplyDrift | ledger/ledger.go:310-395 | a client command moves the total by exactly what it records as opened, deposited or withdrawn |
| LedgerAccounting.CommitDebitDrift | ledger/reserve.go:143-176 | committing a debit takes exactly the reserved amount out |
| LedgerAccounting.CommitCreditDrift | ledger/reserve.go:179-210 | committing a credit adds exactly its amount if it posts and nothing otherwise |
| LedgerState.State.ReservedFor | ledger/reserve.go:63-71 | the int64 sum of reservations does not depend on map order |
| LedgerState.State.VerifyDoubleEntry | ledger/ledger.go:474-499 | what the audit checks, and that it passes on every ledger whose books are in order |
| LedgerState.State.TotalMoney | ledger/ledger.go:439-457 | the total is the wrapped sum of all balances in any order |
| LedgerState.State.Record | ledger/ledger.go:398-413 | appends one numbered transaction; its precondition shows the double-entry panic is unreachable |
| LedgerState.State.Apply | ledger/ledger.go:274-307 | key checks, retry path, execution and recording in place |
| LedgerState.State.Execute | ledger/ledger.go:310-395 | the four operations with their refusals, in place |
| LedgerEffects.OpenExactly | ledger/ledger.go:312-322 | opening succeeds if and only if the account is new and the amount not negative; it gets exactly that balance |
| LedgerEffects.DepositExactly | ledger/ledger.go:323-336 | a deposit succeeds if and only if it is positive, the account exists and its balance still fits in an int64; that balance rises by it and no other changes |
| LedgerEffects.WithdrawExactly | ledger/ledger.go:337-361 | a withdrawal succeeds if and only if it is positive and at most balance minus reservations; the balance drops by it, and a refusal tells what is free |
| LedgerEffects.TransferExactly | ledger/ledger.go:362-390 | a transfer succeeds if and only if payer and payee are two accounts, the payer has the amount free and the payee room for it; it moves from the one to the other, the answer is the payer's new balance, and a refusal changes no balance, history or reservation |
| LedgerEffects.OtherwiseRefused | ledger/ledger.go:274-308 | an empty or reserved key changes nothing at all; an unknown operation is refused |
| LedgerEffects.HoldExactly | ledger/reserve.go:86-124 | a hold is granted if and only if the amount is free, or is the one already held; the answer is what stays free |
| LedgerEffects.DebitExactly | ledger/reserve.go:143-175 | committing a held debit takes exactly the held amount, ends the hold, leaves what was free free, and books one leg |
| LedgerEffects.CreditExactly | ledger/reserve.go:179-210 | a first credit posts if and only if the account exists and has room, and then adds exactly the amount |
| LedgerEffects.ReleaseExactly | ledger/reserve.go:213-226 | an abort frees exactly what was held and changes nothing else |
| LedgerState.State.PrepareDebit | ledger/reserve.go:86-122 | the hold, its retry and its refusals in place |
| LedgerState.State.PrepareCredit | ledger/reserve.go:128-140 | the credit side's vote |
| LedgerState.State.CommitDebit | ledger/reserve.go:143-176 | the reservation becomes a one-legged debit, or is reported missing |
| LedgerState.State.CommitCredit | ledger/reserve.go:179-210 | one credit per transaction, recorded under its internal key |
| LedgerState.State.AbortTx | ledger/reserve.go:213-225 | the reservation is released |
| LedgerState.State.Snapshot | ledger/snapshot.go:54-115 | equal ledgers give equal bytes, whatever order the maps are ranged over |
| LedgerState.State.RestoreSnapshot | ledger/snapshot.go:122-185 | the ledger becomes what the bytes stand for, or is left untouched |
| LedgerSnapshot.LedgerReads | ledger/snapshot.go:54-185 | decoding inverts encoding exactly, whatever bytes follow |
| LedgerSnapshot.LedgerPrefixRefused | ledger/snapshot.go:219-266 | every strict prefix of a snapshot is refused |
| SnapshotIO.Reader.String | ledger/snapshot.go:238-253 | the latching reader returns the string present or latches an error, and nothing after an error |
| SnapshotIO.Reader.U64 | ledger/snapshot.go:225-236 | the latching reader's word |
| SnapshotIO.WriteMap | ledger/snapshot.go:61-93 | a map section has one encoding |
| SortedKeys.Collect | ledger/snapshot.go:268-284 | collecting in any order and sorting gives the one sorted sequence of the keys |
| SortedKeys.SortedUnique | ledger/snapshot.go:41-45 | a set of keys sorts to one sequence only |
| CommandCodec.LedgerRoundTrip | ledger/codec.go:26-103 | a ledger command survives encoding if and only if its three strings are shorter than 65536 |
| CommandCodec.OldRecord | ledger/codec.go:87-100 | a record without the trailing timestamp decodes to the same command unstamped |
| CommandCodec.ShardRoundTrip | shard/twopc.go:132-205 | a shard command with its nested ledger command survives encoding if and only if every length is below 65536 |
| CommandCodec.Encode | shard/twopc.go:132-155 | the encoding loop produces exactly the format |
| CommandCodec.Decode | shard/twopc.go:158-205 | the decoding loop reads it or refuses |
| ShardMachine.ReservationsExact | shard/machine.go:106-241 | for every command sequence a reservation exists exactly for a prepared debit, with its account and amount |
| ShardMachine.HistoryOnce | shard/machine.go:106-241 | for every command sequence no key is recorded twice |
| ShardMachine.MachineRunsOk | shard/machine.go:75-241 | legs are posted only by their transaction's own commit, on every reachable machine |
| ShardMachine.TerminalFinal | shard/machine.go:215-223 | committed and aborted phases never change, whatever is applied afterwards |
| ShardMachine.UnpreparedOutcome | shard/machine.go:174-182 | a commit on a decision-only record moves money exactly if it is a credit record whose account can take it |
| ShardMachine.UnpreparedCredit | shard/machine.go:174-235 | so a decision and an outcome with no prepare credit an account |
| ShardState.Machine.ApplySingle | shard/machine.go:82-85 | a ledger command and its recorded result |
| ShardState.Machine.ApplyPrepare | shard/machine.go:106-158 | single-use ids, duplicate prepares, and the durable vote either way |
| ShardState.Machine.ApplyDecision | shard/machine.go:169-192 | the decision is written into the record, earlier decisions included |
| ShardState.Machine.ApplyOutcome | shard/machine.go:198-241 | the outcome settles the leg once and refuses unknown transactions |
| ShardState.Machine.ApplyEntry | shard/machine.go:55-99 | a log entry is decoded, applied and its result filed under its index |
| ShardState.Machine.InDoubt | shard/machine.go:278-289 | exactly the prepared transactions, each once |
| ShardState.Machine.Snapshot | shard/snapshot.go:43-96 | equal machines give equal bytes |
| ShardState.Machine.RestoreSnapshot | shard/snapshot.go:99-155 | all or nothing, with byIndex starting over |
| ShardSnapshot.ShardReads | shard/snapshot.go:43-155 | restoring gives the machine back but for byIndex and the timestamps of recorded commands |
| ShardSnapshot.ShardPrefixRefused | shard/snapshot.go:178-240 | every strict prefix of a shard snapshot is refused |
| ShardSnapshot.CommandAlike | shard/machine.go:75-241 | machines that differ only in timestamps give the same result on any command and stay alike |
| ShardSnapshot.RestoredIndistinguishable | shard/snapshot.go:12-40 | after a restore any further command sequence gives the original's results, balances, reservations, phases and decisions |
| TwoPhase.DriveOk | shard/coordinator.go:190-319 | whatever becomes of a proposal, the next step of the call keeps the transfer's two records in agreement |
| TwoPhase.LateDebit | shard/coordinator.go:305-311 | so does a late prepare or outcome on the debit shard |
| TwoPhase.LateCredit | shard/coordinator.go:312-317 | and on the credit shard |
| TwoPhaseRuns.RunOk | shard/coordinator.go:190-450 | the invariant of every transfer holds at every moment of every interleaving of transfers, stops and recoveries: its loose form whatever replicas recovery asks, the full one if each shows the current decision |
| TwoPhaseRuns.Atomicity | shard/coordinator.go:190-450 | if each inquiry is answered with the current decision, no transfer is committed on one shard and aborted on the other |
| TwoPhaseHeadroom.AtomicForever | shard/coordinator.go:190-450 | not even at two different moments |
| TwoPhaseRuns.InquiryLate | shard/coordinator.go:383-437 | what recovery proposes for a stopped transfer on a current view is what its coordinator stands for, for good |
| TwoPhaseViews.CaughtUpFresh | shard/coordinator.go:328-337 | if each inquiry reads a machine the coordinator group had after the call stopped, each is answered with the current decision |
| TwoPhaseViews.CommitStays | shard/coordinator.go:289-301 | a logged commit is never taken back, so an earlier machine never shows one its group has not logged |
| TwoPhaseViews.InquiryExactly | shard/coordinator.go:408-423 | no continuation splits the transfer if and only if the replica asked shows the current decision |
| TwoPhaseViews.StaleInquiryArises | shard/coordinator.go:372-417 | from any transfer whose votes are in, an acknowledged commit and a stopped call leave room for an inquiry that does not see it |
| TwoPhaseViews.StaleInquirySplits | shard/coordinator.go:408-433 | such an inquiry aborts the credit of a transfer whose debit then commits |
| TwoPhaseAccounting.ExactAccounting | shard/machine.go:198-241 | at every moment all balances plus money in transit equal opens plus deposits minus withdrawals |
| TwoPhaseAccounting.CommandOwed | shard/machine.go:198-241 | a command changes its shard's total by exactly what it books for its transaction |
| TwoPhaseHeadroom.ConservedByPhases | shard/coordinator.go:288-319 | with room on credit targets, money in transit is what the phases say: debited and not yet credited, minus the reverse |
| TwoPhaseHeadroom.SettledConserved | ledger/reserve.go:30-32 | once nothing is prepared, and recovery was answered with current decisions, the balances alone add up |
| TwoPhaseHeadroom.LandsExactly | ledger/reserve.go:192-197 | a prepared credit lands on commit if and only if its account has room |
| TwoPhaseHeadroom.EarlyRecoverySplits | shard/coordinator.go:417-423 | recovery that does not wait for the coordinator to stop can split a transfer |
| TwoPhaseHeadroom.LateDecisionSplits | shard/machine.go:183-184 | so it can from the debit side, whose abort the call's decision then overwrites |
| TwoPhaseHeadroom.PendingDecisionSplits | shard/coordinator.go:417-423 | even once the call has stopped, a decision still pending when the credit group asks can split a transfer |
| TwoPhaseReach.VotesComeIn | shard/coordinator.go:190-260 | every plan between two shards has a run, from empty shards, that collects both votes and is about to log the commit |
| TwoPhaseRecovery.ResolveStep | shard/coordinator.go:383-437 | settling one record by whatever replica answers changes that record, as the answer says, and no other |
| TwoPhaseRecovery.SameVerdict | shard/coordinator.go:408-423 | nothing a pass settles changes what any coordinator group stands for |
| TwoPhaseRecovery.OrderIrrelevant | shard/coordinator.go:348-450 | if lagging replicas show what their groups stand for, two passes in any two orders settle the same and leave every record the same |
| TwoPhaseRecovery.OrderMatters | shard/coordinator.go:348-450 | if one does not, a record comes out differently as its own group or the coordinator's is visited first |
| TwoPhaseRecovery.NilMeansSettled | shard/coordinator.go:425-447 | a pass without error has settled everything on the groups it leads if and only if no proposal met a group just lost |
| TwoPhaseRecovery.PassSettlesAll | shard/coordinator.go:348-450 | when all groups are led and all proposals apply, nothing stays prepared and nothing is reported blocked |
| TwoPhaseRecovery.RunsRecoverable | shard/coordinator.go:396-415 | in every state of every run each stuck record names one reachable coordinator |
| Coordinator.Coordinator.TwoPhase | shard/coordinator.go:190-286 | the machines after the call are those of the protocol's proposals in turn; the call reports done or in doubt exactly if both votes were heard, done exactly if the decision and outcomes got through as well, and a result that is OK exactly if done |
| Coordinator.Coordinator.Decide | shard/coordinator.go:289-319 | the decision first, then both outcomes, and which failures are reported |
| Coordinator.Coordinator.Single | shard/coordinator.go:161-184 | one proposal on one shard, and which of done, not led, no group and in doubt its caller learns |
| Coordinator.Coordinator.Transfer | shard/coordinator.go:129-158 | opens and deposits run on the shard that owns the credited account, withdrawals and transfers within a shard on the one that owns the debited account, and all else as the protocol between the owners of both; no other shard changes |
| Payments.AnsweredPaid | shard/coordinator.go:116-158 | any command served for the first time and answered throughout is accepted exactly under plain conditions on balances, reservations and room; then every account changes by exactly what it should, on its owner's shard and nowhere else, and otherwise no balance changes; no reservation is left behind |
| Coordinator.Coordinator.CatchUp | shard/coordinator.go:328-337 | the catch-up no-op changes no machine; what its being applied shows is Replicas.CatchUpShows |
| Coordinator.Coordinator.RecoverInDoubt | shard/coordinator.go:348-450 | on the machines of any reachable state, in the order the groups were visited, exactly the stuck records whose coordinator answered and whose proposal took effect are settled, each as the replica asked shows; the count is of proposals that returned no error, and the error is nil exactly if nothing the pass can see stood in the way |
| Coordinator.DecidedExactly | shard/coordinator.go:271-286 | a commit decision exists after the call if and only if both votes were heard and its proposal took effect |
| Coordinator.CallIsDrives | shard/coordinator.go:190-319 | what the object does in a transfer is a run of protocol steps |
| Coordinator.PassIsRun | shard/coordinator.go:348-450 | what it does in a recovery pass is a run of inquiries and deliveries |
| Transfers.VotesExactly | ledger/reserve.go:86-139 | a participant votes yes exactly if it can pay, out of what other transfers have not reserved, or has the account to credit |
| Transfers.TransferMoves | shard/coordinator.go:190-319 | a payable transfer whose proposals are all answered moves exactly its amount between the two accounts, leaves no hold and touches no other shard; a full credit account takes nothing |
| Transfers.PrepareExactly | shard/machine.go:106-165 | a prepare is answered yes if and only if the promise stands already, or is new and can be kept; a new one records the vote, and holds the money of a debit |
| Transfers.OutcomeSettles | shard/machine.go:198-241 | an outcome settles a prepared record for good: the debit takes or releases exactly what is held, the credit arrives if it fits |
| Transfers.AbortReleases | shard/coordinator.go:239-286 | a promised debit whose credit vote was no or not heard holds nothing once the abort is logged and told to its shard, whatever became of the other proposals |
| Transfers.TransferRefused | shard/coordinator.go:229-269 | one that is not payable leaves both ledgers exactly as they were, the reservation included |
| Ring.Search | shard/ring.go:131-132 | the binary search splits the points at the hash |
| Ring.Lookup | shard/ring.go:125-137 | the owner is the shard of the least point at or past the hash, wrapping round |
| Ring.OwnerFirst | shard/ring.go:124-137 | that is the first point clockwise, the earliest of several at one place |
| Ring.Segments | shard/ring.go:93-111 | one arc per point, ending at it |
| Ring.SegmentsAgree | shard/ring.go:88-111 | an arc covers a hash if and only if Lookup finds the arc's end point for it, which is then the first clockwise; a point that repeats the place of the one before gets an arc that covers nothing |
| Ring.SegmentBoundary | shard/ring.go:76-92 | an arc contains its end and not its start |
| Ring.AddMovesOnlyToNew | shard/ring.go:4-7 | adding a shard moves a key only onto it |
| Ring.RemoveMovesOnlyOwned | shard/ring.go:4-7 | removing a shard moves only its keys |
| Ring.LookupMonotone | shard/ring.go:4-7 | between a ring and the ring with one shard more, a key not sent to that shard has the same owner in both |
| Ring.GrownRing | shard/ring.go:55-62 | a ring with one shard more has that shard's points more and no others |
| Ring.NewRing | shard/ring.go:49-67 | the points are exactly the virtual nodes of the listed shards, each as often as made, in hash order |
| Ring.DigitsRead | shard/ring.go:58 | a virtual node is numbered by its decimal numeral, which reads back as the number and has no leading zero |
| Ring.NamesDiffer | shard/ring.go:58 | no two virtual nodes have the same name, whatever the shard ids are made of |
| Ring.RingFull | shard/ring.go:49-67 | if the hash tells the names apart, a ring of distinct shards has one place for each of their virtual nodes, none shared |
| Ring.RingCanonical | shard/ring.go:63-66 | if no two shards collide the ring does not depend on the order of the shards |

## Left out

- Terms, indices and sequence numbers are unbounded naturals in the protocol models; only the byte formats bound them.
- Membership changes in the cluster model: the step protocol has a fixed membership, and adopting configurations from the log on append or restore is not modelled.
- raft/read.go: read-index and linearizable reads are not modelled.
- Timers, randomised timeouts, health bias and leader priority: an election may start at any time, and recent leader contact is an input.
- Apply waiters, error counters, metrics and the notification of removed leaders are not modelled.
- Storage: a save is atomic and durable, a load returns the last save; a failed marker save is modelled, and a failed state save in ChangeConfiguration. Elsewhere a failed state save stops the server in the source, or is counted in InstallSnapshot and MaybeCompact, and is not modelled.
- InstallSnapshot: a crash between its two saves is not a move of the cluster model, which it would leave with a log ahead of its term; RaftRecovery.CrashDuringInstall covers it for one server. When a leader chooses to send a snapshot is left open.
- MaybeCompact: its two locked sections are one step with named crash points; another handler running between them is not modelled.
- The transport, TLS, HTTP API, admission control, node wiring, command-line tools, dashboard and simulation harness.
- Hybrid logical clocks: timestamps are opaque inputs.
- Formatted error texts: refusals carry the fixed part of their message, not the interpolated ids and amounts.
- ledger.Machine: the unsharded adapter around the ledger is not modelled; the shard machine is.
- Restored: a restore is of a snapshot whose lengths fit in 64 bits, as `ShardSnapshot.ShardReads` needs.
- PhaseOf: a phase number above 3 in a snapshot reads as unknown, where the source keeps the number.
- DecodeLedger and DecodeDurable: nothing is proved about refusing truncated records, which the source's reader does not promise.
- Distribution, String and the other display helpers of the ring.
