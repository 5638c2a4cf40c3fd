# A verified model of raft-io

raft-io is a Raft engine without I/O: `RaftNode::step` takes one event, changes the node and returns
actions. This project models the node, its log store and its durable log in Dafny, and proves what
the protocol promises about them, for every run.

## How it is built

**The node.** `RaftNode.dfy` is `src/node.rs` as a class: the same fields, the same methods, changed
in place, over a `MemoryLog`. Each method is proved to do exactly what the function of the same name
in `Protocol.dfy` says, to the whole state and to the list of actions; `Step` is the whole node.
Everything else is proved about those functions, so it holds of the class.

**The log.** `Log.dfy` holds the store: `Log`, its state as a value, and the class `MemoryLog`, whose
methods follow `Log`. Both are shown to refine a map from index to entry.

**Clusters.** `Cluster.dfy` composes nodes with a network that may lose, delay, reorder and repeat
packets, each delivered only to its destination. A move is one node handling one event, or one node
crashing and restarting from its log store alone. Runs start from empty logs and term 0, and the
voter set is fixed: all events but AddServer and RemoveServer may occur. `Safety.dfy` and
`Commitment.dfy` state the results about runs; `SmallestRun.dfy` gives one in which a command is applied,
and `MovedBack.dfy` one of three servers.

**What each event does.** `Elections.dfy`, `Replication.dfy` and `HandOver.dfy` state over the whole step what
a node sends, answers and becomes: who is asked, exactly when the answers are enough, what a follower covers,
how a row moves, what a proposal reaches. Majorities there are sets of servers, and logs are read by index.

The argument runs over a *ledger* (`Ledger.dfy`): what no single node keeps, such as every node's
uncompacted log, every vote ever cast, the log each candidate campaigned with, each term's leader log,
everything ever acknowledged, every commit and every snapshot taken. The ledger moves in eight small ways, and
`LedgerSteps.dfy` shows that each keeps its invariant. `NodeInvariant.dfy` says how a node and a packet
fit the ledger: a node's log is a window (a boundary term and everything above it) onto its
uncompacted log, and a leader's match points are acknowledgements that really happened.
`LeaderSteps.dfy`, `ElectionSteps.dfy`, `FollowerMerge.dfy`, `FollowerSteps.dfy` and `HandlerSteps.dfy`
show that every handler moves the ledger only in those ways. The ledger is a proof device:
the results about runs do not mention it.

What makes this more than textbook Raft is compaction. A follower acknowledges a prefix it can no
longer check, replies to snapshots count as progress, and the applied index may run ahead of the commit
index. The key invariant is therefore not about indices but about coverage: the part of a log that a
node takes for committed agrees with the log of some term up to a length that a majority acknowledged
in that term.

**One node on its own.** `Bookkeeping.dfy`, `NodeSteps.dfy` and `NodeRuns.dfy` make no assumption about
packets or other nodes: forged, stale and duplicated messages and membership changes are all included. A
batch that the log store refuses fails the step; such a failure is fatal to the node, so what may follow it
is a restart, and what the node is like in between is stated. They prove the durable term and vote, the membership cache, the progress table, the order of what is
applied, and that pre-vote disturbs nothing. `MembershipRuns.dfy` adds what changes of the membership promise:
one at a time, and a leader that commits its own removal leads no longer.

**Backing up.** `Backtracking.dfy` follows the two nodes' own steps through the reject-and-retry exchange and
bounds it by the follower's terms.

**Durability.** `RecordCodec.dfy` is the record format, and `WalLog.dfy` the durable log: a sequence of
records with an index that mirrors it, reopened by replay.

## Where the code and its documents differ

The code was followed; the difference is stated as a result.

- Section 5 of `docs/PROTOCOL.md` (lines 225-228) has a follower install a snapshot only if it advances
  the follower, and never move its state backwards. The code compares the snapshot with the boundary and
  the commit index, and a late append can lower the commit index. `SnapshotOrder.AppendLowersCommit` and
  `SnapshotOrder.SnapshotMovesBack` give the exact conditions, `MovedBack.SnapshotCanMoveBack` a run of three
  servers in which it happens.
  State Machine Safety is not affected; the order of what is applied is claimed only between restores.
- Section 9 of `docs/PROTOCOL.md` calls dropping the records before a snapshot an optimisation whose
  omission does not matter. Performing it does matter when the snapshot leaves a tail, because the tail's
  records lie before the snapshot's: `WalStore.ReplayFromSnapshot` says exactly when, and
  `WalStore.TailNeedsEarlierRecords` what then happens.
- A snapshot without a configuration leaves a running node its membership, but a restart falls back on the
  configured peers: `NodeRuns.RestartRecoversVoters` says exactly when the two agree.

## Model

| member | source | states |
|---|---|---|
| Safety.StateMachineSafety | src/node.rs:853-926 | in every run, two Apply actions at one index, by any nodes in any incarnations, carry the same term and command |
| Safety.RestoresAreApplied | src/node.rs:1367-1385 | a snapshot that any node restores ends at the entry every node applies at that index, and its data is what some node captured there, having applied through it |
| Safety.RestoresAreTaken | src/node.rs:955-979 | a restored index, term and data are exactly those of an earlier TakeSnapshot at some node that had committed and applied through the index and had that term there |
| Safety.ElectionSafety | src/node.rs:1070-1115 | no two nodes are ever leader in the same term, compared across any two states of a run |
| Safety.OneVotePerTerm | src/node.rs:1070-1097 | a node's granted vote replies in a term, however often and through whatever crashes, all go to one candidate |
| Safety.VotesAreDurable | src/node.rs:1085-1097 | from the moment a granted vote is sent, the voter's stored hard state records it or is of a later term, through every crash |
| Safety.LogMatching | src/node.rs:1215-1295 | logs of any nodes at any times with the same term at an index agree on everything at or below it that both can still answer for |
| Safety.TermRunsAlign | src/node.rs:1454-1475 | if one log has a term at an index and another has that term further on, the other has it at that index too, where it can answer |
| Safety.LeaderCompletes | src/node.rs:853-883 | what any node knows committed or has applied in its term is in the log, or under the snapshot, of every leader of a later term, and agrees with leaders of its own |
| Safety.LeaderAppendOnly | src/node.rs:1188-1193 | while a node leads a term its log only grows and every earlier read of it still answers the same |
| Safety.ProgressIsReal | src/node.rs:1297-1428 | a follower still in the leader's term holds the leader's log through the recorded match index, whether it acknowledged a batch, a compacted prefix or a snapshot |
| Safety.CompactionBehind | src/node.rs:955-979 | the snapshot boundary never passes the commit or applied index, both lie within the log, and each slot holds its own index |
| Safety.BoundaryHasSnapshot | src/node.rs:810-824 | a node whose log has been compacted holds the snapshot that ends at its boundary, so a leader always has one to send |
| Safety.CommittedIsKept | src/node.rs:1363-1376 | through truncations, snapshots and restarts a node never loses or changes an entry it knows committed or has applied |
| Safety.OnlyProposalsFail | src/node.rs:1281-1294 | in a run no step hits the log's contiguity or truncation error; the only failing step is a proposal to a node that cannot take it |
| Commitment.NothingMoreToCommit | src/node.rs:853-883 | in every state of a run, the leader and the followers whose rows reach an entry of its own term above its commit index are no majority of the servers |
| Commitment.CommitIsHeldByMajority | src/node.rs:864-887 | a leader's raised commit index is an entry of its own term, and each member of a majority has held the leader's whole log through it, in some state of the run so far, while in the leader's term |
| SmallestRun.SomethingHappens | src/node.rs:1629-1641 | there is a run in which a node elects itself and applies a proposed command, so the results about runs are not about nothing |
| HandlerSteps.StepOk | src/node.rs:601-611 | any event handled by a node that fits the ledger leaves a node and packets that fit a grown ledger whose invariant holds |
| Cluster.NextOk | src/node.rs:601-611 | every cluster move, of any node, keeps every node and every packet in flight fitted to the ledger |
| Cluster.RestartOk | src/node.rs:332-391 | a node restarted from its log alone still fits: same term and vote, same log, indices at its boundary |
| Ledger.LeaderCompleteness | src/node.rs:853-883 | a commit counted in one term is in the log every later leader started from |
| Ledger.CommitsAgree | src/node.rs:864-887 | any two commits, counted in any two terms, agree as far as both reach |
| LeaderSteps.QuorumHolds | src/node.rs:862-875 | a replica count that reaches the quorum is a majority of distinct servers that each acknowledged that much in the leader's term |
| LedgerSteps.WinIsComplete | src/node.rs:1099-1103 | the up-to-date check and single votes make a newly elected leader's log hold everything an earlier term may have committed |
| Backtracking.ExchangeIsRetry | src/node.rs:1218-1232 | when the leader's packet is not answered for good, the follower's step rejects it with its log untouched, the leader's step sends the packet for the retried index and nothing else, and the exchange is again in a state to go on from |
| Backtracking.ExchangeIsFinal | src/node.rs:1200-1259 | otherwise the packet is a snapshot, or the follower's step succeeds and ends with a reply of success |
| Backtracking.RejectionTaken | src/node.rs:1322-1332 | a rejection of the leader's term sets the row to the retried index, puts it back to probing, and sends that row its packet at once and nothing else |
| Backtracking.RetryBacksOff | src/node.rs:1435-1450 | each retry lies strictly between the match point and the last try, and either is answered or has left the follower's conflicting term |
| Backtracking.BacktrackingBound | src/node.rs:1435-1475 | between compatible logs the steps of the two nodes conclude the exchange after at most one rejection more than there are distinct terms in the follower's log |
| Backtracking.BoundDrops | src/node.rs:1435-1475 | every rejection leaves behind a term of the follower's log, or comes back from beyond its end, or is the last |
| Backtracking.BackingUpConverges | src/node.rs:1297-1335 | the same for every leader, every row and every follower not past its term in every state of a run, from the leader's next packet through real steps to an accepted append or a snapshot |
| Protocol.RejectedNext | src/node.rs:1435-1450 | the clamp's bounds are in order; the retry never drops to the match index and strictly drops while above the index after it |
| Backtracking.RetryKeepsHintedTerm | src/node.rs:1443-1449 | a hint with a term passes over none of the leader's own entries of that term between the match point and the last try |
| Backtracking.RetryFollowsHintedTerm | src/node.rs:1443-1449 | and goes no further: between those bounds the entry before the retry is the leader's last of that term |
| Backtracking.RetryTakesHintedIndex | src/node.rs:1442-1450 | a hint whose term the leader lacks takes it to the hinted index, between the match point and the last try |
| Backtracking.RetryKeepsAgreement | src/node.rs:1435-1475 | between compatible logs a retry never backs past an index where the two already agree |
| Backtracking.BackingUpKeepsAgreement | src/node.rs:1435-1475 | the same in every state of a run, for every index the leader may try next |
| Protocol.LastIndexOfTerm | src/node.rs:1464-1475 | an index found is within the log and has the term |
| FollowerMerge.MergeShape | src/node.rs:1274-1295 | the exact log after merging a batch: entries matched by term are skipped and the rest of the log is replaced by the rest of the batch |
| FollowerMerge.MergeSound | src/node.rs:1274-1295 | a contiguous batch from a matching point never fails, and the log then has the batch's terms through its last index |
| FollowerMerge.MergeKeeps | src/node.rs:1278-1287 | every entry before the first conflict is kept, and every entry if there is none |
| FollowerMerge.MergeTruncates | src/node.rs:1278-1287 | truncation happens exactly on a conflict; a log that merely extends past an older batch is not shortened |
| NodeSteps.StepIsKept | src/node.rs:601-611 | every event leaves the hard state stored, the membership cache right, the progress table listed, the boundary behind, and what is applied exact |
| NodeRuns.TermAndVoteStand | src/node.rs:1051-1068 | at all times the stored hard state is the term and vote; the term never falls and a vote never changes within a term, across restarts |
| NodeRuns.MembershipCached | src/node.rs:510-541 | the cached voters and index are those of the latest live configuration entry, or else the base configuration with index 0, after every turn that was not refused |
| NodeRuns.RefusalStale | src/node.rs:1281-1294 | after a batch the log store refuses, and until the restart, the cache is stale exactly when the truncation took away the entry it was read from |
| NodeRuns.CompactionKeepsVoters | src/node.rs:955-979 | taking a snapshot locally never changes the voters |
| NodeRuns.CompactionKeepsReads | src/node.rs:955-979 | taking a snapshot locally keeps every entry above the boundary, the boundary's term and the last index |
| NodeRuns.RestartRecoversVoters | src/node.rs:332-361 | a restart recovers the same voters unless the membership rests on a snapshot that carries none; then it has the configured peers |
| NodeRuns.ProgressTable | src/node.rs:545-563 | while leading, the table has a row for exactly the other voters, each matched below its next index |
| NodeRuns.LeaderCommitRises | src/node.rs:884-886 | a step that leaves a node leading never lowers its commit index |
| NodeRuns.CommittedIsApplied | src/node.rs:909-926 | when a turn ends, everything known to be committed has been applied, and compaction is behind both |
| NodeRuns.HintsKeepUp | src/node.rs:930-945 | when a turn ends with the applied log past the threshold, a snapshot has been hinted at, at the applied index or beyond |
| NodeRuns.HintIsSent | src/node.rs:930-945 | a hint is sent, and recorded, exactly when the applied index is past the threshold and the last hint and has a term |
| NodeRuns.RestartResumes | src/node.rs:332-391 | a restart resumes as a follower in the stored term, with the stored vote, at the boundary |
| NodeRuns.AppliesExactly | src/node.rs:909-926 | a turn applies exactly the log's commands between the old and new applied index; the indices passed over hold configurations |
| NodeRuns.AppliesInOrder | src/node.rs:909-926 | within one turn applied indices strictly increase |
| NodeRuns.AppliesAscend | src/node.rs:909-926 | across turns, between restarts and restores, applied indices strictly increase, and after a restore they resume above the snapshot |
| NodeRuns.TurnDelivers | src/node.rs:1367-1385 | a turn delivers either exactly one restore, at the new applied index, or the log's commands from the old applied index on |
| NodeRuns.PreVoteDisturbsNothing | src/node.rs:1117-1163 | any number of ticks, pre-vote requests and replies of no higher term, whose granters are not more than half of the voters, leaves term, vote and log untouched |
| NodeRuns.SingleServerChangesOverlap | src/node.rs:1486-1527 | for every accepted AddServer or RemoveServer and any voter set, every majority before meets every majority after |
| NodeRuns.ChangedMembersAre | src/node.rs:1501-1511 | the members after a change are the old ones with the one server added or removed, in ascending order |
| NodeSteps.AdoptVoters | src/node.rs:1516-1528 | a changed membership is appended without failure and in force when the step returns |
| MembershipRuns.OneChangeAtATime | src/node.rs:1491-1499 | over any life, while a leader's log holds a configuration above its commit index every change ends in an error and leaves the node as it was |
| MembershipRuns.ChangeIsTaken | src/node.rs:1501-1529 | otherwise a leader not handing over takes it: the members are exactly changed, in force at once, and recorded by the next entry unless nothing changed |
| MembershipRuns.ChangeNeedsLeader | src/node.rs:1491-1495 | a node that does not lead, or is handing over, refuses and is as it was |
| MembershipRuns.ChangeIsAnnounced | src/node.rs:510-522 | a change of the members is announced |
| MembershipRuns.ChangeReaches | src/node.rs:1524-1527 | a change that is taken is sent at once to every other member |
| MembershipRuns.RemovedLeaderStepsDown | src/node.rs:886-893 | over any life, a turn that raises the commit index and leaves a node leading leaves it a voter, or with no live configuration, or with one not yet committed |
| MembershipRuns.LeaderStopsOnOwnRemoval | src/node.rs:886-893 | a proposal or a reply of its own term makes a leader stop leading only by committing its removal |
| MembershipRuns.AdvanceCommitsGreatest | src/node.rs:853-886 | whatever the membership, advancing commits the greatest entry of the leader's term that more than half of the voters hold, or nothing |
| MembershipRuns.CommitCountsVoters | src/node.rs:855-875 | over any life, a raised commit index is an entry of the leader's term that more than half of its voters hold; a leader that is no voter does not count |
| NodeSteps.CompactionKeepsConfig | src/node.rs:983-994 | the configuration scanned after compaction, over the one recorded in the snapshot, is the one in force before |
| NodeSteps.StepSettled | src/node.rs:853-887 | whatever the event, a leader that had committed all it could count has done so again |
| SnapshotOrder.AppendMovesIndices | src/node.rs:1200-1255 | an accepted append that claims more moves the commit index to what claim and append both cover and applies up to it; nothing else moves either index |
| SnapshotOrder.AppendLowersCommit | src/node.rs:1200-1253 | an append lowers the commit index exactly when it is accepted, claims more committed and covers less |
| Elections.TimeoutOpensRound | src/node.rs:615-681 | only a voter whose timeout has passed acts on a tick: it asks every other voter, at the next term and with its log's end, and changes neither term nor vote |
| Elections.PreVoteAnswered | src/node.rs:1123-1137 | nothing changes, and the grant is given exactly when no leader was heard lately, the term is not behind and the log is as recent |
| Elections.StickyNodeIgnoresRequest | src/node.rs:998-1009 | a node that heard its leader within the minimum timeout takes no notice of an unforced vote request of whatever term |
| Elections.VoteAnswered | src/node.rs:1070-1097 | any other request, and so every forced one, is answered in the later term; the vote is granted exactly when the term, the vote so far and the log allow, and is stored |
| Elections.PreVoteCounts | src/node.rs:1143-1163 | a pre-voting node stands, in the step that counts the reply, exactly when its granters are more than half of the voters |
| Elections.PreVoteReplyOtherwise | src/node.rs:1148-1155 | a later term ends the round and is adopted; refusals, repeats and replies outside a round change nothing |
| Elections.VoteCounts | src/node.rs:1105-1115 | a candidate takes office, and tells every other voter, in the step that counts the vote, exactly when its granters are more than half of the voters |
| Elections.VoteCountsNot | src/node.rs:1105-1110 | a vote outside a candidacy, of another term, refused or repeated changes nothing |
| Elections.ElectionHeld | src/node.rs:683-724 | standing takes the next term and the node's own vote, asks every other voter with its log's end, and wins at once where there is none |
| Elections.SignalStartsForcedElection | src/node.rs:1574-1581 | a voter the signal finds in its term or brings there stands at once with forced requests; any other node at most adopts the term |
| Replication.AppendAnswered | src/node.rs:1165-1263 | an accepted append is acknowledged through what it covers, and the commit and applied indices move exactly as claimed and covered |
| Replication.MismatchAnswered | src/node.rs:1215-1236 | a mismatch is rejected with the end of the log, or with the first index of the run of the conflicting term; log and indices stay |
| Replication.StaleAppendAnswered | src/node.rs:1180-1186 | a stale leader is told the term and nothing changes |
| Replication.SnapshotAnswered | src/node.rs:1338-1403 | a newer snapshot becomes the boundary and is handed over, any other changes neither log nor indices, and the answer always covers the snapshot's index |
| Replication.StaleSnapshotAnswered | src/node.rs:1343-1353 | a stale leader's snapshot is answered with the term and changes nothing |
| Replication.SnapshotEventTakes | src/node.rs:955-979 | a snapshot at a committed and applied index above the boundary becomes the boundary, with the data given and the membership of the latest configuration at or below it; any other is ignored |
| Replication.BatchIsBounded | src/node.rs:780-790 | a batch is the stretch of the log from the next index, as long as there is, up to the limit |
| Replication.SendMovesRow | src/node.rs:767-824 | a streaming row counts on what it was sent, a row sent a snapshot goes back to probing, and nothing else changes |
| Replication.ReplicateReaches | src/node.rs:746-761 | sending to all, or to the streaming rows, sends each of them the packet for its next index and nothing else |
| Replication.HeartbeatReaches | src/node.rs:628-635 | when a heartbeat is due every row is sent its packet, and until then only time passes |
| Replication.ProposalReaches | src/node.rs:826-843 | a leader not handing over appends the command in its term and sends every streaming row its packet; any other node refuses |
| HandOver.AcknowledgementTaken | src/node.rs:1297-1332 | an acknowledgement of its own term moves the follower's row, and only it, to where it streams from next, sends what follows, and sends a waiting signal |
| HandOver.AcknowledgementIgnored | src/node.rs:1298-1303 | replies of an earlier term, from a server without a row or to a node that does not lead change nothing |
| HandOver.SnapshotMovesRow | src/node.rs:1389-1428 | a snapshot that a follower has handled moves the leader's row to its index or beyond |
| HandOver.SignalMeansCaughtUp | src/node.rs:1553-1571 | whatever the event, the hand-over signal is sent only by a leader and only to a server whose row has reached its last index |
| HandOver.SignalGoesToWholeLog | src/node.rs:1553-1571 | in any run, the signal's target, if still in the leader's term, holds the leader's whole log |
| HandOver.TransferStarts | src/node.rs:1534-1549 | only a leader hands over, to another voter: at once if it has caught up, and otherwise it is sent its packet and the hand-over stays pending |
| SnapshotOrder.SnapshotMovesBack | src/node.rs:1363-1376 | a snapshot moves the applied index back exactly when its index is above the boundary and commit index and below the applied index |
| MovedBack.SnapshotCanMoveBack | src/node.rs:1363-1376 | there is a run of three servers at whose last move a node handles a snapshot and its applied index falls |
| LogStore.AppendRefinesMap | src/log.rs:324-349 | append is refused exactly on a gap, overlap or break; otherwise it adds exactly the batch, each entry at its own index |
| LogStore.TruncateRefinesMap | src/log.rs:351-364 | truncation removes exactly the indices from the given one on, and refuses only to cut into the snapshot |
| LogStore.ApplySnapshotRefinesMap | src/log.rs:397-415 | a snapshot keeps exactly the entries above it, and only if the log agrees at its boundary; a stale one changes nothing |
| LogStore.ReadsRefineMap | src/log.rs:297-306 | reads answer from the map, and the boundary still has a term |
| LogStore.EntriesGrow | src/log.rs:308-322 | widening a bulk read by one index adds exactly what reading that index returns |
| LogStore.MemoryLog.EntriesByDefault | src/log.rs:78-92 | the trait's one-by-one loop returns what the bulk slice does, for all ranges |
| LogStore.MemoryLog.Append | src/log.rs:324-349 | the store after an append, accepted or refused, in place |
| LogStore.MemoryLog.Truncate | src/log.rs:351-364 | the store after a truncation, accepted or refused, in place |
| LogStore.MemoryLog.SetHardState | src/log.rs:371-374 | only the hard state changes |
| LogStore.MemoryLog.ApplySnapshot | src/log.rs:397-415 | the store after a snapshot is installed, in place |
| Types.EncodeMembers | src/types.rs:189-195 | the loop writes each id as a little-endian 64-bit integer, in order |
| Types.MembersRoundTrip | src/types.rs:189-209 | a membership decodes from its encoding, whatever partial group of fewer than 8 bytes trails it |
| Types.MembersOnlyFromEncoding | src/types.rs:200-209 | bytes that decode to a membership are its encoding and a trailing partial group |
| Types.ConfigEntryMembers | src/types.rs:158-184 | a configuration entry carries the membership it was made from |
| Types.SortedMembersCorrect | src/node.rs:42-47 | the sorted membership is strictly ascending and has exactly the given ids |
| LittleEndian.U64RoundTrip | src/wal_log.rs:277-285 | writing and reading a 64-bit field are inverse in both directions |
| RecordCodec.EncodeEntry | src/wal_log.rs:241-250 | what it writes is the entry record, and decodes to the entry |
| RecordCodec.EncodeHardState | src/wal_log.rs:252-267 | what it writes is the hard-state record, with the vote's flag, and decodes to the hard state |
| RecordCodec.EncodeTruncate | src/wal_log.rs:269-274 | what it writes is the truncation record, and decodes to the index |
| RecordCodec.EncodeSnapshot | src/wal_log.rs:206-219 | what it writes, members one by one, is the snapshot record, and decodes to the snapshot |
| RecordCodec.ReadU64 | src/wal_log.rs:277-285 | a read succeeds exactly when its eight bytes are in bounds |
| RecordCodec.Decode | src/wal_log.rs:287-369 | decoding arbitrary bytes never reads out of bounds and agrees with the record format |
| RecordCodec.DecodeSnapshot | src/wal_log.rs:328-363 | the offset that moves over the members reads exactly the snapshot's membership |
| RecordCodec.RecordRoundTrip | src/wal_log.rs:206-369 | decoding the encoding of any record with 64-bit fields returns it |
| RecordCodec.RecordOnlyFromEncoding | src/wal_log.rs:287-369 | bytes that decode to an entry or a snapshot are exactly its encoding; what a truncation or hard state ignores is stated |
| WalStore.ReplayMutation | src/wal_log.rs:131-194 | replaying what one mutation wrote does what the mutation did |
| WalStore.ReplayIsExact | src/wal_log.rs:77-93 | after any history of mutations replay from an empty index gives the live index, and every prefix of the records replays |
| WalStore.ReplayFromSnapshot | src/wal_log.rs:171-193 | from a snapshot record on, replay gives the live state exactly when the snapshot left no tail above it |
| WalStore.ReplayPastSnapshot | src/wal_log.rs:171-193 | if it left none, replay from it stays exact whatever follows |
| WalStore.TailNeedsEarlierRecords | src/wal_log.rs:187-191 | if it left one, the next entry appended cannot be replayed without the earlier records |
| WalStore.SnapshotsLeaveTails | src/wal_log.rs:171-193 | a store of two entries and a snapshot at the first is such a case |
| WalStore.WalLog.Open | src/wal_log.rs:77-93 | opening fails exactly where replay does, and otherwise gives an index in step with the records |
| WalStore.WalLog.Append | src/wal_log.rs:131-139 | a refused batch writes nothing; an accepted one writes a record for each entry; index and records stay in step |
| WalStore.WalLog.Truncate | src/wal_log.rs:141-144 | the index and its record, in step |
| WalStore.WalLog.SetHardState | src/wal_log.rs:151-154 | the index and its record, in step |
| WalStore.WalLog.ApplySnapshot | src/wal_log.rs:171-193 | a stale snapshot writes nothing; a newer one writes itself and then the hard state again; index and records in step |
| RaftNodes.RaftNode.WithLog | src/node.rs:332-391 | the node started over a log store takes its term and vote from it, its indices from the boundary and its membership from the log, the snapshot or the peers |
| RaftNodes.RaftNode.Step | src/node.rs:601-611 | any event leaves every field and the log as the specification says, and returns its actions in order, or its error |
| RaftNodes.RaftNode.Tick | src/node.rs:615-637 | a leader sends to every row at each heartbeat; another voter opens a pre-vote round when its timeout passes; a non-voter never does |
| RaftNodes.RaftNode.StartPreVote | src/node.rs:648-681 | every other voter is asked at the next term while term, vote and log stay; a lone voter campaigns at once |
| RaftNodes.RaftNode.StartElection | src/node.rs:683-724 | the term rises, the node votes for itself, both are stored, and every other voter is asked; a lone voter wins at once |
| RaftNodes.RaftNode.BecomeLeader | src/node.rs:726-741 | the table is rebuilt, every follower is sent to, and what counting allows is committed |
| RaftNodes.RaftNode.BecomeFollower | src/node.rs:1051-1068 | a later term is adopted and stored with no vote; votes, rows, pre-votes and a pending transfer are dropped |
| RaftNodes.RaftNode.SetConfig | src/node.rs:510-522 | the voters and their index change, a leader's table follows, and a change of membership is announced once |
| RaftNodes.RaftNode.RefreshConfig | src/node.rs:527-541 | the downward scan adopts the latest live configuration, or the base one |
| RaftNodes.RaftNode.RebuildProgress | src/node.rs:545-563 | the filter and map over the voters, keeping rows that remain |
| RaftNodes.RaftNode.ConfigAt | src/node.rs:983-994 | the configuration in effect at an index |
| RaftNodes.RaftNode.SendAppend | src/node.rs:767-806 | one append from the row's next index of at most the batch limit, whose entries a streaming row counts on at once, or the snapshot if that index is compacted away |
| RaftNodes.RaftNode.SendSnapshot | src/node.rs:810-824 | the stored snapshot, if there is one, is sent and the row goes back to probing |
| RaftNodes.RaftNode.ReplicateToAll | src/node.rs:746-750 | the loop over all rows |
| RaftNodes.RaftNode.ReplicateToStreaming | src/node.rs:755-761 | the loop over the rows in the Replicate state |
| RaftNodes.RaftNode.Propose | src/node.rs:826-843 | a leader not handing over appends the command in its term, streams it and commits what it can; any other node refuses and is unchanged |
| RaftNodes.RaftNode.AdvanceCommit | src/node.rs:853-895 | the scan down from the last index, the count for each candidate, and stepping down on its own removal |
| RaftNodes.RaftNode.DrainApplies | src/node.rs:909-926 | the loop that applies up to the commit index |
| RaftNodes.RaftNode.MaybeHintSnapshot | src/node.rs:930-945 | a hint at the applied index, with its term, only past the threshold and above the last hint |
| RaftNodes.RaftNode.HandleSnapshotEvent | src/node.rs:955-979 | out of range or stale it changes nothing; else the log is compacted with the configuration in effect at the index recorded |
| RaftNodes.RaftNode.HandleMessage | src/node.rs:997-1049 | an unforced vote request is ignored while a leader is active, pre-vote messages are handled before any term is adopted, and any other later term is adopted first |
| RaftNodes.RaftNode.HandleRequestVote | src/node.rs:1070-1097 | a vote is granted only in the current term, to one candidate, whose log is up to date, and is stored before the reply |
| RaftNodes.RaftNode.HandleVoteReply | src/node.rs:1105-1115 | a candidate counts each voter once in its own term and leads when a quorum is reached |
| RaftNodes.RaftNode.HandlePreVote | src/node.rs:1123-1137 | the reply says whether a vote would be granted, with stickiness, and nothing changes |
| RaftNodes.RaftNode.HandlePreVoteReply | src/node.rs:1143-1163 | a later term ends the round, each grant counts once, and a quorum starts the election |
| RaftNodes.RaftNode.HandleAppendEntries | src/node.rs:1165-1263 | a stale leader is told the term, a compacted prefix is acknowledged through the boundary, a mismatch is rejected with a hint, and the rest is merged |
| RaftNodes.RaftNode.AppendFromLeader | src/node.rs:1274-1295 | the loop that skips matches and stops at the first divergence |
| RaftNodes.RaftNode.HandleAppendReply | src/node.rs:1297-1335 | match only rises and sending goes on; a rejection backs up, goes back to probing and retries at once; stale replies change nothing |
| RaftNodes.RaftNode.HandleInstallSnapshot | src/node.rs:1338-1403 | a newer snapshot replaces log, indices and membership and is handed to the application; the reply says how far the node now agrees |
| RaftNodes.RaftNode.HandleInstallSnapshotReply | src/node.rs:1407-1428 | the row advances to the snapshot's index and sending goes on from the entry after its match |
| RaftNodes.RaftNode.RejectedNext | src/node.rs:1435-1450 | past the leader's last entry of the hinted term, or at the hinted index, between the match and the last try |
| RaftNodes.RaftNode.FirstIndexOfTerm | src/node.rs:1454-1460 | the loop down to the start of a term's run |
| RaftNodes.RaftNode.LastIndexOfTerm | src/node.rs:1464-1475 | the loop down from the last index, stopping early |
| RaftNodes.RaftNode.ChangeMembership | src/node.rs:1486-1529 | refused unless leading with the last change committed; a change of nothing does nothing; else the new membership is appended and adopted at once |
| RaftNodes.RaftNode.TransferTo | src/node.rs:1534-1549 | only a leader hands over, to another voter, at once if it has caught up and otherwise after sending it more |
| RaftNodes.RaftNode.MaybeSendTimeoutNow | src/node.rs:1553-1571 | the signal goes only to the pending target and only when its match reaches the last index, and ends the transfer |
| RaftNodes.RaftNode.HandleTimeoutNow | src/node.rs:1574-1581 | a voter not past the term starts a forced election, and any other node ignores the signal |

## Left out

- Cluster-wide safety across AddServer and RemoveServer: the gate at src/node.rs:1496-1499 asks only that
  the previous configuration be committed, and votes are counted without checking the voter set
  (src/node.rs:1109-1111). The per-node and overlap results include membership changes; cluster runs do not.
- Safety.ElectionSafety: stated for a fixed voter set, as are all results of `Safety`, `Commitment` and
  `Backtracking.BackingUpConverges`; see the line above.
- NodeRuns.AppliesAscend: order is claimed only between restarts and restores, because a snapshot can move
  the applied index back (`SnapshotOrder`).
- NodeRuns.LeaderCommitRises: not claimed of a follower, whose commit index a late append can lower.
- WalStore.ReplayIsExact: the write-ahead log `wal-db` is not part of this model; it is the sequence of
  records appended, and dropping earlier records is covered by the results about replay from a snapshot.
- RecordCodec.Decode: lengths are taken as 64-bit `usize`, so truncation on 32-bit targets is not
  modelled; the human-readable detail inside a storage error is dropped, its context is kept.
- RaftNodes.RaftNode.Step: the generic log parameter is fixed to `MemoryLog`; a `WalLog` answers reads from
  the same index, which `WalStore` keeps in step. `sync` and failures of the device are not modelled: log
  operations succeed whenever their preconditions hold, and a refused batch fails the step as in the source.
- The random generator: every function takes the election timeout it draws as an argument; in runs it is any
  value in the configured range.
- Overflow: terms and indices are unbounded in the protocol and 64-bit in the codec.
- Liveness: whether a leader is elected depends on how the driver schedules ticks and packets.
- HandOver.SignalGoesToWholeLog: says nothing of a target that has left the leader's term.
- Framing, the transport, configuration setters, error text and application state (src/framing.rs,
  src/transport.rs, src/config.rs, src/error.rs): thin or opaque to the protocol.
